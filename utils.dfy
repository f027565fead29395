/**
 * `parse_ai_response` of `litellm_utils/utils.py`: strip the response,
 * try to decode it as JSON, and on failure retry on the body of the first
 * "```json" (or else "```") fence; a second failure raises with a preview
 * of at most 500 characters of the text that was retried.
 *
 * The JSON decoder is a parameter: a partial function from text to a
 * decoded value, whose failure carries the decoder's error message.
 */
module Utils {
  import opened Wrappers
  import opened Types

  /** Python's `str.isspace` for one character: the characters `str.strip()` removes. */
  predicate IsSpace(c: char) {
    || '\t' <= c <= '\r'
    || '\U{1C}' <= c <= ' '
    || c == '\U{85}' || c == '\U{A0}' || c == '\U{1680}'
    || '\U{2000}' <= c <= '\U{200A}'
    || c == '\U{2028}' || c == '\U{2029}' || c == '\U{202F}' || c == '\U{205F}' || c == '\U{3000}'
  }

  /** Among ASCII characters, exactly the ten that Python counts as whitespace; never a letter or a digit. */
  lemma IsSpaceAscii(c: char)
    ensures c as int < 128 ==>
              (IsSpace(c) <==> c in {'\t', '\n', '\U{B}', '\U{C}', '\r', '\U{1C}', '\U{1D}', '\U{1E}', '\U{1F}', ' '})
    ensures '0' <= c <= '9' || 'a' <= c <= 'z' || 'A' <= c <= 'Z' ==> !IsSpace(c)
  {
  }

  /** `s.lstrip()`: the suffix of `s` left after dropping its leading whitespace. */
  function LStrip(s: string): (r: string)
    ensures |r| <= |s| && r == s[|s| - |r|..]
    ensures forall k :: 0 <= k < |s| - |r| ==> IsSpace(s[k])
    ensures r != [] ==> !IsSpace(r[0])
  {
    if s != [] && IsSpace(s[0]) then LStrip(s[1..]) else s
  }

  /** `s.rstrip()`: the prefix of `s` left after dropping its trailing whitespace. */
  function RStrip(s: string): (r: string)
    ensures |r| <= |s| && r == s[..|r|]
    ensures forall k :: |r| <= k < |s| ==> IsSpace(s[k])
    ensures r != [] ==> !IsSpace(r[|r| - 1])
  {
    if s != [] && IsSpace(s[|s| - 1]) then RStrip(s[..|s| - 1]) else s
  }

  /** `s.strip()`: `s` without the whitespace at either end. */
  function Strip(s: string): (r: string)
    ensures |r| <= |s|
    ensures r != [] ==> !IsSpace(r[0]) && !IsSpace(r[|r| - 1])
  {
    RStrip(LStrip(s))
  }

  /** `Strip` keeps a contiguous slice of `s`, starting after the leading whitespace. */
  lemma StripIsSlice(s: string)
    ensures var lead := |s| - |LStrip(s)|;
            lead + |Strip(s)| <= |s| && Strip(s) == s[lead..lead + |Strip(s)|]
  {
    var l := LStrip(s);
    var r := RStrip(l);
    SliceOfSuffix(s, l, r);
  }

  /** What `Strip` removes is whitespace: everything before and after the kept slice. */
  lemma StripRemovesOnlySpace(s: string)
    ensures var lead := |s| - |LStrip(s)|;
            && (forall k :: 0 <= k < lead ==> IsSpace(s[k]))
            && (forall k :: lead + |Strip(s)| <= k < |s| ==> IsSpace(s[k]))
  {
    var l := LStrip(s);
    var lead := |s| - |l|;
    forall k | lead + |Strip(s)| <= k < |s| ensures IsSpace(s[k]) {
      assert s[k] == l[k - lead];
    }
  }

  /** A prefix of a suffix is a slice. */
  lemma SliceOfSuffix(s: string, l: string, r: string)
    requires |l| <= |s| && l == s[|s| - |l|..]
    requires |r| <= |l| && r == l[..|r|]
    ensures |s| - |l| + |r| <= |s| && r == s[|s| - |l|..|s| - |l| + |r|]
  {
  }

  /** Stripping twice is stripping once. */
  lemma StripIdempotent(s: string)
    ensures Strip(Strip(s)) == Strip(s)
  {
    var r := Strip(s);
    assert LStrip(r) == r;
    assert RStrip(r) == r;
  }

  /** `pat` occurs in `s` at index `i`. */
  predicate OccursAt(s: string, pat: string, i: nat) {
    i + |pat| <= |s| && s[i..i + |pat|] == pat
  }

  /** `s.find(pat, from)` (with `None` for -1): the first occurrence of `pat` at or after `from`. */
  function Find(s: string, pat: string, from: nat): (r: Option<nat>)
    requires pat != []
    ensures r.Some? ==> from <= r.value && OccursAt(s, pat, r.value)
    ensures r.Some? ==> forall j :: from <= j < r.value ==> !OccursAt(s, pat, j)
    ensures r.None? ==> forall j :: from <= j ==> !OccursAt(s, pat, j)
    decreases |s| - from
  {
    if from + |pat| > |s| then None
    else if OccursAt(s, pat, from) then Some(from)
    else Find(s, pat, from + 1)
  }

  /** An occurrence with none before it, from `from` on, is the one `Find` reports. */
  lemma {:induction false} FindIsFirst(s: string, pat: string, from: nat, i: nat)
    requires pat != [] && from <= i && OccursAt(s, pat, i)
    requires forall j :: from <= j < i ==> !OccursAt(s, pat, j)
    ensures Find(s, pat, from) == Some(i)
    decreases i - from
  {
    if from < i {
      FindIsFirst(s, pat, from + 1, i);
    }
  }

  /** The fence markers `parse_ai_response` looks for. */
  const JsonFence := "```json"
  const Fence := "```"

  /**
   * Where the fenced body starts: right after the first "```json" if there
   * is one, otherwise right after the first "```", otherwise nowhere.
   */
  function FenceStart(t: string): (r: Option<nat>)
    ensures r.Some? ==> r.value <= |t|
  {
    match Find(t, JsonFence, 0)
    case Some(i) => Some(i + |JsonFence|)
    case None =>
      match Find(t, Fence, 0)
      case Some(i) => Some(i + |Fence|)
      case None => None
  }

  /**
   * The text of the second attempt: the stripped body of the fence (up to
   * the next "```" at or after its start, or to the end), or the text
   * itself when it has no fence.
   */
  function RetryText(t: string): (r: string)
    ensures FenceStart(t).None? ==> r == t
  {
    match FenceStart(t)
    case None => t
    case Some(start) =>
      match Find(t, Fence, start)
      case Some(end) => Strip(t[start..end])
      case None => Strip(t[start..])
  }

  /** The body starts right after the first "```json" whenever there is one. */
  lemma FenceStartAfterJsonFence(t: string, i: nat)
    requires OccursAt(t, JsonFence, i)
    requires forall j :: 0 <= j < i ==> !OccursAt(t, JsonFence, j)
    ensures FenceStart(t) == Some(i + 7)
  {
  }

  /** Without any "```json", the body starts right after the first "```". */
  lemma FenceStartAfterPlainFence(t: string, i: nat)
    requires forall j :: 0 <= j ==> !OccursAt(t, JsonFence, j)
    requires OccursAt(t, Fence, i)
    requires forall j :: 0 <= j < i ==> !OccursAt(t, Fence, j)
    ensures FenceStart(t) == Some(i + 3)
  {
  }

  /** Every occurrence of "```json" starts with an occurrence of "```". */
  lemma JsonFenceHasFence(t: string, i: nat)
    requires OccursAt(t, JsonFence, i)
    ensures OccursAt(t, Fence, i)
  {
    assert t[i..i + 3] == t[i..i + 7][..3];
  }

  /** With no "```" at all, the retry uses the (already stripped) text unchanged. */
  lemma RetryWithoutFence(t: string)
    requires forall j :: 0 <= j ==> !OccursAt(t, Fence, j)
    ensures FenceStart(t).None? && RetryText(t) == t
  {
    if Find(t, JsonFence, 0).Some? {
      JsonFenceHasFence(t, Find(t, JsonFence, 0).value);
    }
  }

  /** The body runs up to the first "```" at or after its start. */
  lemma RetryTextClosedFence(t: string, start: nat, end: nat)
    requires FenceStart(t) == Some(start)
    requires start <= end && OccursAt(t, Fence, end)
    requires forall j :: start <= j < end ==> !OccursAt(t, Fence, j)
    ensures RetryText(t) == Strip(t[start..end])
  {
    FindIsFirst(t, Fence, start, end);
  }

  /** With no closing "```", the body runs to the end of the text. */
  lemma RetryTextOpenFence(t: string, start: nat)
    requires FenceStart(t) == Some(start)
    requires forall j :: start <= j ==> !OccursAt(t, Fence, j)
    ensures RetryText(t) == Strip(t[start..])
  {
  }

  /** The preview in the error: the first `min(500, |t|)` characters of `t`. */
  function Preview(t: string): (p: string)
    ensures |p| == if |t| > 500 then 500 else |t|
    ensures p == t[..|p|]
  {
    if |t| > 500 then t[..500] else t
  }

  /**
   * `parse_ai_response`: a successful direct parse of the stripped text is
   * returned unchanged; otherwise the fence body (or the stripped text) is
   * parsed; a second failure raises with the decoder's error and a bounded
   * preview of the text that was retried.
   */
  function ParseAiResponse<J>(text: string, loads: string -> Result<J, string>): (r: Result<J, Error>)
    ensures loads(Strip(text)).Success? ==> r == Success(loads(Strip(text)).value)
    ensures loads(Strip(text)).Failure? && loads(RetryText(Strip(text))).Success? ==>
              r == Success(loads(RetryText(Strip(text))).value)
    ensures loads(Strip(text)).Failure? && loads(RetryText(Strip(text))).Failure? ==>
              r == Failure(MalformedJson(loads(RetryText(Strip(text))).error, Preview(RetryText(Strip(text)))))
    ensures r.Failure? ==>
              && loads(Strip(text)).Failure?
              && loads(RetryText(Strip(text))).Failure?
              && r.error == MalformedJson(loads(RetryText(Strip(text))).error, Preview(RetryText(Strip(text))))
    ensures r.Failure? ==> |r.error.preview| <= 500 && StartsWith(RetryText(Strip(text)), r.error.preview)
  {
    var stripped := Strip(text);
    match loads(stripped)
    case Success(v) => Success(v)
    case Failure(_) =>
      var retried := RetryText(stripped);
      match loads(retried)
      case Success(v) => Success(v)
      case Failure(e) => Failure(MalformedJson(e, Preview(retried)))
  }
}
