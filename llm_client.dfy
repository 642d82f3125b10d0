/** The text-generation client (`query_llm`, its retry loop only) and the
    structured-value extractor (`extract_json_from_text`). */
module LlmClient {
  import opened PyValue

  // ---------------------------------------------------------------------------
  // query_llm: bounded retry over an abstract network
  // ---------------------------------------------------------------------------

  /** The exceptions `query_llm` lets escape. */
  datatype LlmError =
    | MissingToken        // ValueError: no HF_API_TOKEN, raised before any request
    | UnexpectedFormat    // ValueError: "choices" absent or empty; not retried
    | MissingContent      // KeyError: choices[0] has no message/content; not retried
    | RetriesExhausted    // RuntimeError after the last failed attempt

  /** What a call of `query_llm` amounts to for its caller. */
  datatype LlmReply =
    | Text(content: string)   // the assistant text
    | NoContent               // `None`: a JSON null content, or zero retries
    | Raised(error: LlmError)

  /** The outcome of one POST attempt. */
  datatype Attempt =
    | RequestFailed                   // any requests.RequestException (transport, non-2xx, undecodable body)
    | NoChoices                       // the body has no non-empty "choices" list
    | ContentMissing                  // choices[0]["message"]["content"] is absent
    | Content(text: Option<string>)   // choices[0]["message"]["content"]; None for JSON null

  /** What an attempt that did not raise a RequestException returns or raises. */
  function Answer(a: Attempt): (r: LlmReply)
    requires !a.RequestFailed?
    ensures r.Raised? <==> a.NoChoices? || a.ContentMissing?
    ensures r.Text? <==> a.Content? && a.text.Some?
  {
    match a
    case NoChoices => Raised(UnexpectedFormat)
    case ContentMissing => Raised(MissingContent)
    case Content(t) => if t.Some? then Text(t.value) else NoContent
  }

  /** `query_llm(messages, retries=retries)`. Attempt `i` of the loop receives
      `post(i)`; the two-second sleep between attempts is not modelled. Only a
      RequestException is retried: a bad response shape escapes at once. */
  method QueryLlm(hasToken: bool, retries: int, post: nat -> Attempt) returns (reply: LlmReply, attempts: nat)
    ensures !hasToken ==> reply == Raised(MissingToken) && attempts == 0
    ensures hasToken && retries <= 0 ==> reply == NoContent && attempts == 0
    ensures hasToken && retries > 0 ==>
      && 1 <= attempts <= retries
      && (forall i :: 0 <= i < attempts - 1 ==> post(i).RequestFailed?)
      && if post(attempts - 1).RequestFailed?
         then attempts == retries && reply == Raised(RetriesExhausted)
         else reply == Answer(post(attempts - 1))
  {
    if !hasToken {
      return Raised(MissingToken), 0;
    }
    var attempt := 0;
    while attempt < retries
      invariant 0 <= attempt
      invariant retries > 0 ==> attempt < retries
      invariant forall i :: 0 <= i < attempt ==> post(i).RequestFailed?
    {
      var a := post(attempt);
      if !a.RequestFailed? {
        return Answer(a), attempt + 1;
      }
      if attempt == retries - 1 {
        return Raised(RetriesExhausted), attempt + 1;
      }
      attempt := attempt + 1;
    }
    return NoContent, 0;
  }

  // ---------------------------------------------------------------------------
  // Character classes
  // ---------------------------------------------------------------------------

  /** Python's `\s` on `str` patterns: the characters for which `str.isspace()` holds. */
  predicate IsSpace(c: char) {
    || '\t' <= c <= '\r'
    || '\U{1c}' <= c <= ' '
    || c == '\U{85}' || c == '\U{a0}' || c == '\U{1680}'
    || '\U{2000}' <= c <= '\U{200a}'
    || c == '\U{2028}' || c == '\U{2029}' || c == '\U{202f}' || c == '\U{205f}' || c == '\U{3000}'
  }

  predicate IsOpen(c: char) {
    c == '{' || c == '['
  }

  predicate IsClose(c: char) {
    c == '}' || c == ']'
  }

  // ---------------------------------------------------------------------------
  // The first fenced block: re.search(r"```(?:json)?\s*(.*?)\s*```", text, re.DOTALL)
  // ---------------------------------------------------------------------------

  /** A run of three backticks starts at `i`. */
  predicate FenceAt(t: string, i: int) {
    0 <= i && i + 3 <= |t| && t[i] == '`' && t[i + 1] == '`' && t[i + 2] == '`'
  }

  /** The first fence at or after `from`. */
  function FindFence(t: string, from: nat): (r: Option<nat>)
    ensures r.Some? ==> from <= r.value && FenceAt(t, r.value)
    ensures forall i :: from <= i && (r.None? || i < r.value) ==> !FenceAt(t, i)
    decreases |t| - from
  {
    if from + 3 > |t| then None
    else if FenceAt(t, from) then Some(from)
    else FindFence(t, from + 1)
  }

  /** The opening and closing fence the regex matches. The lazy group makes the
      closing fence the first one that does not overlap the opening one, and
      the leftmost match starts at the very first fence, because a later
      opening fence could only find closing fences that the first one finds
      too. */
  function FencePair(t: string): (r: Option<(nat, nat)>)
    ensures r.Some? ==>
      && FenceAt(t, r.value.0) && FenceAt(t, r.value.1) && r.value.0 + 3 <= r.value.1
      && (forall i :: 0 <= i < r.value.0 ==> !FenceAt(t, i))
      && (forall j :: r.value.0 + 3 <= j < r.value.1 ==> !FenceAt(t, j))
  {
    match FindFence(t, 0)
    case None => None
    case Some(p) =>
      match FindFence(t, p + 3)
      case None => None
      case Some(q) => Some((p, q))
  }

  /** The regex finds no match exactly when the text has no two fences that
      do not overlap. */
  lemma {:induction false} NoFencePairIff(t: string)
    ensures FencePair(t).None? <==> !exists i, j :: 0 <= i && i + 3 <= j && FenceAt(t, i) && FenceAt(t, j)
  {
    var first := FindFence(t, 0);
    if first.Some? {
      var p := first.value;
      var second := FindFence(t, p + 3);
      forall i, j | 0 <= i && i + 3 <= j && FenceAt(t, i) && FenceAt(t, j)
        ensures second.Some?
      {
        assert p <= i;
      }
    }
  }

  /** The first index in [i, hi) that is not whitespace, or `hi`: the greedy `\s*`. */
  function SkipSpaces(t: string, i: nat, hi: nat): (r: nat)
    requires i <= hi <= |t|
    ensures i <= r <= hi
    ensures forall k :: i <= k < r ==> IsSpace(t[k])
    ensures r < hi ==> !IsSpace(t[r])
    decreases hi - i
  {
    if i < hi && IsSpace(t[i]) then SkipSpaces(t, i + 1, hi) else i
  }

  /** The smallest `e` in [lo, hi] with t[e..hi] all whitespace: where the lazy
      `(.*?)` stops before the trailing `\s*` and the closing fence at `hi`. */
  function BackOverSpaces(t: string, lo: nat, hi: nat): (r: nat)
    requires lo <= hi <= |t|
    ensures lo <= r <= hi
    ensures forall k :: r <= k < hi ==> IsSpace(t[k])
    ensures lo < r ==> !IsSpace(t[r - 1])
    decreases hi - lo
  {
    if lo < hi && IsSpace(t[hi - 1]) then BackOverSpaces(t, lo, hi - 1) else hi
  }

  /** Group 1 of the match whose fences start at `p` and `q`: the optional
      lowercase `json` tag (tried first, the `?` being greedy) and the
      whitespace around the content are left outside the group. */
  function FenceContent(t: string, p: nat, q: nat): (c: string)
    requires p + 3 <= q <= |t|
    ensures |c| <= q - p - 3
    ensures c == [] || (!IsSpace(c[0]) && !IsSpace(c[|c| - 1]))
  {
    var tagEnd := if p + 7 <= q && t[p + 3..p + 7] == "json" then p + 7 else p + 3;
    var s := SkipSpaces(t, tagEnd, q);
    var e := BackOverSpaces(t, s, q);
    t[s..e]
  }

  // String-level reading of the same group, independent of the index arithmetic.

  function TrimStart(s: string): (r: string)
  {
    if s != [] && IsSpace(s[0]) then TrimStart(s[1..]) else s
  }

  function TrimEnd(s: string): (r: string)
  {
    if s != [] && IsSpace(s[|s| - 1]) then TrimEnd(s[..|s| - 1]) else s
  }

  function DropJsonTag(s: string): (r: string)
  {
    if |s| >= 4 && s[..4] == "json" then s[4..] else s
  }

  lemma {:induction false} SkipSpacesTrims(t: string, i: nat, hi: nat)
    requires i <= hi <= |t|
    ensures t[SkipSpaces(t, i, hi)..hi] == TrimStart(t[i..hi])
    decreases hi - i
  {
    if i < hi && IsSpace(t[i]) {
      SkipSpacesTrims(t, i + 1, hi);
      assert t[i..hi][1..] == t[i + 1..hi];
    }
  }

  lemma {:induction false} BackOverSpacesTrims(t: string, lo: nat, hi: nat)
    requires lo <= hi <= |t|
    ensures t[lo..BackOverSpaces(t, lo, hi)] == TrimEnd(t[lo..hi])
    decreases hi - lo
  {
    if lo < hi && IsSpace(t[hi - 1]) {
      BackOverSpacesTrims(t, lo, hi - 1);
      assert t[lo..hi][..hi - 1 - lo] == t[lo..hi - 1];
    }
  }

  /** The fenced candidate is the text between the fences with a leading
      `json` tag dropped and surrounding whitespace stripped. */
  lemma {:induction false} FenceContentIsTrimmedBlock(t: string, p: nat, q: nat)
    requires p + 3 <= q <= |t|
    ensures FenceContent(t, p, q) == TrimEnd(TrimStart(DropJsonTag(t[p + 3..q])))
  {
    var tagEnd := if p + 7 <= q && t[p + 3..p + 7] == "json" then p + 7 else p + 3;
    assert DropJsonTag(t[p + 3..q]) == t[tagEnd..q] by {
      if p + 7 <= q && t[p + 3..p + 7] == "json" {
        assert t[p + 3..q][..4] == t[p + 3..p + 7];
      } else if |t[p + 3..q]| >= 4 {
        assert t[p + 3..q][..4] == t[p + 3..p + 7];
      }
    }
    SkipSpacesTrims(t, tagEnd, q);
    var s := SkipSpaces(t, tagEnd, q);
    BackOverSpacesTrims(t, s, q);
  }

  /** The fenced candidate never contains a fence of its own: the group is lazy. */
  lemma {:induction false} FenceContentHasNoFence(t: string, p: nat, q: nat)
    requires p + 3 <= q <= |t|
    requires forall j :: p + 3 <= j < q ==> !FenceAt(t, j)
    ensures forall k :: !FenceAt(FenceContent(t, p, q), k)
  {
    var tagEnd := if p + 7 <= q && t[p + 3..p + 7] == "json" then p + 7 else p + 3;
    var s := SkipSpaces(t, tagEnd, q);
    var e := BackOverSpaces(t, s, q);
    var c := t[s..e];
    assert FenceContent(t, p, q) == c;
    forall k | FenceAt(c, k)
      ensures false
    {
      assert FenceAt(t, s + k);
    }
  }

  // ---------------------------------------------------------------------------
  // The bracket fallback: str.find / str.rfind and the slice
  // ---------------------------------------------------------------------------

  /** `t.find(c)`: the first index of `c`, or -1. */
  function Find(t: string, c: char): (r: int)
    ensures -1 <= r < |t|
    ensures r == -1 <==> forall i :: 0 <= i < |t| ==> t[i] != c
    ensures r >= 0 ==> t[r] == c && forall i :: 0 <= i < r ==> t[i] != c
  {
    if t == [] then -1
    else if t[0] == c then 0
    else var r := Find(t[1..], c); if r == -1 then -1 else r + 1
  }

  /** `t.rfind(c)`: the last index of `c`, or -1. */
  function RFind(t: string, c: char): (r: int)
    ensures -1 <= r < |t|
    ensures r == -1 <==> forall i :: 0 <= i < |t| ==> t[i] != c
    ensures r >= 0 ==> t[r] == c && forall i :: r < i < |t| ==> t[i] != c
  {
    if t == [] then -1
    else if t[|t| - 1] == c then |t| - 1
    else RFind(t[..|t| - 1], c)
  }

  /** `start` of extract_json_from_text: the earlier of the first `{` and the first `[`. */
  function BracketStart(t: string): (r: int)
    ensures -1 <= r < |t|
    ensures r == -1 <==> forall i :: 0 <= i < |t| ==> !IsOpen(t[i])
    ensures r >= 0 ==> IsOpen(t[r]) && forall i :: 0 <= i < r ==> !IsOpen(t[i])
  {
    var startObj := Find(t, '{');
    var startList := Find(t, '[');
    if startObj != -1 && startList != -1 then (if startObj <= startList then startObj else startList)
    else if startObj != -1 then startObj
    else if startList != -1 then startList
    else -1
  }

  /** `end` of extract_json_from_text: the later of the last `}` and the last `]`. */
  function BracketEnd(t: string): (r: int)
    ensures -1 <= r < |t|
    ensures r == -1 <==> forall i :: 0 <= i < |t| ==> !IsClose(t[i])
    ensures r >= 0 ==> IsClose(t[r]) && forall i :: r < i < |t| ==> !IsClose(t[i])
  {
    var endObj := RFind(t, '}');
    var endList := RFind(t, ']');
    if endObj != -1 && endList != -1 then (if endObj >= endList then endObj else endList)
    else if endObj != -1 then endObj
    else if endList != -1 then endList
    else -1
  }

  /** The inclusive bounds of the bracket candidate, or None when the text has
      no opening bracket, no closing bracket, or its last closing bracket comes
      before its first opening one. */
  function BracketSpan(t: string): (r: Option<(nat, nat)>)
    ensures r.Some? ==>
      && r.value.0 < r.value.1 < |t|
      && IsOpen(t[r.value.0]) && IsClose(t[r.value.1])
      && (forall i :: 0 <= i < r.value.0 ==> !IsOpen(t[i]))
      && (forall j :: r.value.1 < j < |t| ==> !IsClose(t[j]))
  {
    var start := BracketStart(t);
    if start == -1 then None
    else
      var end := BracketEnd(t);
      if end == -1 || end < start then None
      else Some((start, end))
  }

  /** There is no bracket candidate exactly when no opening bracket comes
      before a closing one. */
  lemma {:induction false} NoBracketSpanIff(t: string)
    ensures BracketSpan(t).None? <==> !exists i, j :: 0 <= i < j < |t| && IsOpen(t[i]) && IsClose(t[j])
  {
    var start, end := BracketStart(t), BracketEnd(t);
    forall i, j | 0 <= i < j < |t| && IsOpen(t[i]) && IsClose(t[j])
      ensures BracketSpan(t).Some?
    {
      assert start != -1 && start <= i;
      assert end != -1 && j <= end;
    }
  }

  // ---------------------------------------------------------------------------
  // extract_json_from_text
  // ---------------------------------------------------------------------------

  /** The string handed to `json.loads`, or None when the function returns
      before parsing. A fenced block wins outright: the brackets are then never
      looked at. */
  function Candidate(t: string): (r: Option<string>)
    ensures r.Some? && FencePair(t).None? ==> |r.value| >= 2 && IsOpen(r.value[0]) && IsClose(r.value[|r.value| - 1])
  {
    match FencePair(t)
    case Some((p, q)) => Some(FenceContent(t, p, q))
    case None =>
      match BracketSpan(t)
      case None => None
      case Some((s, e)) => Some(t[s..e + 1])
  }

  /** `extract_json_from_text(text)`, with `json.loads` given as `parse`: a
      candidate that does not parse is None, never a JSONDecodeError. Being a
      function, it gives the same result every time for the same text. */
  function ExtractJson(t: string, parse: string -> Option<Json>): (r: Option<Json>)
    ensures Candidate(t).None? ==> r.None?
    ensures Candidate(t).Some? ==> r == parse(Candidate(t).value)
  {
    match Candidate(t)
    case None => None
    case Some(c) => parse(c)
  }

  /** With a fenced block, the candidate is its trimmed content, whatever
      brackets the text holds and whether or not that content parses. */
  lemma {:induction false} FenceWins(t: string, p: nat, q: nat, parse: string -> Option<Json>)
    requires FenceAt(t, p) && FenceAt(t, q) && p + 3 <= q
    requires forall i :: 0 <= i < p ==> !FenceAt(t, i)
    requires forall j :: p + 3 <= j < q ==> !FenceAt(t, j)
    ensures Candidate(t) == Some(TrimEnd(TrimStart(DropJsonTag(t[p + 3..q]))))
    ensures ExtractJson(t, parse) == parse(TrimEnd(TrimStart(DropJsonTag(t[p + 3..q]))))
  {
    var pair := FencePair(t);
    assert pair.Some?;
    assert pair.value == (p, q);
    FenceContentIsTrimmedBlock(t, p, q);
  }

  /** Without a fenced block, the candidate is the slice from the first
      opening bracket to the last closing bracket, both included. */
  lemma {:induction false} BracketSliceCandidate(t: string, s: nat, e: nat)
    requires FencePair(t).None?
    requires s < e < |t| && IsOpen(t[s]) && IsClose(t[e])
    requires forall i :: 0 <= i < s ==> !IsOpen(t[i])
    requires forall j :: e < j < |t| ==> !IsClose(t[j])
    ensures Candidate(t) == Some(t[s..e + 1])
  {
    assert BracketStart(t) == s;
    assert BracketEnd(t) == e;
  }

  /** Without a fenced block, a text with no `{` and no `[`, or whose closing
      brackets all come before its first opening one, yields None whatever the
      parser. */
  lemma {:induction false} NoBracketPairNoValue(t: string, parse: string -> Option<Json>)
    requires FencePair(t).None?
    requires forall i, j :: 0 <= i < j < |t| && IsOpen(t[i]) ==> !IsClose(t[j])
    ensures ExtractJson(t, parse) == None
  {
    NoBracketSpanIff(t);
  }

  // ---------------------------------------------------------------------------
  // Worked inputs
  // ---------------------------------------------------------------------------

  /** A single `json`-tagged block: the candidate is the list inside it. */
  lemma {:induction false} TaggedBlockExample(t: string)
    requires t == "```json\n[1]\n```"
    ensures Candidate(t) == Some("[1]")
  {
    assert t[3..12] == "json\n[1]\n";
    assert DropJsonTag(t[3..12]) == "\n[1]\n";
    assert TrimStart("\n[1]\n") == "[1]\n" by {
      assert ("\n[1]\n")[1..] == "[1]\n";
    }
    assert TrimEnd("[1]\n") == "[1]" by {
      assert ("[1]\n")[..3] == "[1]";
    }
    assert forall j :: 3 <= j < 12 ==> !FenceAt(t, j) by {
      forall j | 3 <= j < 12 ensures !FenceAt(t, j) {
        assert j in {3, 4, 5, 6, 7, 8, 9, 10, 11};
      }
    }
    FenceWins(t, 0, 12, s => None);
  }

  /** Prose around an object and no fence: the candidate is the object. */
  lemma {:induction false} ProseAroundObjectExample(t: string)
    requires t == "ok {\"a\": 1}."
    ensures Candidate(t) == Some("{\"a\": 1}")
  {
    assert t[3..11] == "{\"a\": 1}";
    assert forall i :: !FenceAt(t, i) by {
      forall i | 0 <= i < |t| - 2 ensures !FenceAt(t, i) {
        assert i in {0, 1, 2, 3, 4, 5, 6, 7, 8, 9};
      }
    }
    BracketSliceCandidate(t, 3, 10);
  }

  /** An object that is never closed: no candidate, so None for any parser. */
  lemma {:induction false} UnclosedObjectExample(t: string, parse: string -> Option<Json>)
    requires t == "{a: 1"
    ensures ExtractJson(t, parse) == None
  {
    NoBracketPairNoValue(t, parse);
  }
}
