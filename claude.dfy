/**
 * The generalization invoker (src/services/claude.ts): the prompt it sends to the external
 * model, the leniency ladder that recovers a JSON text from the model's free-text reply,
 * and the assembly of the generalization result.
 *
 * `JSON.parse` is abstract: `isJson` says whether a text parses, `parse` what it parses to.
 * The external process is a function from the prompt to its reply (None when it fails).
 */
module Claude {
  import opened Wrappers
  import opened Text
  import opened Types

  // ---------------------------------------------------------------------------------------
  // Markdown fences: the regular expression /```(?:json)?\s*\n?([\s\S]*?)\n?\s*```/
  // ---------------------------------------------------------------------------------------

  /** Three backticks start at position `p`. */
  predicate FenceAt(s: string, p: nat) {
    p + 3 <= |s| && s[p..p + 3] == "```"
  }

  /** Where the capture group begins for an opening fence at `p`: past the fence, the optional
      `json` tag (taken whenever present, as the quantifier is greedy), and the white space matched
      by `\s*` (after which `\n?` matches nothing). Backtracking into these parts never yields a
      match that the greedy choice misses, because a closing fence cannot begin inside them. */
  function GroupStart(s: string, p: nat): (g: nat)
    requires FenceAt(s, p)
    ensures p + 3 <= g <= |s|
  {
    var t := if p + 7 <= |s| && s[p + 3..p + 7] == "json" then p + 7 else p + 3;
    SkipSpaces(s, t)
  }

  /** The rest of the pattern, `\n?\s*```, matches at position `q`. */
  predicate ClosesAt(s: string, q: nat)
    requires q <= |s|
  {
    FenceAt(s, SkipSpaces(s, q))
  }

  /** The lazy group `([\s\S]*?)` started at `q` ends at the first position where the rest matches. */
  function LazyEnd(s: string, q: nat): (r: Option<nat>)
    requires q <= |s|
    ensures r.Some? ==> q <= r.value <= |s| && ClosesAt(s, r.value)
                        && forall q' :: q <= q' < r.value ==> !ClosesAt(s, q')
    ensures r.None? ==> forall q' :: q <= q' <= |s| ==> !ClosesAt(s, q')
    decreases |s| - q
  {
    if ClosesAt(s, q) then Some(q)
    else if q == |s| then None
    else LazyEnd(s, q + 1)
  }

  /** A match of the fence pattern: the opening fence and the bounds of the captured group. */
  datatype FenceSpan = FenceSpan(open: nat, start: nat, end: nat)

  /** The whole pattern matches from position `p`. */
  predicate MatchesAt(s: string, p: nat) {
    FenceAt(s, p) && LazyEnd(s, GroupStart(s, p)).Some?
  }

  /** The leftmost match at or after `p`: `String.prototype.match` tries each start in turn. */
  function FindFence(s: string, p: nat): (r: Option<FenceSpan>)
    requires p <= |s|
    ensures r.Some? ==> && p <= r.value.open && MatchesAt(s, r.value.open)
                        && r.value.start == GroupStart(s, r.value.open)
                        && LazyEnd(s, r.value.start) == Some(r.value.end)
    ensures r.Some? ==> forall p' :: p <= p' < r.value.open ==> !MatchesAt(s, p')
    ensures r.None? ==> forall p' :: p <= p' <= |s| ==> !MatchesAt(s, p')
    decreases |s| - p
  {
    if MatchesAt(s, p) then
      Some(FenceSpan(p, GroupStart(s, p), LazyEnd(s, GroupStart(s, p)).value))
    else if p == |s| then None
    else FindFence(s, p + 1)
  }

  /** `fenceMatch[1].trim()` when the pattern matches. */
  function FenceMatch(s: string): Option<string> {
    match FindFence(s, 0)
    case Some(m) => Some(Trim(s[m.start..m.end]))
    case None => None
  }

  // A reference reading of the same step, without regular-expression machinery.

  /** The first fence at or after `from`. */
  function NextFence(s: string, from: nat): (r: Option<nat>)
    requires from <= |s|
    ensures r.Some? ==> from <= r.value && FenceAt(s, r.value)
                        && forall k :: from <= k < r.value ==> !FenceAt(s, k)
    ensures r.None? ==> forall k :: from <= k ==> !FenceAt(s, k)
    decreases |s| - from
  {
    if FenceAt(s, from) then Some(from)
    else if from == |s| then None
    else NextFence(s, from + 1)
  }

  /** The trimmed text between the first ``` (with its optional `json` tag) and the next ```. */
  function FenceContent(s: string): Option<string> {
    match NextFence(s, 0)
    case None => None
    case Some(p) =>
      match NextFence(s, GroupStart(s, p))
      case None => None
      case Some(k) => Some(Trim(s[GroupStart(s, p)..k]))
  }

  /** A fence begins with a backtick, so none begins on white space. */
  lemma SpaceIsNoFence(s: string, k: nat)
    requires k < |s| && s[k] != '`'
    ensures !FenceAt(s, k)
  {
    if k + 3 <= |s| { assert s[k..k + 3][0] == s[k]; }
  }

  /** `NextFence` finds the fence at `k` when none comes before it. */
  lemma {:induction false} NextFenceFirst(s: string, from: nat, k: nat)
    requires from <= k && FenceAt(s, k)
    requires forall m :: from <= m < k ==> !FenceAt(s, m)
    ensures NextFence(s, from) == Some(k)
    decreases k - from
  {
    if from < k {
      NextFenceFirst(s, from + 1, k);
    }
  }

  /** `NextFence` finds some fence no later than any fence at or after `from`. */
  lemma {:induction false} NextFenceFound(s: string, from: nat, k: nat)
    requires from <= k && FenceAt(s, k)
    ensures NextFence(s, from).Some? && NextFence(s, from).value <= k
    decreases k - from
  {
    if !FenceAt(s, from) {
      NextFenceFound(s, from + 1, k);
    }
  }

  /** A fence never starts inside a run of white space. */
  lemma ClosesAtIsNextFence(s: string, q: nat)
    requires q <= |s|
    ensures ClosesAt(s, q) ==> NextFence(s, q) == Some(SkipSpaces(s, q))
  {
    var j := SkipSpaces(s, q);
    if FenceAt(s, j) {
      forall m | q <= m < j ensures !FenceAt(s, m) {
        assert IsSpace(s[m]);
        SpaceIsNoFence(s, m);
      }
      NextFenceFirst(s, q, j);
    }
  }

  /** The lazy group ends exactly where the white space before the next fence begins. */
  lemma LazyEndIsBeforeNextFence(s: string, g: nat)
    requires g <= |s|
    ensures LazyEnd(s, g).Some? <==> NextFence(s, g).Some?
    ensures LazyEnd(s, g).Some? ==> && SkipSpaces(s, LazyEnd(s, g).value) == NextFence(s, g).value
                                     && AllSpaces(s[LazyEnd(s, g).value..NextFence(s, g).value])
  {
    var nf := NextFence(s, g);
    if nf.Some? {
      var k := nf.value;
      assert SkipSpaces(s, k) == k;
      assert ClosesAt(s, k);
      var e := LazyEnd(s, g).value;
      var j := SkipSpaces(s, e);
      assert AllSpaces(s[e..k]) by {
        forall i | 0 <= i < k - e ensures IsSpace(s[e..k][i]) { assert s[e..k][i] == s[e + i]; }
      }
    }
  }

  /** A closing fence found after a later opening fence is also found after the first one: the
      later fence either lies past the first one's group start or overlaps the first fence, and
      then the first group starts right after the first fence. */
  lemma LaterFenceClosesEarlier(s: string, p0: nat, p1: nat)
    requires FenceAt(s, p0) && FenceAt(s, p1) && p0 < p1
    requires NextFence(s, GroupStart(s, p1)).Some?
    ensures NextFence(s, GroupStart(s, p0)).Some?
  {
    var g0 := GroupStart(s, p0);
    if p1 < g0 {
      assert s[p1] == s[p1..p1 + 3][0];
      assert p1 < p0 + 3;
      assert s[p0 + 3] == s[p1..p1 + 3][p0 + 3 - p1];
      assert g0 == p0 + 3;
      NextFenceFound(s, g0, NextFence(s, GroupStart(s, p1)).value);
    } else {
      NextFenceFound(s, g0, p1);
    }
  }

  /** Where a later opening fence leads to a match, the first opening fence does too. */
  lemma EarlierFenceMatches(s: string, p0: nat, p1: nat)
    requires FenceAt(s, p0) && MatchesAt(s, p1) && p0 <= p1
    ensures MatchesAt(s, p0)
  {
    if p0 < p1 {
      LazyEndIsBeforeNextFence(s, GroupStart(s, p1));
      LaterFenceClosesEarlier(s, p0, p1);
      LazyEndIsBeforeNextFence(s, GroupStart(s, p0));
    }
  }

  /** The regular expression picks the first ``` in the text and the next ``` after its tag. */
  lemma FenceMatchIsFenceContent(s: string)
    ensures FenceMatch(s) == FenceContent(s)
  {
    var r := FindFence(s, 0);
    var first := NextFence(s, 0);
    if first.None? {
      assert r.None?;
    } else {
      var p0 := first.value;
      var g0 := GroupStart(s, p0);
      LazyEndIsBeforeNextFence(s, g0);
      if r.Some? {
        EarlierFenceMatches(s, p0, r.value.open);
        assert r.value.open == p0;
        FencedGroupTrim(s, g0, r.value.end, NextFence(s, g0).value);
      } else {
        assert !MatchesAt(s, p0);
      }
    }
  }

  /** White space between the end of the group and the closing fence is trimmed away. */
  lemma FencedGroupTrim(s: string, g: nat, e: nat, k: nat)
    requires g <= e <= k <= |s| && AllSpaces(s[e..k])
    ensures Trim(s[g..k]) == Trim(s[g..e])
  {
    assert s[g..k] == s[g..e] + s[e..k];
    TrimDropsTrailingSpaces(s[g..e], s[e..k]);
  }

  // ---------------------------------------------------------------------------------------
  // The leniency ladder
  // ---------------------------------------------------------------------------------------

  /** Some `{` comes strictly before some `}`. */
  predicate HasBracePair(t: string) {
    exists i, j :: 0 <= i < j < |t| && t[i] == '{' && t[j] == '}'
  }

  /** `extractJson`: the trimmed reply if it parses; else the first fenced block; else the span
      from the first `{` to the last `}`; else an extraction error. */
  function ExtractJson(text: string, isJson: string -> bool): (r: Result<string, Error>)
    ensures isJson(Trim(text)) ==> r == Ok(Trim(text))
    ensures !isJson(Trim(text)) && FenceContent(Trim(text)).Some? ==> r == Ok(FenceContent(Trim(text)).value)
    ensures !isJson(Trim(text)) && FenceContent(Trim(text)).None? && HasBracePair(Trim(text)) ==>
              r.Ok? && IsBraceSpan(Trim(text), r.value)
    ensures r.Err? <==> !isJson(Trim(text)) && FenceContent(Trim(text)).None? && !HasBracePair(Trim(text))
    ensures r.Err? ==> r.error == ExtractionFailed
  {
    var t := Trim(text);
    FenceMatchIsFenceContent(t);
    if isJson(t) then Ok(t)
    else match FenceMatch(t)
      case Some(inner) => Ok(inner)
      case None =>
        match BraceSlice(t)
        case Some(span) => Ok(span)
        case None => Err(ExtractionFailed)
  }

  /** `u` is the part of `t` from its first `{` to its last `}`, both included. */
  predicate IsBraceSpan(t: string, u: string) {
    exists i, j :: && 0 <= i < j < |t| && u == t[i..j + 1]
                   && t[i] == '{' && '{' !in t[..i] && t[j] == '}' && '}' !in t[j + 1..]
  }

  /** The last rung: `t.slice(t.indexOf("{"), t.lastIndexOf("}") + 1)` when the first `{`
      comes before the last `}`. */
  function BraceSlice(t: string): (r: Option<string>)
    ensures r.Some? <==> HasBracePair(t)
    ensures r.Some? ==> IsBraceSpan(t, r.value)
  {
    var start := IndexOf(t, '{');
    var end := LastIndexOf(t, '}');
    BracePairBounds(t);
    if start != -1 && end != -1 && end > start then Some(t[start..end + 1]) else None
  }

  /** A `{` before a `}` exists exactly when the first `{` comes before the last `}`. */
  lemma BracePairBounds(t: string)
    ensures HasBracePair(t) <==> (IndexOf(t, '{') != -1 && LastIndexOf(t, '}') > IndexOf(t, '{'))
  {
    var start := IndexOf(t, '{');
    var end := LastIndexOf(t, '}');
    if HasBracePair(t) {
      var i, j :| 0 <= i < j < |t| && t[i] == '{' && t[j] == '}';
    }
  }

  // ---------------------------------------------------------------------------------------
  // The ladder on the kinds of reply it was written for
  // ---------------------------------------------------------------------------------------

  /** A text with no white space at either end is its own trim. */
  lemma TrimOfUnpadded(t: string)
    requires t == [] || (!IsSpace(t[0]) && !IsSpace(t[|t| - 1]))
    ensures Trim(t) == t
  {
    assert t == [] + t + [];
    TrimOfPadded([], t, []);
  }

  /** Without a backtick there is no fence. */
  lemma NoFenceWithoutBacktick(s: string)
    requires '`' !in s
    ensures FenceContent(s).None?
  {
  }

  /** The first fence at or after `from` is the one at `k` when no backtick comes between. */
  lemma NextFenceIs(s: string, from: nat, k: nat)
    requires from <= k && FenceAt(s, k) && '`' !in s[from..k]
    ensures NextFence(s, from) == Some(k)
  {
    forall m | from <= m < k ensures !FenceAt(s, m) {
      assert s[m] == s[from..k][m - from];
      SpaceIsNoFence(s, m);
    }
    NextFenceFirst(s, from, k);
  }

  /** Only one span runs from the first `{` to the last `}`. */
  lemma BraceSpanIs(t: string, i: nat, j: nat, u: string)
    requires i < j < |t| && t[i] == '{' && '{' !in t[..i] && t[j] == '}' && '}' !in t[j + 1..]
    requires IsBraceSpan(t, u)
    ensures u == t[i..j + 1]
  {
    var a, b :| && 0 <= a < b < |t| && u == t[a..b + 1]
                && t[a] == '{' && '{' !in t[..a] && t[b] == '}' && '}' !in t[b + 1..];
  }

  /** The group of a `json`-tagged fence followed by a line break starts after the break. */
  lemma TaggedGroupStart(t: string, body: string)
    requires body != [] && !IsSpace(body[0])
    requires t == "```json\n" + body + "\n```"
    ensures FenceAt(t, 0) && GroupStart(t, 0) == 8
  {
    assert t[..3] == "```";
    assert t[3..7] == "json";
    assert t[7] == '\n' && t[8] == body[0];
  }

  /** The fenced content of such a block is its body. */
  lemma TaggedBlockContent(t: string, body: string)
    requires body != [] && '`' !in body && !IsSpace(body[0]) && !IsSpace(body[|body| - 1])
    requires t == "```json\n" + body + "\n```"
    ensures FenceContent(t) == Some(body)
  {
    var k := 9 + |body|;
    TaggedGroupStart(t, body);
    NextFenceFirst(t, 0, 0);
    assert t[k..k + 3] == "```";
    assert t[8..k] == body + "\n";
    NextFenceIs(t, 8, k);
    assert AllSpaces("\n");
    TrimDropsTrailingSpaces(body, "\n");
    TrimOfUnpadded(body);
  }

  /** A reply that is only a `json`-tagged fenced block yields the block's content,
      whether or not that content parses. */
  lemma ExtractsFencedBlock(body: string, isJson: string -> bool)
    requires body != [] && '`' !in body && !IsSpace(body[0]) && !IsSpace(body[|body| - 1])
    requires !isJson("```json\n" + body + "\n```")
    ensures ExtractJson("```json\n" + body + "\n```", isJson) == Ok(body)
  {
    var t := "```json\n" + body + "\n```";
    assert t[0] == '`' && t[|t| - 1] == '`';
    TrimOfUnpadded(t);
    TaggedBlockContent(t, body);
  }

  /** An object inside prose that holds no braces and no backticks yields the object. */
  lemma ExtractsEmbeddedObject(prefix: string, obj: string, suffix: string, isJson: string -> bool)
    requires |obj| >= 2 && obj[0] == '{' && obj[|obj| - 1] == '}'
    requires '{' !in prefix && '}' !in suffix && '`' !in prefix + obj + suffix
    requires prefix == [] || !IsSpace(prefix[0])
    requires suffix == [] || !IsSpace(suffix[|suffix| - 1])
    requires !isJson(prefix + obj + suffix)
    ensures ExtractJson(prefix + obj + suffix, isJson) == Ok(obj)
  {
    var t := prefix + obj + suffix;
    var i, j := |prefix|, |prefix| + |obj| - 1;
    assert t[0] == if prefix == [] then obj[0] else prefix[0];
    assert t[|t| - 1] == if suffix == [] then obj[|obj| - 1] else suffix[|suffix| - 1];
    TrimOfUnpadded(t);
    NoFenceWithoutBacktick(t);
    assert t[i] == '{' && t[j] == '}';
    assert t[..i] == prefix && t[j + 1..] == suffix && t[i..j + 1] == obj;
    BraceSpanIs(t, i, j, ExtractJson(t, isJson).value);
  }

  /** Prose with neither a backtick nor a `{` is rejected. */
  lemma RejectsProse(text: string, isJson: string -> bool)
    requires '`' !in text && '{' !in text
    requires !isJson(Trim(text))
    ensures ExtractJson(text, isJson) == Err(ExtractionFailed)
  {
    var t := Trim(text);
    TrimKeepsAbsent(text, '`');
    TrimKeepsAbsent(text, '{');
    NoFenceWithoutBacktick(t);
    forall i | 0 <= i < |t| ensures t[i] != '{' { assert t[i] in t; }
  }

  /** Accepts exactly the text `{"a":1}`. */
  predicate IsObjectA(s: string) {
    s == "{\"a\":1}"
  }

  /** Never accepts. */
  predicate NeverJson(s: string) {
    false
  }

  /** Examples, with a parser that accepts only `{"a":1}`: a bare object, */
  lemma ExampleBareObject(reply: string)
    requires reply == "{\"a\":1}"
    ensures ExtractJson(reply, IsObjectA) == Ok("{\"a\":1}")
  {
    TrimOfUnpadded(reply);
  }

  /** a tagged fenced block, */
  lemma ExampleFencedObject(reply: string)
    requires reply == "```json\n{\"a\":1}\n```"
    ensures ExtractJson(reply, IsObjectA) == Ok("{\"a\":1}")
  {
    assert reply == "```json\n" + "{\"a\":1}" + "\n```";
    ExtractsFencedBlock("{\"a\":1}", IsObjectA);
  }

  /** an object inside prose, */
  lemma ExampleEmbeddedObject(reply: string)
    requires reply == "prefix {\"a\":1} suffix"
    ensures ExtractJson(reply, IsObjectA) == Ok("{\"a\":1}")
  {
    assert reply == "prefix " + "{\"a\":1}" + " suffix";
    ExtractsEmbeddedObject("prefix ", "{\"a\":1}", " suffix", IsObjectA);
  }

  /** and prose alone. */
  lemma ExampleProse(reply: string)
    requires reply == "not json at all"
    ensures ExtractJson(reply, IsObjectA) == Err(ExtractionFailed)
  {
    TrimOfUnpadded(reply);
    RejectsProse(reply, IsObjectA);
  }

  /** A fenced block wins even when its content does not parse: the brace scan is never tried. */
  lemma ExampleFenceThatDoesNotParse(reply: string)
    requires reply == "```json\nnot {json}\n```"
    ensures ExtractJson(reply, NeverJson) == Ok("not {json}")
  {
    assert reply == "```json\n" + "not {json}" + "\n```";
    ExtractsFencedBlock("not {json}", NeverJson);
  }

  // ---------------------------------------------------------------------------------------
  // Prompt and result assembly (generalizeCode)
  // ---------------------------------------------------------------------------------------

  const SystemPrompt: string := @"You are a code generalization expert. Transform the given source code into a generic, reusable version that demonstrates the same programming pattern without revealing anything about the original company, product, or business domain.

Rules:
1. REMOVE all company-specific names, product names, internal service names, and domain-specific terminology.
2. REMOVE all credentials, API keys, internal URLs, IP addresses, email addresses, and employee names.
3. REMOVE all comments referencing internal systems, tickets, or proprietary processes.
4. REPLACE business-specific names with generic equivalents that describe the programming concept.
5. REPLACE domain-specific types with generic alternatives.
6. PRESERVE the programming pattern, algorithm, architecture, and code structure.
7. PRESERVE import/export patterns but generalize internal module names.
8. ADD a brief header comment describing what pattern or technique the code demonstrates.
9. Ensure the generalized code is syntactically valid.

You MUST respond with ONLY a JSON object (no markdown fences, no extra text) matching this exact structure:
{
  ""generalizedCode"": ""the fully generalized source code as a string"",
  ""suggestedFilename"": ""descriptive-kebab-case-filename.ext"",
  ""suggestedCategory"": ""one of: patterns | utils | data-structures | algorithms | api-integration | middleware | hooks | components | testing | config | other"",
  ""description"": ""one-line description of the pattern (for commit message)"",
  ""warnings"": [""array of warnings about content that may still be specific""]
}"

  function UserPrompt(language: string, sourceCode: string): string {
    "Generalize the following " + language + " code:\n\n" + sourceCode
  }

  /** The text sent to the external model: the fixed instructions, a blank line, and the request,
      which ends with the source code exactly as read. */
  function FullPrompt(request: GeneralizationRequest): (p: string)
    ensures |p| >= |SystemPrompt| + 2 + |request.sourceCode|
    ensures p[..|SystemPrompt| + 2] == SystemPrompt + "\n\n"
    ensures p[|p| - |request.sourceCode|..] == request.sourceCode
  {
    var p := SystemPrompt + "\n\n" + UserPrompt(request.language, request.sourceCode);
    assert p == (SystemPrompt + "\n\n") + ("Generalize the following " + request.language + " code:\n\n") + request.sourceCode;
    p
  }

  /** The model's reply, recovered and parsed: the process output, then `extractJson`,
      then `JSON.parse` of what was extracted. */
  function ParsedReplyOf(request: GeneralizationRequest, claude: string -> Option<string>,
                         parse: string -> Option<ParsedReply>): (r: Result<ParsedReply, Error>)
    ensures claude(FullPrompt(request)).None? ==> r == Err(GenerationFailed)
    ensures r.Ok? ==> && claude(FullPrompt(request)).Some?
                      && var e := ExtractJson(claude(FullPrompt(request)).value, s => parse(s).Some?);
                         e.Ok? && parse(e.value) == Some(r.value)
    ensures r.Err? ==> r.error in {GenerationFailed, ExtractionFailed, InvalidJson}
    ensures claude(FullPrompt(request)).Some? ==>
              var e := ExtractJson(claude(FullPrompt(request)).value, s => parse(s).Some?);
              && (e.Err? ==> r == Err(e.error))
              && (e.Ok? ==> r == if parse(e.value).Some? then Ok(parse(e.value).value) else Err(InvalidJson))
  {
    match claude(FullPrompt(request))
    case None => Err(GenerationFailed)
    case Some(reply) =>
      match ExtractJson(reply, s => parse(s).Some?)
      case Err(e) => Err(e)
      case Ok(json) =>
        match parse(json)
        case None => Err(InvalidJson)
        case Some(p) => Ok(p)
  }

  /** The result record: path and language come from the request, everything else from the
      reply, and absent warnings become an empty list. */
  function Assemble(request: GeneralizationRequest, p: ParsedReply): (g: GeneralizationResult)
    ensures g.originalPath == request.filePath && g.language == request.language
    ensures && g.generalizedCode == p.generalizedCode && g.suggestedFilename == p.suggestedFilename
            && g.suggestedCategory == p.suggestedCategory && g.description == p.description
    ensures p.warnings.None? ==> g.warnings == []
    ensures p.warnings.Some? ==> g.warnings == p.warnings.value
  {
    GeneralizationResult(request.filePath, request.language, p.generalizedCode,
                         p.suggestedFilename, p.suggestedCategory, p.description,
                         p.warnings.GetOr([]))
  }

  /** `generalizeCode`, with the temporary prompt file and the process call abstracted. */
  function Generalize(request: GeneralizationRequest, claude: string -> Option<string>,
                      parse: string -> Option<ParsedReply>): (r: Result<GeneralizationResult, Error>)
    ensures r.Ok? <==> ParsedReplyOf(request, claude, parse).Ok?
    ensures r.Ok? ==> r.value == Assemble(request, ParsedReplyOf(request, claude, parse).value)
    ensures r.Err? ==> r.error == ParsedReplyOf(request, claude, parse).error
  {
    match ParsedReplyOf(request, claude, parse)
    case Err(e) => Err(e)
    case Ok(p) => Ok(Assemble(request, p))
  }
}
