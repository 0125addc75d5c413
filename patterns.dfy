/** Regular expressions as the extension uses them. The matching engine itself
    is not modelled: an `Engine` value supplies, for a pattern and a text, the
    sequence of matches a global scan reports, the number of capture groups of
    the pattern, and whether `new RegExp(body, flags)` accepts a body. What
    the extension does with those answers (counting, `exec` loops, parsing
    `"/body/flags"` strings) is modelled exactly. */
module Patterns {

  import opened Wrappers
  import opened Strings

  /** A compiled regular expression: its `source` and its `flags`. */
  datatype Regex = Regex(source: string, flags: string)

  /** A match `text[start..end]`. */
  datatype Span = Span(start: nat, end: nat)

  datatype Engine = Engine(
    find: (Regex, string) -> seq<Span>,   // every match of a left-to-right global scan
    captureGroups: Regex -> nat,          // the number of capturing groups in the pattern
    accepts: (string, string) -> bool)    // the body is a valid pattern under these flags

  predicate IsGlobal(p: Regex) {
    'g' in p.flags
  }

  /** Matches of one scan: non-empty, inside the text, in order, disjoint. */
  predicate WellFormedSpans(spans: seq<Span>, text: string) {
    (forall i :: 0 <= i < |spans| ==> spans[i].start < spans[i].end <= |text|) &&
    (forall i :: 0 < i < |spans| ==> spans[i - 1].end <= spans[i].start)
  }

  /** An engine whose scans are well formed for every pattern and text. */
  ghost predicate Sound(e: Engine) {
    forall p, text :: WellFormedSpans(e.find(p, text), text)
  }

  // ---------------------------------------------------------------------
  // `text.match(p).length`
  // ---------------------------------------------------------------------

  /** The length of the array `text.match(p)` returns, 0 for `null`: with the
      `g` flag, the number of matches; without it, the first match and its
      capture groups. */
  function MatchCount(e: Engine, p: Regex, text: string): nat {
    if IsGlobal(p) then |e.find(p, text)|
    else if |e.find(p, text)| == 0 then 0
    else 1 + e.captureGroups(p)
  }

  /** For a global pattern the count is the number of occurrences, and it is
      zero exactly when the pattern does not occur. Without the `g` flag a
      single occurrence is counted once per capture group on top: the count
      is no longer an occurrence count. */
  lemma MatchCountMeaning(e: Engine, p: Regex, text: string)
    ensures IsGlobal(p) ==> MatchCount(e, p, text) == |e.find(p, text)|
    ensures MatchCount(e, p, text) == 0 <==> |e.find(p, text)| == 0
    ensures !IsGlobal(p) && |e.find(p, text)| == 1 ==>
              MatchCount(e, p, text) == |e.find(p, text)| + e.captureGroups(p)
  {
  }

  /** The summed `match` counts of a list of patterns. */
  function TotalCount(e: Engine, ps: seq<Regex>, text: string): nat
    decreases |ps|
  {
    if |ps| == 0 then 0
    else TotalCount(e, ps[..|ps| - 1], text) + MatchCount(e, ps[|ps| - 1], text)
  }

  lemma {:induction false} TotalCountAppend(e: Engine, a: seq<Regex>, b: seq<Regex>, text: string)
    ensures TotalCount(e, a + b, text) == TotalCount(e, a, text) + TotalCount(e, b, text)
    decreases |b|
  {
    if |b| == 0 {
      assert a + b == a;
    } else {
      assert (a + b)[..|a + b| - 1] == a + b[..|b| - 1];
      TotalCountAppend(e, a, b[..|b| - 1], text);
    }
  }

  /** No pattern matches exactly when the total is zero. */
  lemma {:induction false} TotalCountZero(e: Engine, ps: seq<Regex>, text: string)
    ensures TotalCount(e, ps, text) == 0 <==>
            forall i :: 0 <= i < |ps| ==> |e.find(ps[i], text)| == 0
    decreases |ps|
  {
    if |ps| > 0 {
      TotalCountZero(e, ps[..|ps| - 1], text);
      MatchCountMeaning(e, ps[|ps| - 1], text);
      assert forall i :: 0 <= i < |ps| - 1 ==> ps[..|ps| - 1][i] == ps[i];
    }
  }

  // ---------------------------------------------------------------------
  // `regex.exec(text)` in a loop
  // ---------------------------------------------------------------------

  /** The first match of the scan that starts at or after `from`. */
  function FirstFrom(spans: seq<Span>, from: nat): (r: Option<nat>)
    ensures r.Some? ==> r.value < |spans| && spans[r.value].start >= from &&
                        forall k :: 0 <= k < r.value ==> spans[k].start < from
    ensures r.None? ==> forall k :: 0 <= k < |spans| ==> spans[k].start < from
  {
    if |spans| == 0 then None
    else if spans[0].start >= from then Some(0)
    else match FirstFrom(spans[1..], from)
      case None => None
      case Some(k) => Some(k + 1)
  }

  /** `regex.exec(text)` with the regex object's `lastIndex` at `lastIndex`:
      a global regex resumes the scan there, a non-global one always reports
      the first match. */
  function Exec(e: Engine, p: Regex, text: string, lastIndex: nat): Option<Span> {
    var spans := e.find(p, text);
    if !IsGlobal(p) then (if |spans| == 0 then None else Some(spans[0]))
    else if lastIndex > |text| then None
    else match FirstFrom(spans, lastIndex)
      case None => None
      case Some(k) => Some(spans[k])
  }

  /** The matches the loop `while ((m = regex.exec(text)) !== null)` pushes
      during its first `fuel` rounds, starting from `lastIndex`. A global
      regex moves `lastIndex` to the end of each match; a non-global one
      leaves it alone. */
  function ExecRun(e: Engine, p: Regex, text: string, lastIndex: nat, fuel: nat): seq<Span>
    decreases fuel
  {
    if fuel == 0 then []
    else match Exec(e, p, text, lastIndex)
      case None => []
      case Some(s) => [s] + ExecRun(e, p, text, if IsGlobal(p) then s.end else lastIndex, fuel - 1)
  }

  /** A non-global regex that matches makes the `exec` loop push a match in
      every round: the loop never ends. */
  lemma {:induction false} ExecLoopNeverEndsWithoutGlobal(e: Engine, p: Regex, text: string, fuel: nat)
    requires !IsGlobal(p) && |e.find(p, text)| > 0
    ensures |ExecRun(e, p, text, 0, fuel)| == fuel
    ensures forall i :: 0 <= i < fuel ==> ExecRun(e, p, text, 0, fuel)[i] == e.find(p, text)[0]
    decreases fuel
  {
    if fuel > 0 {
      ExecLoopNeverEndsWithoutGlobal(e, p, text, fuel - 1);
    }
  }

  /** With `lastIndex` past the first `k` matches and not past the next one,
      `exec` reports match `k`, or `null` once all are reported. */
  lemma ExecNext(e: Engine, p: Regex, text: string, lastIndex: nat, k: nat)
    requires IsGlobal(p) && lastIndex <= |text|
    requires k <= |e.find(p, text)|
    requires forall i :: 0 <= i < k ==> e.find(p, text)[i].start < lastIndex
    requires k < |e.find(p, text)| ==> e.find(p, text)[k].start >= lastIndex
    ensures k < |e.find(p, text)| ==> Exec(e, p, text, lastIndex) == Some(e.find(p, text)[k])
    ensures k == |e.find(p, text)| ==> Exec(e, p, text, lastIndex).None?
  {
  }

  /** One round of the loop: the match `exec` reports is pushed, and the
      scan resumes at its end. */
  lemma ExecRunStep(e: Engine, p: Regex, text: string, lastIndex: nat, fuel: nat, s: Span)
    requires IsGlobal(p) && fuel > 0 && Exec(e, p, text, lastIndex) == Some(s)
    ensures ExecRun(e, p, text, lastIndex, fuel) == [s] + ExecRun(e, p, text, s.end, fuel - 1)
  {
  }

  /** The loop stops once `exec` reports nothing. */
  lemma ExecRunStop(e: Engine, p: Regex, text: string, lastIndex: nat, fuel: nat)
    requires Exec(e, p, text, lastIndex).None?
    ensures ExecRun(e, p, text, lastIndex, fuel) == []
  {
  }

  /** After match `k` the resume point lies past the first `k + 1` matches
      and not past match `k + 1`. */
  lemma ExecPast(spans: seq<Span>, text: string, k: nat, lastIndex: nat)
    requires WellFormedSpans(spans, text) && k < |spans|
    requires forall i :: 0 <= i < k ==> spans[i].start < lastIndex
    requires spans[k].start >= lastIndex
    ensures spans[k].end <= |text|
    ensures forall i :: 0 <= i < k + 1 ==> spans[i].start < spans[k].end
    ensures k + 1 < |spans| ==> spans[k + 1].start >= spans[k].end
  {
  }

  /** One round of the loop with the rest of the run already known: the
      run from before match `k` is match `k` followed by that rest. */
  lemma ExecRunCons(e: Engine, p: Regex, text: string, k: nat, lastIndex: nat, fuel: nat)
    requires IsGlobal(p) && fuel > 0 && lastIndex <= |text|
    requires k < |e.find(p, text)|
    requires forall i :: 0 <= i < k ==> e.find(p, text)[i].start < lastIndex
    requires e.find(p, text)[k].start >= lastIndex
    requires ExecRun(e, p, text, e.find(p, text)[k].end, fuel - 1) == e.find(p, text)[k + 1..]
    ensures ExecRun(e, p, text, lastIndex, fuel) == e.find(p, text)[k..]
  {
    var spans := e.find(p, text);
    ExecNext(e, p, text, lastIndex, k);
    ExecRunStep(e, p, text, lastIndex, fuel, spans[k]);
    assert spans[k..] == [spans[k]] + spans[k + 1..];
  }

  lemma {:induction false} ExecRunFrom(e: Engine, p: Regex, text: string, k: nat, lastIndex: nat, fuel: nat)
    requires IsGlobal(p)
    requires WellFormedSpans(e.find(p, text), text)
    requires k <= |e.find(p, text)| && lastIndex <= |text|
    requires forall i :: 0 <= i < k ==> e.find(p, text)[i].start < lastIndex
    requires k < |e.find(p, text)| ==> e.find(p, text)[k].start >= lastIndex
    requires fuel > |e.find(p, text)| - k
    ensures ExecRun(e, p, text, lastIndex, fuel) == e.find(p, text)[k..]
    decreases fuel
  {
    var spans := e.find(p, text);
    if k < |spans| {
      ExecPast(spans, text, k, lastIndex);
      ExecRunFrom(e, p, text, k + 1, spans[k].end, fuel - 1);
      ExecRunCons(e, p, text, k, lastIndex, fuel);
    } else {
      ExecNext(e, p, text, lastIndex, k);
      ExecRunStop(e, p, text, lastIndex, fuel);
    }
  }

  /** For a global regex the `exec` loop ends after reporting exactly the
      matches of the scan, in order. */
  lemma ExecLoopGlobal(e: Engine, p: Regex, text: string)
    requires IsGlobal(p) && WellFormedSpans(e.find(p, text), text)
    ensures ExecRun(e, p, text, 0, |e.find(p, text)| + 1) == e.find(p, text)
  {
    ExecRunFrom(e, p, text, 0, 0, |e.find(p, text)| + 1);
  }

  // ---------------------------------------------------------------------
  // Pattern strings `"/body/flags"`
  // ---------------------------------------------------------------------

  predicate IsFlagChar(c: char) {
    c == 'g' || c == 'i' || c == 'm' || c == 'u' || c == 'y'
  }

  /** `s` ends with `/` followed only by flag letters: the test
      `/\/[gimuy]*$/`. */
  predicate EndsWithFlags(s: string) {
    exists k :: 0 <= k < |s| && s[k] == '/' && AllFlagChars(s[k + 1..])
  }

  predicate AllFlagChars(f: string) {
    forall i :: 0 <= i < |f| ==> IsFlagChar(f[i])
  }

  predicate NoLineTerminator(b: string) {
    forall i :: 0 <= i < |b| ==> !IsLineTerminator(b[i])
  }

  /** Matching `s` against `^\/(.+)\/([gimuy]*)$`: the body runs from after
      the leading slash to the last slash and the flags follow it. */
  function ParseLiteral(s: string): Option<(string, string)> {
    if |s| == 0 || s[0] != '/' then None
    else match LastIndexOf(s, '/')
      case None => None
      case Some(k) =>
        if k >= 2 && NoLineTerminator(s[1..k]) && AllFlagChars(s[k + 1..])
        then Some((s[1..k], s[k + 1..]))
        else None
  }

  /** The string form of a pattern, as the settings store it. */
  function ToLiteral(body: string, flags: string): string {
    "/" + body + "/" + flags
  }

  /** A pattern string parses exactly when it is the string form of a
      non-empty body without line terminators and a run of flag letters, and
      then it parses back into that body and those flags. */
  lemma ParseLiteralIff(s: string, body: string, flags: string)
    ensures ParseLiteral(s) == Some((body, flags)) <==>
            (s == ToLiteral(body, flags) && |body| > 0 && NoLineTerminator(body) &&
             AllFlagChars(flags))
  {
    if s == ToLiteral(body, flags) && |body| > 0 && NoLineTerminator(body) && AllFlagChars(flags) {
      var k := |body| + 1;
      assert s[k] == '/';
      assert forall i :: k < i < |s| ==> s[i] == flags[i - k - 1] && s[i] != '/';
      assert s[1..k] == body && s[k + 1..] == flags;
    }
  }

  /** Every parsed pattern string also passes the weaker test used when a
      pattern is added. */
  lemma ParseImpliesFlagsSuffix(s: string)
    requires ParseLiteral(s).Some?
    ensures |s| > 0 && s[0] == '/' && EndsWithFlags(s)
  {
    var k := LastIndexOf(s, '/').value;
    assert s[k] == '/' && AllFlagChars(s[k + 1..]);
  }

  /** The test applied when a pattern is added on the settings page: it
      starts with a slash and ends with a slash and flag letters. */
  predicate LooksLikeLiteral(s: string) {
    |s| > 0 && s[0] == '/' && EndsWithFlags(s)
  }

  lemma EndsWithFlagsFrom(s: string, f: string)
    requires AllFlagChars(f) && EndsWith(s, "/" + f)
    ensures EndsWithFlags(s)
  {
    var k := |s| - |f| - 1;
    assert s[k..] == "/" + f;
    assert s[k] == '/' && s[k + 1..] == f;
  }

  // ---------------------------------------------------------------------
  // `new RegExp(body, flags)` and `convertPatterns`
  // ---------------------------------------------------------------------

  predicate DistinctChars(f: string) {
    forall i, j :: 0 <= i < j < |f| ==> f[i] != f[j]
  }

  /** `new RegExp(body, flags)` for flags made of flag letters: it throws on a
      repeated flag or a body the engine rejects. */
  function Compile(e: Engine, body: string, flags: string): (r: Option<Regex>)
    ensures r.Some? <==> DistinctChars(flags) && e.accepts(body, flags)
    ensures r.Some? ==> r.value == Regex(body, flags)
  {
    if DistinctChars(flags) && e.accepts(body, flags) then Some(Regex(body, flags)) else None
  }

  /** One pattern string turned into a regex: parse, then compile; `None`
      when either step fails. */
  function Convert(e: Engine, s: string): (r: Option<Regex>)
    ensures r.Some? ==> s == ToLiteral(r.value.source, r.value.flags) &&
                        |r.value.source| > 0 && AllFlagChars(r.value.flags) &&
                        DistinctChars(r.value.flags)
  {
    match ParseLiteral(s)
      case None => None
      case Some(bf) =>
        ParseLiteralIff(s, bf.0, bf.1);
        Compile(e, bf.0, bf.1)
  }

  /** `convertPatterns`: the regexes of the strings that convert, in order;
      a bad string is dropped and the rest are still converted. */
  function ConvertAll(e: Engine, ps: seq<string>): (rs: seq<Regex>)
    ensures |rs| <= |ps|
    decreases |ps|
  {
    if |ps| == 0 then []
    else
      var rest := ConvertAll(e, ps[1..]);
      match Convert(e, ps[0])
        case None => rest
        case Some(r) => [r] + rest
  }

  /** Every regex the conversion keeps is the conversion of one of the
      input strings. */
  lemma {:induction false} ConvertAllSources(e: Engine, ps: seq<string>)
    ensures forall r :: r in ConvertAll(e, ps) ==> exists i :: 0 <= i < |ps| && Convert(e, ps[i]) == Some(r)
    decreases |ps|
  {
    if |ps| > 0 {
      ConvertAllSources(e, ps[1..]);
      forall r | r in ConvertAll(e, ps)
        ensures exists i :: 0 <= i < |ps| && Convert(e, ps[i]) == Some(r)
      {
        if r in ConvertAll(e, ps[1..]) {
          var i :| 0 <= i < |ps[1..]| && Convert(e, ps[1..][i]) == Some(r);
          assert Convert(e, ps[i + 1]) == Some(r);
        } else {
          assert Convert(e, ps[0]) == Some(r);
        }
      }
    }
  }

  /** Converting a concatenation converts the two parts independently: one
      bad string never stops the strings after it from being converted. */
  lemma {:induction false} ConvertAllAppend(e: Engine, a: seq<string>, b: seq<string>)
    ensures ConvertAll(e, a + b) == ConvertAll(e, a) + ConvertAll(e, b)
    decreases |a|
  {
    if |a| > 0 {
      assert (a + b)[0] == a[0];
      assert (a + b)[1..] == a[1..] + b;
      ConvertAllAppend(e, a[1..], b);
      match Convert(e, a[0]) {
        case None =>
        case Some(r) =>
          assert [r] + (ConvertAll(e, a[1..]) + ConvertAll(e, b)) == ([r] + ConvertAll(e, a[1..])) + ConvertAll(e, b);
      }
    } else {
      assert a + b == b;
    }
  }

  /** A single string converts to one regex or to nothing. */
  lemma ConvertAllSingle(e: Engine, s: string)
    ensures ConvertAll(e, [s]) == (match Convert(e, s) case None => [] case Some(r) => [r])
  {
  }

  // ---------------------------------------------------------------------
  // The `g` flag across a list
  // ---------------------------------------------------------------------

  predicate AllGlobal(ps: seq<Regex>) {
    forall i :: 0 <= i < |ps| ==> IsGlobal(ps[i])
  }

  lemma AllGlobalAppend(a: seq<Regex>, b: seq<Regex>)
    requires AllGlobal(a) && AllGlobal(b)
    ensures AllGlobal(a + b)
  {
    assert forall i :: |a| <= i < |a + b| ==> (a + b)[i] == b[i - |a|];
  }

  /** The pattern with the `g` flag added when it lacks it. */
  function WithGlobalFlag(p: Regex): (r: Regex)
    ensures IsGlobal(r) && r.source == p.source
    ensures IsGlobal(p) ==> r == p
    ensures forall c :: c in p.flags ==> c in r.flags
  {
    if IsGlobal(p) then p else Regex(p.source, "g" + p.flags)
  }

  /** A list with the `g` flag added to every pattern that lacks it. */
  function AddGlobalFlags(ps: seq<Regex>): (rs: seq<Regex>)
    ensures |rs| == |ps| && AllGlobal(rs)
    ensures forall i :: 0 <= i < |ps| ==> rs[i] == WithGlobalFlag(ps[i])
  {
    seq(|ps|, i requires 0 <= i < |ps| => WithGlobalFlag(ps[i]))
  }

  /** Adding the flag changes nothing in a list that is already global. */
  lemma AddGlobalFlagsGlobal(ps: seq<Regex>)
    requires AllGlobal(ps)
    ensures AddGlobalFlags(ps) == ps
  {
  }

  lemma AddGlobalFlagsAppend(a: seq<Regex>, b: seq<Regex>)
    ensures AddGlobalFlags(a + b) == AddGlobalFlags(a) + AddGlobalFlags(b)
  {
  }

  /** An engine whose scan does not depend on the `g` flag: the flag only
      changes what `match` and `exec` make of the scan. */
  ghost predicate ScanIgnoresGlobalFlag(e: Engine) {
    forall p, text :: e.find(WithGlobalFlag(p), text) == e.find(p, text)
  }

  /** The number of occurrences of all patterns of a list. */
  function Occurrences(e: Engine, ps: seq<Regex>, text: string): nat
    decreases |ps|
  {
    if |ps| == 0 then 0
    else Occurrences(e, ps[..|ps| - 1], text) + |e.find(ps[|ps| - 1], text)|
  }

  /** For a global list, the summed `match` counts are the occurrences. */
  lemma {:induction false} TotalCountGlobal(e: Engine, ps: seq<Regex>, text: string)
    requires AllGlobal(ps)
    ensures TotalCount(e, ps, text) == Occurrences(e, ps, text)
    decreases |ps|
  {
    if |ps| > 0 {
      assert AllGlobal(ps[..|ps| - 1]);
      TotalCountGlobal(e, ps[..|ps| - 1], text);
    }
  }

  /** With the `g` flag added everywhere, the summed counts are the
      occurrences of the original patterns. */
  lemma {:induction false} TotalCountAddGlobalFlags(e: Engine, ps: seq<Regex>, text: string)
    requires ScanIgnoresGlobalFlag(e)
    ensures TotalCount(e, AddGlobalFlags(ps), text) == Occurrences(e, ps, text)
    decreases |ps|
  {
    if |ps| > 0 {
      var qs := AddGlobalFlags(ps);
      assert qs[..|qs| - 1] == AddGlobalFlags(ps[..|ps| - 1]);
      TotalCountAddGlobalFlags(e, ps[..|ps| - 1], text);
      assert e.find(qs[|qs| - 1], text) == e.find(ps[|ps| - 1], text);
    }
  }

  /** A list none of whose patterns occurs totals zero. */
  lemma TotalCountSilent(e: Engine, qs: seq<Regex>, text: string)
    requires forall i :: 0 <= i < |qs| ==> |e.find(qs[i], text)| == 0
    ensures TotalCount(e, qs, text) == 0
  {
    TotalCountZero(e, qs, text);
  }

  /** When only the pattern at position `j` occurs, the total is its count. */
  lemma TotalCountSingle(e: Engine, ps: seq<Regex>, text: string, j: nat)
    requires j < |ps|
    requires forall i :: 0 <= i < |ps| && i != j ==> |e.find(ps[i], text)| == 0
    ensures TotalCount(e, ps, text) == MatchCount(e, ps[j], text)
  {
    var a, b := ps[..j], ps[j + 1..];
    assert ps == a + [ps[j]] + b;
    forall i | 0 <= i < |a|
      ensures |e.find(a[i], text)| == 0
    {
      assert a[i] == ps[i];
    }
    forall i | 0 <= i < |b|
      ensures |e.find(b[i], text)| == 0
    {
      assert b[i] == ps[j + 1 + i];
    }
    TotalCountSilent(e, a, text);
    TotalCountSilent(e, b, text);
    TotalCountAppend(e, a + [ps[j]], b, text);
    TotalCountAppend(e, a, [ps[j]], text);
    assert TotalCount(e, [ps[j]], text) == MatchCount(e, ps[j], text) by {
      assert [ps[j]][..0] == [];
    }
  }

  /** When only the patterns at positions `j` and `k` occur, the total is
      the sum of their counts. */
  lemma TotalCountTwo(e: Engine, ps: seq<Regex>, text: string, j: nat, k: nat)
    requires j < k < |ps|
    requires forall i :: 0 <= i < |ps| && i != j && i != k ==> |e.find(ps[i], text)| == 0
    ensures TotalCount(e, ps, text) == MatchCount(e, ps[j], text) + MatchCount(e, ps[k], text)
  {
    var a, b := ps[..k], ps[k..];
    assert ps == a + b;
    TotalCountAppend(e, a, b, text);
    TotalCountSingle(e, a, text, j);
    TotalCountSingle(e, b, text, 0);
  }

  /** When no pattern of the list occurs, the total is zero. */
  lemma TotalCountNone(e: Engine, ps: seq<Regex>, text: string)
    requires forall p :: p in ps ==> |e.find(p, text)| == 0
    ensures TotalCount(e, ps, text) == 0
  {
    TotalCountZero(e, ps, text);
  }

}
