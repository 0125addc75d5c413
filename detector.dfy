/** The content script's detector (src/content.js, class `SlopDetector`):
    which page elements count as slop, which custom patterns it loads, which
    sites are exempt, and how many elements it has hidden. */
module Detector {

  import opened Wrappers
  import opened Strings
  import opened Patterns
  import Catalogue

  // ---------------------------------------------------------------------
  // Scoring
  // ---------------------------------------------------------------------

  /** A custom pattern and its weight. `pattern` is `None` where the source
      holds `undefined`, the result of a string that failed to convert. */
  datatype CustomPattern = CustomPattern(pattern: Option<Regex>, weight: int)

  /** Everything the score of an element depends on: the sensitivity, the
      category toggles and the pattern lists. A toggle the source leaves
      `undefined` is `false`. */
  datatype Profile = Profile(
    sensitivity: int,
    blockTier1: bool, blockTier2: bool, blockTier3: bool,
    blockEmojis: bool, blockStopWords: bool, blockEmDashes: bool,
    lowAggro: seq<Regex>, mediumAggro: seq<Regex>, highAggro: seq<Regex>,
    emoji: seq<Regex>, stopWords: seq<Regex>, emDashes: seq<Regex>,
    custom: seq<CustomPattern>)

  /** `text.match(pattern).length`, where `text.match(undefined)` matches the
      empty string once. */
  function ArgCount(e: Engine, pattern: Option<Regex>, text: string): nat {
    match pattern
      case None => 1
      case Some(r) => MatchCount(e, r, text)
  }

  /** The points of the custom patterns: each count times its own weight. */
  function CustomPoints(e: Engine, cs: seq<CustomPattern>, text: string): int
    decreases |cs|
  {
    if |cs| == 0 then 0
    else CustomPoints(e, cs[..|cs| - 1], text) + ArgCount(e, cs[|cs| - 1].pattern, text) * cs[|cs| - 1].weight
  }

  /** A category's points: `weight` per match when its gate is open. */
  function Gated(open: bool, weight: nat, e: Engine, ps: seq<Regex>, text: string): nat {
    if open then weight * TotalCount(e, ps, text) else 0
  }

  /** The slop score of an element's text. */
  function Score(e: Engine, p: Profile, text: string): int {
    Gated(p.blockTier1 && p.sensitivity >= 1, 3, e, p.lowAggro, text) +
    Gated(p.blockTier2 && p.sensitivity >= 3, 2, e, p.mediumAggro, text) +
    Gated(p.blockTier3 && p.sensitivity >= 4, 1, e, p.highAggro, text) +
    CustomPoints(e, p.custom, text) +
    Gated(p.blockEmojis, 5, e, p.emoji, text) +
    Gated(p.blockStopWords, 3, e, p.stopWords, text) +
    Gated(p.blockEmDashes, 3, e, p.emDashes, text)
  }

  /** The score an element needs to be hidden, by sensitivity. */
  function Threshold(sensitivity: int): nat {
    if sensitivity == 1 then 15
    else if sensitivity == 2 then 12
    else if sensitivity == 3 then 9
    else if sensitivity == 4 then 6
    else if sensitivity == 5 then 4
    else 9
  }

  /** Whether an element with this text is hidden. */
  predicate IsSlop(e: Engine, p: Profile, text: string) {
    |text| >= 100 && Score(e, p, text) >= Threshold(p.sensitivity)
  }

  /** Thresholds fall as the sensitivity rises from 1 to 5; any other
      sensitivity falls back to the middle value 9. */
  lemma ThresholdOrder(s: int, t: int)
    ensures 1 <= s <= t <= 5 ==> Threshold(t) <= Threshold(s)
    ensures 4 <= Threshold(s) <= 15
    ensures !(1 <= s <= 5) ==> Threshold(s) == 9
  {
  }

  /** Raising the sensitivity never lowers the score. */
  lemma ScoreMonotone(e: Engine, p: Profile, t: int, text: string)
    requires p.sensitivity <= t
    ensures Score(e, p, text) <= Score(e, p.(sensitivity := t), text)
  {
  }

  /** Within 1..5, raising the sensitivity never lets a hidden element
      through. */
  lemma BlockedMonotone(e: Engine, p: Profile, t: int, text: string)
    requires 1 <= p.sensitivity <= t <= 5
    requires IsSlop(e, p, text)
    ensures IsSlop(e, p.(sensitivity := t), text)
  {
    ScoreMonotone(e, p, t, text);
    ThresholdOrder(p.sensitivity, t);
  }

  /** Tier 1 adds 3 points per match from sensitivity 1 up. */
  lemma Tier1Gate(e: Engine, p: Profile, text: string)
    ensures Score(e, p.(blockTier1 := true), text) - Score(e, p.(blockTier1 := false), text) ==
            (if p.sensitivity >= 1 then 3 * TotalCount(e, p.lowAggro, text) else 0)
  {
  }

  /** Tier 2 adds 2 points per match from sensitivity 3 up. */
  lemma Tier2Gate(e: Engine, p: Profile, text: string)
    ensures Score(e, p.(blockTier2 := true), text) - Score(e, p.(blockTier2 := false), text) ==
            (if p.sensitivity >= 3 then 2 * TotalCount(e, p.mediumAggro, text) else 0)
  {
  }

  /** Tier 3 adds 1 point per match from sensitivity 4 up. */
  lemma Tier3Gate(e: Engine, p: Profile, text: string)
    ensures Score(e, p.(blockTier3 := true), text) - Score(e, p.(blockTier3 := false), text) ==
            (if p.sensitivity >= 4 then TotalCount(e, p.highAggro, text) else 0)
  {
  }

  /** The emoji toggle adds 5 points per match at any sensitivity. */
  lemma EmojiGate(e: Engine, p: Profile, text: string)
    ensures Score(e, p.(blockEmojis := true), text) - Score(e, p.(blockEmojis := false), text) ==
            5 * TotalCount(e, p.emoji, text)
  {
  }

  /** The stop-word toggle adds 3 points per match at any sensitivity. */
  lemma StopWordGate(e: Engine, p: Profile, text: string)
    ensures Score(e, p.(blockStopWords := true), text) - Score(e, p.(blockStopWords := false), text) ==
            3 * TotalCount(e, p.stopWords, text)
  {
  }

  /** The em-dash toggle adds 3 points per match at any sensitivity. */
  lemma EmDashGate(e: Engine, p: Profile, text: string)
    ensures Score(e, p.(blockEmDashes := true), text) - Score(e, p.(blockEmDashes := false), text) ==
            3 * TotalCount(e, p.emDashes, text)
  {
  }

  /** Custom patterns add their points whatever the toggles and the
      sensitivity. */
  lemma CustomUngated(e: Engine, p: Profile, text: string)
    ensures Score(e, p, text) - Score(e, p.(custom := []), text) == CustomPoints(e, p.custom, text)
  {
  }

  /** Text shorter than 100 characters is never hidden, whatever it holds. */
  lemma ShortTextNeverSlop(e: Engine, p: Profile, text: string)
    requires |text| < 100
    ensures !IsSlop(e, p, text)
  {
  }

  /** Accumulates `weight` points per match over a list, as each scoring loop
      of `isSlopElement` does. */
  method AddPoints(e: Engine, ps: seq<Regex>, text: string, weight: nat, score: int) returns (total: int)
    ensures total == score + weight * TotalCount(e, ps, text)
  {
    total := score;
    var i := 0;
    while i < |ps|
      invariant 0 <= i <= |ps|
      invariant total == score + weight * TotalCount(e, ps[..i], text)
    {
      assert ps[..i + 1][..i] == ps[..i];
      ghost var before := TotalCount(e, ps[..i], text);
      assert TotalCount(e, ps[..i + 1], text) == before + MatchCount(e, ps[i], text);
      total := total + MatchCount(e, ps[i], text) * weight;
      assert total == score + weight * before + weight * MatchCount(e, ps[i], text);
      i := i + 1;
    }
    assert ps[..i] == ps;
  }

  /** The loop over the custom patterns in `isSlopElement`: each adds its
      weight per match of its pattern. */
  method AddCustomPoints(e: Engine, cs: seq<CustomPattern>, text: string, score: int) returns (total: int)
    ensures total == score + CustomPoints(e, cs, text)
  {
    total := score;
    var i := 0;
    while i < |cs|
      invariant 0 <= i <= |cs|
      invariant total == score + CustomPoints(e, cs[..i], text)
    {
      assert cs[..i + 1][..i] == cs[..i];
      total := total + ArgCount(e, cs[i].pattern, text) * cs[i].weight;
      i := i + 1;
    }
    assert cs[..i] == cs;
  }

  /** The scoring part of `isSlopElement`: each enabled category adds its
      weight per match, then the custom patterns theirs. */
  method SlopScore(e: Engine, p: Profile, text: string) returns (score: int)
    ensures score == Score(e, p, text)
  {
    score := 0;
    if p.blockTier1 && p.sensitivity >= 1 {
      score := AddPoints(e, p.lowAggro, text, 3, score);
    }
    ghost var s1 := score;
    assert s1 == Gated(p.blockTier1 && p.sensitivity >= 1, 3, e, p.lowAggro, text);
    if p.blockTier2 && p.sensitivity >= 3 {
      score := AddPoints(e, p.mediumAggro, text, 2, score);
    }
    ghost var s2 := score;
    assert s2 == s1 + Gated(p.blockTier2 && p.sensitivity >= 3, 2, e, p.mediumAggro, text);
    if p.blockTier3 && p.sensitivity >= 4 {
      score := AddPoints(e, p.highAggro, text, 1, score);
    }
    ghost var s3 := score;
    assert s3 == s2 + Gated(p.blockTier3 && p.sensitivity >= 4, 1, e, p.highAggro, text);
    score := AddCustomPoints(e, p.custom, text, score);
    ghost var s4 := score;
    assert s4 == s3 + CustomPoints(e, p.custom, text);
    if p.blockEmojis {
      score := AddPoints(e, p.emoji, text, 5, score);
    }
    ghost var s5 := score;
    assert s5 == s4 + Gated(p.blockEmojis, 5, e, p.emoji, text);
    if p.blockStopWords {
      score := AddPoints(e, p.stopWords, text, 3, score);
    }
    ghost var s6 := score;
    assert s6 == s5 + Gated(p.blockStopWords, 3, e, p.stopWords, text);
    if p.blockEmDashes {
      score := AddPoints(e, p.emDashes, text, 3, score);
    }
    assert score == s6 + Gated(p.blockEmDashes, 3, e, p.emDashes, text);
  }

  // ---------------------------------------------------------------------
  // Custom patterns from the settings
  // ---------------------------------------------------------------------

  /** A custom pattern as the settings store it, with an integer weight. */
  datatype StoredCustom = StoredCustom(pattern: string, weight: int)

  /** The stored pattern overrides; `None` is a missing key. */
  datatype StoredPatterns = StoredPatterns(
    tier1: Option<seq<string>>, tier2: Option<seq<string>>, tier3: Option<seq<string>>,
    custom: Option<seq<StoredCustom>>)

  /** The custom patterns whose strings convert, each with its weight. */
  function CustomFrom(e: Engine, items: seq<StoredCustom>): (cs: seq<CustomPattern>)
    ensures |cs| <= |items|
    ensures forall c :: c in cs ==>
              c.pattern.Some? &&
              exists i :: 0 <= i < |items| && Convert(e, items[i].pattern) == c.pattern &&
                          items[i].weight == c.weight
    decreases |items|
  {
    if |items| == 0 then []
    else
      var rest := CustomFrom(e, items[1..]);
      assert forall c :: c in rest ==>
               exists i :: 0 <= i < |items| && Convert(e, items[i].pattern) == c.pattern &&
                           items[i].weight == c.weight by {
        forall c | c in rest
          ensures exists i :: 0 <= i < |items| && Convert(e, items[i].pattern) == c.pattern &&
                              items[i].weight == c.weight
        {
          var i :| 0 <= i < |items[1..]| && Convert(e, items[1..][i].pattern) == c.pattern &&
                   items[1..][i].weight == c.weight;
          assert items[i + 1] == items[1..][i];
        }
      }
      match Convert(e, items[0].pattern)
        case None => rest
        case Some(r) => [CustomPattern(Some(r), items[0].weight)] + rest
  }

  /** The custom list as `loadCustomPatterns` builds it: every stored
      entry with its conversion, `undefined` when that fails, or nothing
      when the stored list is missing or empty. */
  function LoadedCustom(e: Engine, custom: Option<seq<StoredCustom>>): seq<CustomPattern> {
    if custom.Some? && |custom.value| > 0 then CustomFromAsWritten(e, custom.value) else []
  }

  /** The custom list with unconvertible entries dropped, as the filter
      evidently means to. */
  function LoadedCustomCorrected(e: Engine, custom: Option<seq<StoredCustom>>): seq<CustomPattern> {
    if custom.Some? && |custom.value| > 0 then CustomFrom(e, custom.value) else []
  }

  /** The entries that hold an expression, in order. */
  function KeepDefined(cs: seq<CustomPattern>): seq<CustomPattern>
    decreases |cs|
  {
    if |cs| == 0 then []
    else if cs[0].pattern.Some? then [cs[0]] + KeepDefined(cs[1..])
    else KeepDefined(cs[1..])
  }

  /** The corrected loader is the loader as written followed by the filter
      `item.pattern !== undefined`: it keeps exactly the converted entries,
      in order, each with its weight. */
  lemma {:induction false} CustomFromKeepsDefined(e: Engine, items: seq<StoredCustom>)
    ensures CustomFrom(e, items) == KeepDefined(CustomFromAsWritten(e, items))
    decreases |items|
  {
    if |items| > 0 {
      var all := CustomFromAsWritten(e, items);
      CustomFromKeepsDefined(e, items[1..]);
      assert all[1..] == CustomFromAsWritten(e, items[1..]);
      assert all[0] == CustomPattern(Convert(e, items[0].pattern), items[0].weight);
    }
  }

  /** Corrected, every loaded custom entry holds an expression, and it is
      the as-written list with the `undefined` entries removed. */
  lemma CorrectedCustomMeaning(e: Engine, custom: Option<seq<StoredCustom>>)
    ensures LoadedCustomCorrected(e, custom) == KeepDefined(LoadedCustom(e, custom))
    ensures forall c :: c in LoadedCustomCorrected(e, custom) ==> c.pattern.Some?
  {
    if custom.Some? && |custom.value| > 0 {
      CustomFromKeepsDefined(e, custom.value);
    }
  }

  /** The profile after `loadCustomPatterns(cp)`. */
  function WithOverrides(e: Engine, p: Profile, cp: StoredPatterns): Profile {
    p.(lowAggro := if cp.tier1.Some? then ConvertAll(e, cp.tier1.value) else p.lowAggro,
       mediumAggro := if cp.tier2.Some? then ConvertAll(e, cp.tier2.value) else p.mediumAggro,
       highAggro := if cp.tier3.Some? then ConvertAll(e, cp.tier3.value) else p.highAggro,
       custom := LoadedCustom(e, cp.custom))
  }

  /** A tier list is replaced wholesale by the converted strings exactly when
      the override has that key, and is untouched otherwise; the custom list
      keeps every stored entry, in order and with its weight, next to its
      conversion (`undefined` when that fails); nothing else changes. */
  lemma OverridesMeaning(e: Engine, p: Profile, cp: StoredPatterns)
    ensures var q := WithOverrides(e, p, cp);
      (cp.tier1.None? ==> q.lowAggro == p.lowAggro) &&
      (cp.tier2.None? ==> q.mediumAggro == p.mediumAggro) &&
      (cp.tier3.None? ==> q.highAggro == p.highAggro) &&
      (cp.tier1.Some? ==> q.lowAggro == ConvertAll(e, cp.tier1.value)) &&
      (cp.custom.Some? && |cp.custom.value| > 0 ==>
         |q.custom| == |cp.custom.value| &&
         forall i :: 0 <= i < |q.custom| ==>
           q.custom[i].weight == cp.custom.value[i].weight &&
           q.custom[i].pattern == Convert(e, cp.custom.value[i].pattern)) &&
      (cp.custom.None? || cp.custom == Some([]) ==> q.custom == []) &&
      q.(lowAggro := p.lowAggro, mediumAggro := p.mediumAggro, highAggro := p.highAggro,
         custom := p.custom) == p
  {
  }

  /** A tier whose stored list has a bad string in the middle keeps every
      good string before and after it. */
  lemma BadTierStringDropped(e: Engine, p: Profile, before: seq<string>, bad: string, after: seq<string>)
    requires Convert(e, bad).None?
    ensures WithOverrides(e, p, StoredPatterns(Some(before + [bad] + after), None, None, None)).lowAggro ==
            ConvertAll(e, before) + ConvertAll(e, after)
  {
    ConvertAllAppend(e, before + [bad], after);
    ConvertAllAppend(e, before, [bad]);
    ConvertAllSingle(e, bad);
  }

  /** As written, a custom entry keeps `convertPatterns([s])[0]` even when it
      is `undefined`, because the filter only removes `null`. */
  function CustomFromAsWritten(e: Engine, items: seq<StoredCustom>): (cs: seq<CustomPattern>)
    ensures |cs| == |items|
    ensures forall i :: 0 <= i < |items| ==> cs[i] == CustomPattern(Convert(e, items[i].pattern), items[i].weight)
  {
    seq(|items|, i requires 0 <= i < |items| => CustomPattern(Convert(e, items[i].pattern), items[i].weight))
  }

  /** An entry whose string does not convert survives as written and, since
      `text.match(undefined)` matches once, adds its weight to the score of
      every element; each such entry weighing at least 9 on its own makes
      every element of 100 characters or more slop at the default
      sensitivity. The corrected loader drops it. */
  lemma UndefinedCustomPatternCountsEverywhere(e: Engine, p: Profile, s: string, w: int, text: string)
    requires Convert(e, s).None?
    ensures CustomFromAsWritten(e, [StoredCustom(s, w)]) == [CustomPattern(None, w)]
    ensures CustomPoints(e, CustomFromAsWritten(e, [StoredCustom(s, w)]), text) == w
    ensures p.sensitivity == 3 && w >= 9 && |text| >= 100 ==>
              IsSlop(e, p.(custom := CustomFromAsWritten(e, [StoredCustom(s, w)])), text)
    ensures CustomFrom(e, [StoredCustom(s, w)]) == []
  {
    var cs := CustomFromAsWritten(e, [StoredCustom(s, w)]);
    assert cs[..0] == [];
  }

  /** A concrete case: a custom entry `"delve"` (no slashes) with weight 10. */
  lemma UndefinedCustomPatternExample(e: Engine, p: Profile, text: string)
    requires p.sensitivity == 3 && |text| >= 100
    ensures IsSlop(e, p.(custom := CustomFromAsWritten(e, [StoredCustom("delve", 10)])), text)
    ensures IsSlop(e, p.(custom := LoadedCustom(e, Some([StoredCustom("delve", 10)]))), text)
    ensures !IsSlop(e, p.(custom := []), text) ==>
              !IsSlop(e, p.(custom := LoadedCustomCorrected(e, Some([StoredCustom("delve", 10)]))), text)
  {
    assert ParseLiteral("delve").None?;
    UndefinedCustomPatternCountsEverywhere(e, p, "delve", 10, text);
  }

  // ---------------------------------------------------------------------
  // The built-in lists
  // ---------------------------------------------------------------------

  /** The six lists `initPatterns` installs. */
  datatype Lists = Lists(
    lowAggro: seq<Regex>, mediumAggro: seq<Regex>, highAggro: seq<Regex>,
    emoji: seq<Regex>, stopWords: seq<Regex>, emDashes: seq<Regex>)

  /** The content script's built-in lists as written, the three Tier 1
      openers without the `g` flag included. */
  const ContentLists: Lists :=
    Lists(Catalogue.LowAggro, Catalogue.MediumAggro, Catalogue.HighAggro,
          Catalogue.ContentEmoji, Catalogue.StopWordOpeners, Catalogue.EmDashPatterns)

  /** The profile right after construction: the given lists, every toggle
      unset and no custom patterns. */
  function BuiltInProfile(sensitivity: int, l: Lists): Profile {
    Profile(sensitivity, false, false, false, false, false, false,
            l.lowAggro, l.mediumAggro, l.highAggro, l.emoji, l.stopWords, l.emDashes, [])
  }

  /** The toggles `loadSettings` falls back to for missing keys: sensitivity
      3, tiers 1 and 2, stop words and em dashes on, tier 3 and emoji off;
      and no custom patterns. */
  predicate StoredDefaults(p: Profile) {
    p.sensitivity == 3 && p.blockTier1 && p.blockTier2 && !p.blockTier3 && !p.blockEmojis &&
    p.blockStopWords && p.blockEmDashes && p.custom == []
  }

  /** The score under the stored defaults. */
  lemma ScoreOfDefaults(e: Engine, p: Profile, text: string)
    requires StoredDefaults(p)
    ensures Score(e, p, text) ==
            3 * TotalCount(e, p.lowAggro, text) + 2 * TotalCount(e, p.mediumAggro, text) +
            3 * TotalCount(e, p.stopWords, text) + 3 * TotalCount(e, p.emDashes, text)
  {
  }

  /** A text on which, of the content script's Tier 1 list, only the
      "As ... continues to" opener occurs, once. */
  ghost predicate OnlyContinuesTo(e: Engine, text: string) {
    |e.find(Catalogue.ContinuesToOpener, text)| == 1 &&
    forall i :: 0 <= i < |Catalogue.LowAggro| && i != 61 ==> |e.find(Catalogue.LowAggro[i], text)| == 0
  }

  /** As written, that one opener (no `g` flag, two capturing groups)
      counts three matches. */
  lemma OpenerCountsAsWritten(e: Engine, text: string)
    requires e.captureGroups(Catalogue.ContinuesToOpener) == 2
    requires OnlyContinuesTo(e, text)
    ensures TotalCount(e, Catalogue.LowAggro, text) == 3
  {
    Catalogue.LowAggroShape();
    TotalCountSingle(e, Catalogue.LowAggro, text, 61);
  }

  /** With the `g` flag added to every pattern the same text counts one
      match, whatever the capturing groups. */
  lemma OpenerCountsCorrected(e: Engine, text: string)
    requires ScanIgnoresGlobalFlag(e)
    requires OnlyContinuesTo(e, text)
    ensures TotalCount(e, AddGlobalFlags(Catalogue.LowAggro), text) == 1
  {
    Catalogue.LowAggroShape();
    var low := Catalogue.LowAggro;
    var fixed := AddGlobalFlags(low);
    forall i | 0 <= i < |fixed| && i != 61
      ensures |e.find(fixed[i], text)| == 0
    {
      assert e.find(WithGlobalFlag(low[i]), text) == e.find(low[i], text);
    }
    assert e.find(WithGlobalFlag(low[61]), text) == e.find(low[61], text);
    TotalCountSingle(e, fixed, text, 61);
  }

  /** With the lists as written, one line opening "As ... continues to" in
      an otherwise clean text of 100 characters or more is enough to hide
      the element under the stored defaults (9 points against a threshold
      of 9); with the `g` flag added it scores 3 and stays. */
  lemma NonGlobalOpenerOvercounts(e: Engine, p: Profile, text: string)
    requires ScanIgnoresGlobalFlag(e)
    requires |text| >= 100
    requires e.captureGroups(Catalogue.ContinuesToOpener) == 2
    requires OnlyContinuesTo(e, text)
    requires StoredDefaults(p)
    requires TotalCount(e, p.mediumAggro, text) == 0
    requires TotalCount(e, p.stopWords, text) == 0 && TotalCount(e, p.emDashes, text) == 0
    ensures IsSlop(e, p.(lowAggro := Catalogue.LowAggro), text)
    ensures !IsSlop(e, p.(lowAggro := AddGlobalFlags(Catalogue.LowAggro)), text)
  {
    OpenerCountsAsWritten(e, text);
    OpenerCountsCorrected(e, text);
    ScoreOfDefaults(e, p.(lowAggro := Catalogue.LowAggro), text);
    ScoreOfDefaults(e, p.(lowAggro := AddGlobalFlags(Catalogue.LowAggro)), text);
  }

  /** Both em-dash patterns are counted: two em dashes 10 to 100 characters
      apart score 3 for the span and 3 for each dash, 9 in all, which hides
      an element at the default sensitivity. */
  lemma EmDashPairScores(e: Engine, p: Profile, text: string)
    requires p.blockEmDashes && p.emDashes == Catalogue.EmDashPatterns
    requires |e.find(Catalogue.EmDashSpan, text)| == 1 && |e.find(Catalogue.LoneEmDash, text)| == 2
    ensures Gated(p.blockEmDashes, 3, e, p.emDashes, text) == 9
    ensures p.sensitivity == 3 && |text| >= 100 && Score(e, p.(blockEmDashes := false), text) >= 0 ==>
              IsSlop(e, p, text)
  {
    var ps := Catalogue.EmDashPatterns;
    assert IsGlobal(Catalogue.EmDashSpan) && IsGlobal(Catalogue.LoneEmDash);
    assert ps[..1] == [Catalogue.EmDashSpan] && ps[..1][..0] == [];
    assert TotalCount(e, ps[..1], text) == 1;
    assert TotalCount(e, ps, text) == TotalCount(e, ps[..1], text) + MatchCount(e, ps[1], text);
    EmDashGate(e, p, text);
  }

  // ---------------------------------------------------------------------
  // The whitelist
  // ---------------------------------------------------------------------

  /** The parts of `window.location` the whitelist looks at. */
  datatype Location = Location(href: string, hostname: string, pathname: string, search: string)

  /** `hostname.toLowerCase().replace(/^www\./, '')`. */
  function Host(loc: Location): string {
    var h := Lower(loc.hostname);
    if StartsWith(h, "www.") then h[4..] else h
  }

  /** A leading `www.`, in any letter case, is dropped before the host is
      compared, and only one is dropped. */
  lemma HostStripsWww(loc: Location, rest: string)
    requires Lower(loc.hostname) == "www." + Lower(rest)
    ensures Host(loc) == Lower(rest)
  {
    var h := Lower(loc.hostname);
    assert h[..4] == "www.";
    assert h[4..] == Lower(rest);
  }

  /** The host is the domain or one of its subdomains. */
  predicate OnDomain(host: string, domain: string) {
    host == domain || EndsWith(host, "." + domain)
  }

  /** `entry.split('/', 2)` for an entry holding a slash: the part before the
      first slash and the part between it and the next slash. */
  function SplitDomainPath(entry: string): (string, string) {
    match IndexOf(entry, '/')
      case None => (entry, "")
      case Some(k) =>
        var rest := entry[k + 1..];
        match IndexOf(rest, '/')
          case None => (entry[..k], rest)
          case Some(j) => (entry[..k], rest[..j])
  }

  /** Whether one whitelist entry covers the location. */
  predicate EntryCovers(entry: string, loc: Location) {
    var item := Lower(entry);
    var host := Host(loc);
    Contains(Lower(loc.href), item) ||
    OnDomain(host, item) ||
    ('/' in item &&
     var (domain, path) := SplitDomainPath(item);
     OnDomain(host, domain) && StartsWith(loc.pathname + loc.search, "/" + path))
  }

  /** `isWhitelisted`: some entry covers the location. */
  predicate Whitelisted(whitelist: seq<string>, loc: Location) {
    exists i :: 0 <= i < |whitelist| && EntryCovers(whitelist[i], loc)
  }

  /** No site is exempt under an empty whitelist, and an empty entry exempts
      every site, since every URL contains the empty string. */
  lemma WhitelistEdges(whitelist: seq<string>, loc: Location)
    ensures !Whitelisted([], loc)
    ensures "" in whitelist ==> Whitelisted(whitelist, loc)
  {
    if "" in whitelist {
      var i :| 0 <= i < |whitelist| && whitelist[i] == "";
      assert StartsWith(Lower(loc.href), "");
      assert EntryCovers(whitelist[i], loc);
    }
  }

  /** An entry covers its domain and every subdomain of it, with or without
      a leading `www.`, in any letter case. */
  lemma DomainEntryCovers(entry: string, loc: Location, sub: string)
    requires Host(loc) == Lower(entry) || Host(loc) == sub + "." + Lower(entry)
    ensures Whitelisted([entry], loc)
  {
    var item := Lower(entry);
    if Host(loc) != item {
      assert Host(loc)[|Host(loc)| - |"." + item|..] == "." + item;
    }
    assert EntryCovers([entry][0], loc);
  }

  /** Splitting `d/s/m` gives `d` and `s` when neither holds a slash. */
  lemma SplitPathEntry(d: string, s: string, m: string)
    requires '/' !in d && '/' !in s
    ensures SplitDomainPath(d + ['/'] + s + ['/'] + m) == (d, s)
  {
    var item := d + ['/'] + s + ['/'] + m;
    assert item == d + ['/'] + (s + ['/'] + m);
    IndexOfAfter(d, '/', s + ['/'] + m);
    assert item[|d| + 1..] == s + ['/'] + m;
    IndexOfAfter(s, '/', m);
    assert item[..|d|] == d && (s + ['/'] + m)[..|s|] == s;
  }

  /** Lower-casing `domain/seg/more` lower-cases each part and keeps the
      slashes. */
  lemma LowerPathEntry(domain: string, seg: string, more: string)
    ensures Lower(domain + "/" + seg + "/" + more) == Lower(domain) + ['/'] + Lower(seg) + ['/'] + Lower(more)
  {
    LowerAppend(domain + "/" + seg, "/" + more);
    LowerAppend(domain + "/", seg);
    LowerAppend(domain, "/");
    LowerAppend("/", more);
    assert Lower("/") == "/";
  }

  /** A domain-and-path entry matches on its first path segment only, as a
      prefix of the page's path and query: the entry `d/blog/2024` exempts
      `/blog`, `/blogroll` and `/blog/2023` on `d`. */
  lemma PathEntryUsesFirstSegment(domain: string, seg: string, more: string, loc: Location)
    requires '/' !in domain && '/' !in seg
    requires Host(loc) == Lower(domain)
    requires StartsWith(loc.pathname + loc.search, "/" + Lower(seg))
    ensures Whitelisted([domain + "/" + seg + "/" + more], loc)
  {
    var entry := domain + "/" + seg + "/" + more;
    var item := Lower(entry);
    LowerPathEntry(domain, seg, more);
    assert '/' !in Lower(domain) && '/' !in Lower(seg);
    SplitPathEntry(Lower(domain), Lower(seg), Lower(more));
    assert item[|domain|] == '/';
    assert EntryCovers([entry][0], loc);
  }

  // ---------------------------------------------------------------------
  // The detector object
  // ---------------------------------------------------------------------

  /** The settings `loadSettings` reads, with the storage defaults filled in
      for missing keys; `whitelist` is `None` when stored as `null`. */
  datatype StoredSettings = StoredSettings(
    enabled: bool, sensitivity: int, customPatterns: Option<StoredPatterns>,
    blockEmojis: bool, blockTier1: bool, blockTier2: bool, blockTier3: bool,
    blockStopWords: bool, blockEmDashes: bool, whitelist: Option<seq<string>>)

  /** The profile after a successful `loadSettings`: the sensitivity and
      every toggle come from the stored settings, and the stored pattern
      overrides, when present, replace the tier and custom lists. The
      emoji, stop-word and em-dash lists are never replaced. */
  function ApplyStored(e: Engine, p: Profile, st: StoredSettings): (q: Profile)
    ensures q.sensitivity == st.sensitivity && q.blockEmojis == st.blockEmojis
    ensures q.blockTier1 == st.blockTier1 && q.blockTier2 == st.blockTier2 && q.blockTier3 == st.blockTier3
    ensures q.blockStopWords == st.blockStopWords && q.blockEmDashes == st.blockEmDashes
    ensures q.emoji == p.emoji && q.stopWords == p.stopWords && q.emDashes == p.emDashes
    ensures st.customPatterns.None? ==>
              q.lowAggro == p.lowAggro && q.mediumAggro == p.mediumAggro &&
              q.highAggro == p.highAggro && q.custom == p.custom
    ensures st.customPatterns.Some? ==>
              var cp := st.customPatterns.value;
              q.lowAggro == (if cp.tier1.Some? then ConvertAll(e, cp.tier1.value) else p.lowAggro) &&
              q.mediumAggro == (if cp.tier2.Some? then ConvertAll(e, cp.tier2.value) else p.mediumAggro) &&
              q.highAggro == (if cp.tier3.Some? then ConvertAll(e, cp.tier3.value) else p.highAggro) &&
              q.custom == LoadedCustom(e, cp.custom)
  {
    var toggled := p.(sensitivity := st.sensitivity, blockEmojis := st.blockEmojis,
                      blockTier1 := st.blockTier1, blockTier2 := st.blockTier2, blockTier3 := st.blockTier3,
                      blockStopWords := st.blockStopWords, blockEmDashes := st.blockEmDashes);
    if st.customPatterns.Some? then WithOverrides(e, toggled, st.customPatterns.value) else toggled
  }

  /** The detector. The fields the score depends on (the sensitivity, the
      category toggles and the pattern lists, which the source keeps as
      separate fields of the same names) are held together in `profile`. */
  class SlopDetector {
    var profile: Profile
    var enabled: bool
    var whitelist: seq<string>
    var slopCount: nat
    /** The elements marked `data-deslop-removed`. */
    var removed: set<nat>

    /** Every marked element was counted once. */
    ghost predicate Valid()
      reads this
    {
      slopCount == |removed|
    }

    /** The constructor followed by `initPatterns`, which installs the
        built-in lists `builtIn` (on the page, `ContentLists`): sensitivity
        3, no custom patterns, an empty whitelist, nothing hidden, and the
        toggles still unset. */
    constructor(builtIn: Lists)
      ensures Valid() && slopCount == 0 && removed == {}
      ensures profile == BuiltInProfile(3, builtIn)
      ensures !enabled && whitelist == []
    {
      enabled := false;
      whitelist := [];
      slopCount := 0;
      removed := {};
      profile := Profile(3, false, false, false, false, false, false,
                         builtIn.lowAggro, builtIn.mediumAggro, builtIn.highAggro,
                         builtIn.emoji, builtIn.stopWords, builtIn.emDashes, []);
    }

    /** `loadSettings`: `stored` is `None` when reading the storage fails,
        and then only the sensitivity, `enabled` and the emoji toggle are
        reset; otherwise the profile becomes `ApplyStored` of the old one,
        `enabled` and the whitelist are taken from the stored settings, and a
        `null` whitelist becomes empty. */
    method LoadSettings(e: Engine, stored: Option<StoredSettings>)
      modifies this
      ensures stored.None? ==>
                profile == old(profile).(sensitivity := 3, blockEmojis := false) &&
                enabled && whitelist == old(whitelist)
      ensures stored.Some? ==>
                profile == ApplyStored(e, old(profile), stored.value) &&
                enabled == stored.value.enabled &&
                whitelist == (if stored.value.whitelist.Some? then stored.value.whitelist.value else [])
      ensures slopCount == old(slopCount) && removed == old(removed)
    {
      match stored {
        case None =>
          profile := profile.(sensitivity := 3, blockEmojis := false);
          enabled := true;
        case Some(st) =>
          profile := profile.(sensitivity := st.sensitivity, blockEmojis := st.blockEmojis,
                              blockTier1 := st.blockTier1, blockTier2 := st.blockTier2,
                              blockTier3 := st.blockTier3, blockStopWords := st.blockStopWords,
                              blockEmDashes := st.blockEmDashes);
          enabled := st.enabled;
          whitelist := if st.whitelist.Some? then st.whitelist.value else [];
          if st.customPatterns.Some? {
            LoadCustomPatterns(e, st.customPatterns.value);
          }
      }
    }

    /** `loadCustomPatterns`: each tier list the overrides name is replaced
        by its converted strings, the custom list is rebuilt, and nothing
        else changes. */
    method LoadCustomPatterns(e: Engine, cp: StoredPatterns)
      modifies this
      ensures profile == WithOverrides(e, old(profile), cp)
      ensures enabled == old(enabled) && whitelist == old(whitelist)
      ensures slopCount == old(slopCount) && removed == old(removed)
    {
      var low, medium, high := profile.lowAggro, profile.mediumAggro, profile.highAggro;
      if cp.tier1.Some? {
        low := ConvertAll(e, cp.tier1.value);
      }
      if cp.tier2.Some? {
        medium := ConvertAll(e, cp.tier2.value);
      }
      if cp.tier3.Some? {
        high := ConvertAll(e, cp.tier3.value);
      }
      var custom := [];
      if cp.custom.Some? && |cp.custom.value| > 0 {
        custom := CustomFromAsWritten(e, cp.custom.value);
      }
      profile := profile.(lowAggro := low, mediumAggro := medium, highAggro := high, custom := custom);
    }

    /** `isSlopElement` for an element whose text content is `text`. */
    method IsSlopElement(e: Engine, text: string) returns (blocked: bool)
      ensures blocked == IsSlop(e, profile, text)
    {
      if |text| < 100 {
        return false;
      }
      var score := SlopScore(e, profile, text);
      blocked := score >= Threshold(profile.sensitivity);
    }

    /** `isWhitelisted` for the current location. */
    predicate IsWhitelisted(loc: Location)
      reads this
    {
      Whitelisted(whitelist, loc)
    }

    /** The counting part of `removeElement` for the resolved target: the
        count rises only when the target was not yet marked. */
    method RemoveElement(target: nat)
      requires Valid()
      modifies this
      ensures Valid()
      ensures removed == old(removed) + {target}
      ensures slopCount == if target in old(removed) then old(slopCount) else old(slopCount) + 1
      ensures profile == old(profile) && whitelist == old(whitelist) && enabled == old(enabled)
    {
      if target !in removed {
        removed := removed + {target};
        slopCount := slopCount + 1;
      }
    }
  }

  /** Removing the same element twice counts it once. */
  method RemoveTwiceCountsOnce(d: SlopDetector, target: nat)
    requires d.Valid() && target !in d.removed
    modifies d
    ensures d.Valid() && d.slopCount == old(d.slopCount) + 1
  {
    d.RemoveElement(target);
    d.RemoveElement(target);
  }

}
