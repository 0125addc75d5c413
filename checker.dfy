/** The interactive checker page (src/checker.js). The older copy
    (checker.js) runs the same code over different pattern lists, so both are
    this one module applied to two `TierLists` values. */
module Checker {

  import opened Wrappers
  import opened Strings
  import opened Patterns
  import Catalogue
  import Detector

  // ---------------------------------------------------------------------
  // Tiers, lists and settings
  // ---------------------------------------------------------------------

  datatype Tier = Tier1 | Tier2 | Tier3 | Emoji

  /** The tier's name as the page writes it. */
  function TierName(t: Tier): string {
    match t
      case Tier1 => "tier1"
      case Tier2 => "tier2"
      case Tier3 => "tier3"
      case Emoji => "emoji"
  }

  /** The four lists of `PATTERNS`. */
  datatype TierLists = TierLists(tier1: seq<Regex>, tier2: seq<Regex>, tier3: seq<Regex>, emoji: seq<Regex>)

  /** The lists of src/checker.js, as written. */
  const PageLists: TierLists :=
    TierLists(Catalogue.CheckerTier1, Catalogue.CheckerTier2, Catalogue.CheckerTier3, Catalogue.CheckerEmoji)

  /** The lists of the older checker.js, where Tier 1 also holds the
      stop-word openers and both em-dash patterns. */
  const LegacyPageLists: TierLists :=
    TierLists(Catalogue.LegacyTier1, Catalogue.LegacyTier2, Catalogue.LegacyTier3, Catalogue.LegacyEmoji)

  /** The page's `settings` object as far as scoring goes. */
  datatype Settings = Settings(sensitivity: int, blockEmojis: bool)

  function ListOf(l: TierLists, t: Tier): seq<Regex> {
    match t
      case Tier1 => l.tier1
      case Tier2 => l.tier2
      case Tier3 => l.tier3
      case Emoji => l.emoji
  }

  /** Points per match. */
  function Weight(t: Tier): nat {
    match t
      case Tier1 => 3
      case Tier2 => 2
      case Tier3 => 1
      case Emoji => 5
  }

  /** Whether the page scores (and highlights) a tier: Tier 1 always, Tier 2
      from sensitivity 3, Tier 3 from sensitivity 4, emoji when enabled. */
  predicate Active(s: Settings, t: Tier) {
    match t
      case Tier1 => true
      case Tier2 => s.sensitivity >= 3
      case Tier3 => s.sensitivity >= 4
      case Emoji => s.blockEmojis
  }

  /** Every list is global. */
  predicate ListsGlobal(l: TierLists) {
    AllGlobal(l.tier1) && AllGlobal(l.tier2) && AllGlobal(l.tier3) && AllGlobal(l.emoji)
  }

  /** The lists with the `g` flag added wherever it is missing. */
  function Corrected(l: TierLists): (c: TierLists)
    ensures ListsGlobal(c)
  {
    TierLists(AddGlobalFlags(l.tier1), AddGlobalFlags(l.tier2), AddGlobalFlags(l.tier3), AddGlobalFlags(l.emoji))
  }

  /** Correcting lists that are already global changes nothing. */
  lemma CorrectedIdentity(l: TierLists)
    requires ListsGlobal(l)
    ensures Corrected(l) == l
  {
    AddGlobalFlagsGlobal(l.tier1);
    AddGlobalFlagsGlobal(l.tier2);
    AddGlobalFlagsGlobal(l.tier3);
    AddGlobalFlagsGlobal(l.emoji);
  }

  // ---------------------------------------------------------------------
  // scoreText
  // ---------------------------------------------------------------------

  /** A breakdown entry: the pattern's source, its count and its points. */
  datatype Entry = Entry(pattern: string, count: nat, points: nat)

  datatype Breakdown = Breakdown(tier1: seq<Entry>, tier2: seq<Entry>, tier3: seq<Entry>, emoji: seq<Entry>)

  datatype ScoreResult = ScoreResult(score: int, matches: Breakdown)

  /** The entries one tier's loop records: one per pattern that matches at
      all, in list order. */
  function Entries(e: Engine, ps: seq<Regex>, text: string, w: nat): seq<Entry>
    decreases |ps|
  {
    if |ps| == 0 then []
    else
      var p := ps[|ps| - 1];
      var c := MatchCount(e, p, text);
      Entries(e, ps[..|ps| - 1], text, w) + Recorded(p, c, w)
  }

  /** The entry a pattern with `c` matches records: none when it does not
      match, otherwise its source, its count and `c * w` points. */
  function Recorded(p: Regex, c: nat, w: nat): seq<Entry> {
    if c > 0 then [Entry(p.source, c, c * w)] else []
  }

  /** The sum `showBreakdown` forms with `reduce`. */
  function Points(es: seq<Entry>): int
    decreases |es|
  {
    if |es| == 0 then 0 else Points(es[..|es| - 1]) + es[|es| - 1].points
  }

  lemma PointsAppend(a: seq<Entry>, b: seq<Entry>)
    ensures Points(a + b) == Points(a) + Points(b)
    decreases |b|
  {
    if |b| > 0 {
      assert (a + b)[..|a + b| - 1] == a + b[..|b| - 1];
      PointsAppend(a, b[..|b| - 1]);
    } else {
      assert a + b == a;
    }
  }

  /** `w * (a + b)` distributes; kept apart so that no other proof has to
      reason about a product of two variables. */
  lemma Distribute(w: nat, t: int, a: int, b: int)
    requires t == a + b
    ensures w * t == w * a + w * b
  {
  }

  /** The entries' points add up to `w` times the tier's total count. */
  lemma {:induction false} EntriesPoints(e: Engine, ps: seq<Regex>, text: string, w: nat)
    ensures Points(Entries(e, ps, text, w)) == w * TotalCount(e, ps, text)
    decreases |ps|
  {
    if |ps| > 0 {
      var init := ps[..|ps| - 1];
      EntriesPoints(e, init, text, w);
      EntriesPointsStep(e, ps, text, w);
    }
  }

  /** A recorded entry is worth `w` points per match. */
  lemma RecordedPoints(p: Regex, c: nat, w: nat)
    ensures Points(Recorded(p, c, w)) == w * c
  {
    if c > 0 {
      assert Recorded(p, c, w)[..0] == [];
    }
  }

  /** One pattern more: its entry, if any, adds `w` times its count. */
  lemma EntriesPointsStep(e: Engine, ps: seq<Regex>, text: string, w: nat)
    requires |ps| > 0
    requires Points(Entries(e, ps[..|ps| - 1], text, w)) == w * TotalCount(e, ps[..|ps| - 1], text)
    ensures Points(Entries(e, ps, text, w)) == w * TotalCount(e, ps, text)
  {
    var init := ps[..|ps| - 1];
    var p := ps[|ps| - 1];
    var c := MatchCount(e, p, text);
    PointsAppend(Entries(e, init, text, w), Recorded(p, c, w));
    RecordedPoints(p, c, w);
    Distribute(w, TotalCount(e, ps, text), TotalCount(e, init, text), c);
  }

  /** Every entry has a positive count and `points == count * w`, and there
      is at most one entry per pattern. */
  lemma {:induction false} EntriesWellFormed(e: Engine, ps: seq<Regex>, text: string, w: nat)
    ensures forall x :: x in Entries(e, ps, text, w) ==> x.count > 0 && x.points == x.count * w
    ensures |Entries(e, ps, text, w)| <= |ps|
    decreases |ps|
  {
    if |ps| > 0 {
      EntriesWellFormed(e, ps[..|ps| - 1], text, w);
    }
  }

  /** A tier records no entry exactly when none of its patterns matches. */
  lemma {:induction false} EntriesEmpty(e: Engine, ps: seq<Regex>, text: string, w: nat)
    ensures Entries(e, ps, text, w) == [] <==> TotalCount(e, ps, text) == 0
    decreases |ps|
  {
    if |ps| > 0 {
      EntriesEmpty(e, ps[..|ps| - 1], text, w);
    }
  }

  /** The score the page computes. */
  function PageScore(e: Engine, l: TierLists, s: Settings, text: string): nat {
    (if Active(s, Tier1) then 3 * TotalCount(e, l.tier1, text) else 0) +
    (if Active(s, Tier2) then 2 * TotalCount(e, l.tier2, text) else 0) +
    (if Active(s, Tier3) then TotalCount(e, l.tier3, text) else 0) +
    (if Active(s, Emoji) then 5 * TotalCount(e, l.emoji, text) else 0)
  }

  /** One tier's loop of `scoreText`: records an entry for every pattern that
      matches and adds its points to `score`. */
  method ScanTier(e: Engine, ps: seq<Regex>, text: string, w: nat, score: int)
    returns (entries: seq<Entry>, total: int)
    ensures entries == Entries(e, ps, text, w)
    ensures total == score + w * TotalCount(e, ps, text)
  {
    entries := [];
    total := score;
    var i := 0;
    while i < |ps|
      invariant 0 <= i <= |ps|
      invariant entries == Entries(e, ps[..i], text, w)
      invariant total == score + w * TotalCount(e, ps[..i], text)
    {
      assert ps[..i + 1][..i] == ps[..i];
      var found := MatchCount(e, ps[i], text);
      Distribute(w, TotalCount(e, ps[..i + 1], text), TotalCount(e, ps[..i], text), found);
      if found > 0 {
        entries := entries + [Entry(ps[i].source, found, found * w)];
        total := total + found * w;
      }
      i := i + 1;
    }
    assert ps[..i] == ps;
  }

  /** One tier of `scoreText` behind its gate: an inactive tier records
      nothing and adds nothing; either way the recorded points are exactly
      what the tier added. */
  method ScanGated(e: Engine, ps: seq<Regex>, text: string, w: nat, on: bool, score: int)
    returns (entries: seq<Entry>, total: int)
    ensures entries == (if on then Entries(e, ps, text, w) else [])
    ensures total == score + (if on then w * TotalCount(e, ps, text) else 0)
    ensures Points(entries) == total - score
  {
    if on {
      entries, total := ScanTier(e, ps, text, w, score);
      EntriesPoints(e, ps, text, w);
    } else {
      entries, total := [], score;
    }
  }

  /** `scoreText`: the score is the gated weighted count, each active tier
      records its entries and an inactive one records none, and the score
      is exactly the sum of all recorded points. */
  method ScoreText(e: Engine, l: TierLists, s: Settings, text: string) returns (r: ScoreResult)
    ensures r.score == PageScore(e, l, s, text)
    ensures r.matches.tier1 == Entries(e, l.tier1, text, 3)
    ensures r.matches.tier2 == (if s.sensitivity >= 3 then Entries(e, l.tier2, text, 2) else [])
    ensures r.matches.tier3 == (if s.sensitivity >= 4 then Entries(e, l.tier3, text, 1) else [])
    ensures r.matches.emoji == (if s.blockEmojis then Entries(e, l.emoji, text, 5) else [])
    ensures r.score == Points(r.matches.tier1) + Points(r.matches.tier2) +
                       Points(r.matches.tier3) + Points(r.matches.emoji)
  {
    var t1, t2, t3, em;
    var s1, s2, s3, s4;
    t1, s1 := ScanGated(e, l.tier1, text, 3, true, 0);
    t2, s2 := ScanGated(e, l.tier2, text, 2, s.sensitivity >= 3, s1);
    t3, s3 := ScanGated(e, l.tier3, text, 1, s.sensitivity >= 4, s2);
    em, s4 := ScanGated(e, l.emoji, text, 5, s.blockEmojis, s3);
    r := ScoreResult(s4, Breakdown(t1, t2, t3, em));
  }

  /** The page and the content script add up the same sum: with the content
      script's three tier toggles and its emoji toggle set as the page's,
      stop words, em dashes and custom patterns off, and a sensitivity of at
      least 1, both give the same score over the same lists. Below 1 the page
      still scores Tier 1 and the content script does not. */
  lemma PageScoreAgreesWithDetector(e: Engine, l: TierLists, s: Settings, p: Detector.Profile, text: string)
    requires p.sensitivity == s.sensitivity && p.blockEmojis == s.blockEmojis
    requires p.blockTier1 && p.blockTier2 && p.blockTier3
    requires !p.blockStopWords && !p.blockEmDashes && p.custom == []
    requires p.lowAggro == l.tier1 && p.mediumAggro == l.tier2 && p.highAggro == l.tier3 && p.emoji == l.emoji
    ensures s.sensitivity >= 1 ==> PageScore(e, l, s, text) == Detector.Score(e, p, text)
    ensures s.sensitivity < 1 ==>
              PageScore(e, l, s, text) == Detector.Score(e, p, text) + 3 * TotalCount(e, l.tier1, text)
  {
  }

  // ---------------------------------------------------------------------
  // displayResults and updateThresholds
  // ---------------------------------------------------------------------

  /** `THRESHOLDS[s]`: defined for the sensitivities 1 to 5 only. */
  function Thresholds(s: int): Option<nat> {
    if s == 1 then Some(15)
    else if s == 2 then Some(12)
    else if s == 3 then Some(9)
    else if s == 4 then Some(6)
    else if s == 5 then Some(4)
    else None
  }

  /** The page's table is the content script's on 1 to 5 and undefined
      elsewhere, where the content script falls back to 9. */
  lemma ThresholdsAgreeWithDetector(s: int)
    ensures 1 <= s <= 5 ==> Thresholds(s) == Some(Detector.Threshold(s))
    ensures Thresholds(s).None? <==> !(1 <= s <= 5)
  {
  }

  datatype Status = Clean | Borderline | SlopDetected

  /** The status `displayResults` shows. `score < undefined` is false, so
      without a threshold every positive score reads as slop. */
  function Classify(score: int, s: int): Status {
    if score == 0 then Clean
    else match Thresholds(s)
      case Some(t) => if score < t then Borderline else SlopDetected
      case None => SlopDetected
  }

  /** The page reports slop exactly when the content script's threshold is
      reached (it has no 100-character minimum); with a sensitivity outside
      1 to 5 it reports slop for any positive score, whereas the content
      script then needs 9 points. */
  lemma ClassifyAgreesWithDetector(score: int, s: int)
    requires score > 0
    ensures 1 <= s <= 5 ==> (Classify(score, s) == SlopDetected <==> score >= Detector.Threshold(s))
    ensures 1 <= s <= 5 ==> (Classify(score, s) == Borderline <==> score < Detector.Threshold(s))
    ensures !(1 <= s <= 5) ==> Classify(score, s) == SlopDetected
  {
  }

  /** `updateThresholds`: for each sensitivity 1 to 5, whether this score
      would be blocked there. A score blocked at one sensitivity is blocked
      at every higher one. */
  method UpdateThresholds(score: int) returns (blocked: seq<bool>)
    ensures |blocked| == 5
    ensures forall i :: 1 <= i <= 5 ==> (blocked[i - 1] <==> score >= Detector.Threshold(i))
    ensures forall i, j :: 0 <= i <= j < 5 && blocked[i] ==> blocked[j]
  {
    blocked := [];
    var i := 1;
    while i <= 5
      invariant 1 <= i <= 6 && |blocked| == i - 1
      invariant forall k :: 1 <= k < i ==> Thresholds(k).Some? && (blocked[k - 1] <==> score >= Thresholds(k).value)
    {
      var threshold := Thresholds(i).value;
      blocked := blocked + [score >= threshold];
      i := i + 1;
    }
    forall k | 1 <= k <= 5
      ensures blocked[k - 1] <==> score >= Detector.Threshold(k)
    {
      ThresholdsAgreeWithDetector(k);
    }
    forall i, j | 0 <= i <= j < 5 && blocked[i]
      ensures blocked[j]
    {
      Detector.ThresholdOrder(i + 1, j + 1);
    }
  }

  /** The status line and the threshold row agree: at a sensitivity of 1 to
      5 a positive score reads as slop exactly when that sensitivity's
      entry of the row says blocked. */
  lemma StatusMatchesRow(score: int, s: int, blocked: seq<bool>)
    requires score > 0 && 1 <= s <= 5
    requires |blocked| == 5
    requires forall i :: 1 <= i <= 5 ==> (blocked[i - 1] <==> score >= Detector.Threshold(i))
    ensures Classify(score, s) == SlopDetected <==> blocked[s - 1]
  {
    ClassifyAgreesWithDetector(score, s);
  }

  // ---------------------------------------------------------------------
  // collectAllMatches
  // ---------------------------------------------------------------------

  /** A highlighted match: its text, where it starts and ends, and its tier. */
  datatype Match = Match(text: string, start: nat, end: nat, tier: Tier)

  /** The match lies in the text and its `text` is that stretch. */
  predicate Placed(m: Match, text: string) {
    m.start < m.end <= |text| && m.text == text[m.start..m.end]
  }

  /** Every list's scan of `text` is well formed. */
  predicate ScansWellFormed(e: Engine, ps: seq<Regex>, text: string) {
    forall i :: 0 <= i < |ps| ==> WellFormedSpans(e.find(ps[i], text), text)
  }

  /** The matches pushed for one scan. */
  function SpanMatches(spans: seq<Span>, text: string, t: Tier): seq<Match>
    requires WellFormedSpans(spans, text)
  {
    seq(|spans|, i requires 0 <= i < |spans| =>
      Match(text[spans[i].start..spans[i].end], spans[i].start, spans[i].end, t))
  }

  /** Each pushed match lies in the text, spans its scan's match and carries
      the tier. */
  lemma SpanMatchesPlaced(spans: seq<Span>, text: string, t: Tier)
    requires WellFormedSpans(spans, text)
    ensures |SpanMatches(spans, text, t)| == |spans|
    ensures forall m :: m in SpanMatches(spans, text, t) ==> Placed(m, text) && m.tier == t
  {
  }

  /** Pushing the next match of the scan. */
  lemma SpanMatchesSnoc(spans: seq<Span>, text: string, t: Tier, k: nat)
    requires WellFormedSpans(spans, text) && k < |spans|
    ensures WellFormedSpans(spans[..k], text) && WellFormedSpans(spans[..k + 1], text)
    ensures SpanMatches(spans[..k + 1], text, t) ==
            SpanMatches(spans[..k], text, t) + [Match(text[spans[k].start..spans[k].end], spans[k].start, spans[k].end, t)]
  {
  }

  /** The matches `addMatches(t, ps)` pushes, pattern by pattern. */
  function TierMatches(e: Engine, ps: seq<Regex>, text: string, t: Tier): seq<Match>
    requires ScansWellFormed(e, ps, text)
    decreases |ps|
  {
    if |ps| == 0 then []
    else TierMatches(e, ps[..|ps| - 1], text, t) + SpanMatches(e.find(ps[|ps| - 1], text), text, t)
  }

  /** Everything `collectAllMatches` gathers before sorting. */
  function Gathered(e: Engine, l: TierLists, s: Settings, text: string): seq<Match>
    requires Sound(e)
  {
    TierMatches(e, l.tier1, text, Tier1) +
    (if s.sensitivity >= 3 then TierMatches(e, l.tier2, text, Tier2) else []) +
    (if s.sensitivity >= 4 then TierMatches(e, l.tier3, text, Tier3) else []) +
    (if s.blockEmojis then TierMatches(e, l.emoji, text, Emoji) else [])
  }

  /** The loop `while ((match = regex.exec(text)) !== null)` over a fresh
      global regex: it pushes every match of the scan, in order, and stops. */
  method ExecAll(e: Engine, p: Regex, text: string, t: Tier, acc: seq<Match>) returns (out: seq<Match>)
    requires IsGlobal(p) && WellFormedSpans(e.find(p, text), text)
    ensures out == acc + SpanMatches(e.find(p, text), text, t)
  {
    ghost var spans := e.find(p, text);
    out := acc;
    var lastIndex: nat := 0;
    ghost var k := 0;
    while true
      invariant lastIndex <= |text| && k <= |spans|
      invariant forall i :: 0 <= i < k ==> spans[i].start < lastIndex
      invariant k < |spans| ==> spans[k].start >= lastIndex
      invariant WellFormedSpans(spans[..k], text)
      invariant out == acc + SpanMatches(spans[..k], text, t)
      decreases |text| - lastIndex
    {
      ExecNext(e, p, text, lastIndex, k);
      var m := Exec(e, p, text, lastIndex);
      if m.None? {
        break;
      }
      var sp := m.value;
      SpanMatchesSnoc(spans, text, t, k);
      out := out + [Match(text[sp.start..sp.end], sp.start, sp.end, t)];
      lastIndex := sp.end;
      k := k + 1;
    }
    assert spans[..k] == spans;
  }

  /** `addMatches(t, ps)`. */
  method AddMatches(e: Engine, ps: seq<Regex>, text: string, t: Tier, acc: seq<Match>) returns (out: seq<Match>)
    requires AllGlobal(ps) && ScansWellFormed(e, ps, text)
    ensures out == acc + TierMatches(e, ps, text, t)
  {
    out := acc;
    var i := 0;
    while i < |ps|
      invariant 0 <= i <= |ps|
      invariant out == acc + TierMatches(e, ps[..i], text, t)
    {
      assert ps[..i + 1][..i] == ps[..i];
      out := ExecAll(e, ps[i], text, t, out);
      i := i + 1;
    }
    assert ps[..i] == ps;
  }

  /** A sound engine scans every list well. */
  lemma SoundScans(e: Engine, ps: seq<Regex>, text: string)
    requires Sound(e)
    ensures ScansWellFormed(e, ps, text)
  {
  }

  predicate SortedByStart(ms: seq<Match>) {
    forall i, j :: 0 <= i < j < |ms| ==> ms[i].start <= ms[j].start
  }

  /** Inserts `m` after every element that does not start later than it. */
  function InsertByStart(m: Match, ss: seq<Match>): seq<Match>
    decreases |ss|
  {
    if |ss| == 0 || ss[|ss| - 1].start <= m.start then ss + [m]
    else InsertByStart(m, ss[..|ss| - 1]) + [ss[|ss| - 1]]
  }

  /** `allMatches.sort((a, b) => a.start - b.start)`, a stable sort: an
      insertion sort that keeps matches with equal starts in their order. */
  function SortByStart(ms: seq<Match>): seq<Match>
    decreases |ms|
  {
    if |ms| == 0 then [] else InsertByStart(ms[|ms| - 1], SortByStart(ms[..|ms| - 1]))
  }

  lemma {:induction false} InsertByStartPermutes(m: Match, ss: seq<Match>)
    ensures multiset(InsertByStart(m, ss)) == multiset(ss) + multiset{m}
    decreases |ss|
  {
    if |ss| > 0 && ss[|ss| - 1].start > m.start {
      var init := ss[..|ss| - 1];
      InsertByStartPermutes(m, init);
      assert ss == init + [ss[|ss| - 1]];
    }
  }

  /** Appending a match that starts no earlier than every other keeps the
      order. */
  lemma SortedSnoc(ss: seq<Match>, x: Match)
    requires SortedByStart(ss)
    requires forall i :: 0 <= i < |ss| ==> ss[i].start <= x.start
    ensures SortedByStart(ss + [x])
  {
    var r := ss + [x];
    forall i, j | 0 <= i < j < |r|
      ensures r[i].start <= r[j].start
    {
      if j < |ss| {
        assert r[i] == ss[i] && r[j] == ss[j];
      } else {
        assert r[i] == ss[i] && r[j] == x;
      }
    }
  }

  /** Inserting keeps every start within a common bound. */
  lemma {:induction false} InsertByStartBounded(m: Match, ss: seq<Match>, b: int)
    requires m.start <= b
    requires forall i :: 0 <= i < |ss| ==> ss[i].start <= b
    ensures forall i :: 0 <= i < |InsertByStart(m, ss)| ==> InsertByStart(m, ss)[i].start <= b
    decreases |ss|
  {
    if |ss| > 0 && ss[|ss| - 1].start > m.start {
      InsertByStartBounded(m, ss[..|ss| - 1], b);
    }
  }

  lemma {:induction false} InsertByStartSorted(m: Match, ss: seq<Match>)
    requires SortedByStart(ss)
    ensures SortedByStart(InsertByStart(m, ss))
    decreases |ss|
  {
    if |ss| == 0 || ss[|ss| - 1].start <= m.start {
      SortedSnoc(ss, m);
    } else {
      var init, last := ss[..|ss| - 1], ss[|ss| - 1];
      assert SortedByStart(init);
      InsertByStartSorted(m, init);
      InsertByStartBounded(m, init, last.start);
      SortedSnoc(InsertByStart(m, init), last);
    }
  }

  /** The sort orders the matches by start and keeps every one of them. */
  lemma {:induction false} SortByStartMeaning(ms: seq<Match>)
    ensures SortedByStart(SortByStart(ms))
    ensures multiset(SortByStart(ms)) == multiset(ms)
    decreases |ms|
  {
    if |ms| > 0 {
      var init := ms[..|ms| - 1];
      SortByStartMeaning(init);
      InsertByStartSorted(ms[|ms| - 1], SortByStart(init));
      InsertByStartPermutes(ms[|ms| - 1], SortByStart(init));
      assert ms == init + [ms[|ms| - 1]];
    }
  }

  /** The overlap sweep: a match is kept when it starts at or after the end
      of the last kept one (`lastEnd`, initially -1). */
  function Sweep(ms: seq<Match>, lastEnd: int): seq<Match>
    decreases |ms|
  {
    if |ms| == 0 then []
    else if ms[0].start >= lastEnd then [ms[0]] + Sweep(ms[1..], ms[0].end)
    else Sweep(ms[1..], lastEnd)
  }

  /** Kept matches do not overlap, and the first starts at or after
      `lastEnd`. A first match that starts there is kept, so from
      `lastEnd = -1` the earliest match always is. */
  lemma {:induction false} SweepDisjoint(ms: seq<Match>, lastEnd: int)
    ensures forall i :: 0 < i < |Sweep(ms, lastEnd)| ==> Sweep(ms, lastEnd)[i - 1].end <= Sweep(ms, lastEnd)[i].start
    ensures |Sweep(ms, lastEnd)| > 0 ==> Sweep(ms, lastEnd)[0].start >= lastEnd
    ensures |ms| > 0 && ms[0].start >= lastEnd ==> |Sweep(ms, lastEnd)| > 0 && Sweep(ms, lastEnd)[0] == ms[0]
    decreases |ms|
  {
    if |ms| > 0 {
      if ms[0].start >= lastEnd {
        SweepDisjoint(ms[1..], ms[0].end);
      } else {
        SweepDisjoint(ms[1..], lastEnd);
      }
    }
  }

  /** Every kept match is one of the input's. */
  lemma {:induction false} SweepKeepsOnlyInput(ms: seq<Match>, lastEnd: int)
    ensures multiset(Sweep(ms, lastEnd)) <= multiset(ms)
    decreases |ms|
  {
    if |ms| > 0 {
      assert ms == [ms[0]] + ms[1..];
      if ms[0].start >= lastEnd {
        SweepKeepsOnlyInput(ms[1..], ms[0].end);
      } else {
        SweepKeepsOnlyInput(ms[1..], lastEnd);
      }
    }
  }

  /** On sorted input a match is dropped only when it starts inside a kept
      match (or before `lastEnd`). */
  lemma {:induction false} SweepDropsOnlyOverlaps(ms: seq<Match>, lastEnd: int)
    requires SortedByStart(ms)
    ensures forall x :: x in ms ==>
              x in Sweep(ms, lastEnd) || x.start < lastEnd ||
              exists y :: y in Sweep(ms, lastEnd) && y.start <= x.start < y.end
    decreases |ms|
  {
    if |ms| > 0 {
      var m, rest := ms[0], ms[1..];
      assert SortedByStart(rest);
      if m.start >= lastEnd {
        SweepDropsOnlyOverlaps(rest, m.end);
        var f := Sweep(ms, lastEnd);
        assert f == [m] + Sweep(rest, m.end);
        forall x | x in ms
          ensures x in f || exists y :: y in f && y.start <= x.start < y.end
        {
          if x != m {
            assert x in rest;
            var j :| 0 <= j < |rest| && rest[j] == x;
            assert ms[j + 1] == x;
            assert m.start <= x.start;
            if x.start < m.end {
              assert m in f;
            }
          }
        }
      } else {
        SweepDropsOnlyOverlaps(rest, lastEnd);
      }
    }
  }

  /** Matches that are already disjoint and in order all survive: the
      sweep is idempotent. */
  lemma {:induction false} SweepKeepsDisjoint(ms: seq<Match>, lastEnd: int)
    requires forall i :: 0 < i < |ms| ==> ms[i - 1].end <= ms[i].start
    requires |ms| > 0 ==> ms[0].start >= lastEnd
    ensures Sweep(ms, lastEnd) == ms
    decreases |ms|
  {
    if |ms| > 0 {
      SweepKeepsDisjoint(ms[1..], ms[0].end);
    }
  }

  /** The sweep loop of `collectAllMatches`. */
  method RemoveOverlaps(ms: seq<Match>) returns (filtered: seq<Match>)
    ensures filtered == Sweep(ms, -1)
  {
    filtered := [];
    var lastEnd: int := -1;
    var i := 0;
    while i < |ms|
      invariant 0 <= i <= |ms|
      invariant filtered + Sweep(ms[i..], lastEnd) == Sweep(ms, -1)
    {
      assert ms[i..][1..] == ms[i + 1..];
      var m := ms[i];
      if m.start >= lastEnd {
        filtered := filtered + [m];
        lastEnd := m.end;
      }
      i := i + 1;
    }
  }

  /** One tier of `collectAllMatches` behind its gate. */
  method AddGated(e: Engine, ps: seq<Regex>, text: string, t: Tier, on: bool, acc: seq<Match>)
    returns (out: seq<Match>)
    requires AllGlobal(ps) && ScansWellFormed(e, ps, text)
    ensures out == acc + (if on then TierMatches(e, ps, text, t) else [])
  {
    if on {
      out := AddMatches(e, ps, text, t, acc);
    } else {
      out := acc;
    }
  }

  /** `collectAllMatches` over global lists: every match of every active
      tier, sorted by start, with overlapping ones removed. */
  method CollectAllMatches(e: Engine, l: TierLists, s: Settings, text: string) returns (filtered: seq<Match>)
    requires Sound(e) && ListsGlobal(l)
    ensures filtered == Sweep(SortByStart(Gathered(e, l, s, text)), -1)
  {
    SoundScans(e, l.tier1, text);
    SoundScans(e, l.tier2, text);
    SoundScans(e, l.tier3, text);
    SoundScans(e, l.emoji, text);
    var all := AddGated(e, l.tier1, text, Tier1, true, []);
    assert all == TierMatches(e, l.tier1, text, Tier1);
    all := AddGated(e, l.tier2, text, Tier2, s.sensitivity >= 3, all);
    all := AddGated(e, l.tier3, text, Tier3, s.sensitivity >= 4, all);
    all := AddGated(e, l.emoji, text, Emoji, s.blockEmojis, all);
    var sorted := SortByStart(all);
    filtered := RemoveOverlaps(sorted);
  }

  /** Each gathered match lies in the text and carries its tier. */
  lemma {:induction false} TierMatchesPlaced(e: Engine, ps: seq<Regex>, text: string, t: Tier)
    requires ScansWellFormed(e, ps, text)
    ensures forall m :: m in TierMatches(e, ps, text, t) ==> Placed(m, text) && m.tier == t
    decreases |ps|
  {
    if |ps| > 0 {
      TierMatchesPlaced(e, ps[..|ps| - 1], text, t);
      SpanMatchesPlaced(e.find(ps[|ps| - 1], text), text, t);
    }
  }

  lemma GatheredPlaced(e: Engine, l: TierLists, s: Settings, text: string)
    requires Sound(e)
    ensures forall m :: m in Gathered(e, l, s, text) ==> Placed(m, text)
  {
    SoundScans(e, l.tier1, text);
    SoundScans(e, l.tier2, text);
    SoundScans(e, l.tier3, text);
    SoundScans(e, l.emoji, text);
    TierMatchesPlaced(e, l.tier1, text, Tier1);
    TierMatchesPlaced(e, l.tier2, text, Tier2);
    TierMatchesPlaced(e, l.tier3, text, Tier3);
    TierMatchesPlaced(e, l.emoji, text, Emoji);
  }

  /** Matches that can be highlighted one after another: each lies in the
      text and none overlaps the next. */
  predicate WellPlaced(ms: seq<Match>, text: string) {
    (forall i :: 0 <= i < |ms| ==> Placed(ms[i], text)) &&
    (forall i :: 0 < i < |ms| ==> ms[i - 1].end <= ms[i].start)
  }

  /** What `collectAllMatches` returns can be highlighted: its matches lie
      in the text and are disjoint and in order. */
  lemma CollectedWellPlaced(e: Engine, l: TierLists, s: Settings, text: string)
    requires Sound(e)
    ensures WellPlaced(Sweep(SortByStart(Gathered(e, l, s, text)), -1), text)
  {
    var all := Gathered(e, l, s, text);
    var sorted := SortByStart(all);
    var f := Sweep(sorted, -1);
    GatheredPlaced(e, l, s, text);
    SortByStartMeaning(all);
    SweepKeepsOnlyInput(sorted, -1);
    SweepDisjoint(sorted, -1);
    forall i | 0 <= i < |f|
      ensures Placed(f[i], text)
    {
      assert f[i] in multiset(f);
      assert f[i] in multiset(all);
    }
  }

  /** Nothing gathered is lost without a reason: every match is either kept
      or starts inside a kept one. */
  lemma CollectedCoversGathered(e: Engine, l: TierLists, s: Settings, text: string)
    requires Sound(e)
    ensures forall x :: x in Gathered(e, l, s, text) ==>
              var f := Sweep(SortByStart(Gathered(e, l, s, text)), -1);
              x in f || exists y :: y in f && y.start <= x.start < y.end
  {
    var all := Gathered(e, l, s, text);
    var sorted := SortByStart(all);
    SortByStartMeaning(all);
    SweepDropsOnlyOverlaps(sorted, -1);
    forall x | x in all
      ensures x in sorted
    {
      assert x in multiset(all);
    }
  }

  // ---------------------------------------------------------------------
  // highlightText, plain-text mode
  // ---------------------------------------------------------------------

  /** The preview's pieces before HTML escaping: plain stretches and
      highlighted matches with their tier and `data-match-idx`. */
  datatype Piece = Plain(text: string) | Highlight(text: string, tier: Tier, index: nat)

  /** `s.substring(a, b)`: both ends clamped into the string, swapped when
      they are reversed. */
  function Substring(s: string, a: int, b: int): string {
    var lo := if a < 0 then 0 else if a > |s| then |s| else a;
    var hi := if b < 0 then 0 else if b > |s| then |s| else b;
    if lo <= hi then s[lo..hi] else s[hi..lo]
  }

  /** In range it is the slice; the order of the ends never matters. */
  lemma SubstringMeaning(s: string, a: int, b: int)
    ensures 0 <= a <= b <= |s| ==> Substring(s, a, b) == s[a..b]
    ensures Substring(s, a, b) == Substring(s, b, a)
    ensures |Substring(s, a, b)| <= |s|
  {
  }

  /** The pieces the plain-text loop produces from `lastIndex` on, numbering
      highlights from `idx`. */
  function Render(text: string, ms: seq<Match>, lastIndex: int, idx: nat): seq<Piece>
    decreases |ms|
  {
    if |ms| == 0 then [Plain(Substring(text, lastIndex, |text|))]
    else [Plain(Substring(text, lastIndex, ms[0].start)), Highlight(ms[0].text, ms[0].tier, idx)] +
         Render(text, ms[1..], ms[0].end, idx + 1)
  }

  /** The text the preview shows. */
  function Flatten(ps: seq<Piece>): string
    decreases |ps|
  {
    if |ps| == 0 then "" else ps[0].text + Flatten(ps[1..])
  }

  /** The plain-text branch of `highlightText`. */
  method HighlightPlain(text: string, ms: seq<Match>) returns (pieces: seq<Piece>)
    ensures pieces == Render(text, ms, 0, 0)
  {
    if |ms| == 0 {
      assert text[0..|text|] == text;
      pieces := [Plain(text)];
      return;
    }
    pieces := [];
    var lastIndex := 0;
    var i := 0;
    while i < |ms|
      invariant 0 <= i <= |ms|
      invariant pieces + Render(text, ms[i..], lastIndex, i) == Render(text, ms, 0, 0)
    {
      assert ms[i..][1..] == ms[i + 1..];
      pieces := pieces + [Plain(Substring(text, lastIndex, ms[i].start)), Highlight(ms[i].text, ms[i].tier, i)];
      lastIndex := ms[i].end;
      i := i + 1;
    }
    pieces := pieces + [Plain(Substring(text, lastIndex, |text|))];
  }

  /** The pieces alternate plain and highlighted, and the `k`-th highlight
      is match `k` with index `idx + k`. */
  lemma {:induction false} RenderShape(text: string, ms: seq<Match>, lastIndex: int, idx: nat)
    ensures |Render(text, ms, lastIndex, idx)| == 2 * |ms| + 1
    ensures forall k :: 0 <= k < |ms| ==>
              Render(text, ms, lastIndex, idx)[2 * k + 1] == Highlight(ms[k].text, ms[k].tier, idx + k)
    ensures forall k :: 0 <= k <= |ms| ==> Render(text, ms, lastIndex, idx)[2 * k].Plain?
    decreases |ms|
  {
    if |ms| > 0 {
      RenderShape(text, ms[1..], ms[0].end, idx + 1);
      var r := Render(text, ms, lastIndex, idx);
      var rest := Render(text, ms[1..], ms[0].end, idx + 1);
      assert forall k :: 2 <= k < |r| ==> r[k] == rest[k - 2];
      forall k | 1 <= k < |ms|
        ensures r[2 * k + 1] == Highlight(ms[k].text, ms[k].tier, idx + k)
      {
        assert r[2 * k + 1] == rest[2 * (k - 1) + 1];
        assert ms[1..][k - 1] == ms[k];
      }
      forall k | 1 <= k <= |ms|
        ensures r[2 * k].Plain?
      {
        assert r[2 * k] == rest[2 * (k - 1)];
      }
    }
  }

  /** Dropping the first of well-placed matches leaves well-placed
      matches that start after it ends. */
  lemma WellPlacedTail(ms: seq<Match>, text: string)
    requires WellPlaced(ms, text) && |ms| > 0
    ensures Placed(ms[0], text) && WellPlaced(ms[1..], text)
    ensures |ms[1..]| > 0 ==> ms[0].end <= ms[1..][0].start
  {
    assert forall i :: 0 <= i < |ms| - 1 ==> ms[1..][i] == ms[i + 1];
  }

  /** The text of two pieces followed by more. */
  lemma FlattenPair(a: Piece, b: Piece, rest: seq<Piece>)
    ensures Flatten([a, b] + rest) == a.text + (b.text + Flatten(rest))
  {
    var ps := [a, b] + rest;
    assert ps[1..] == [b] + rest;
    assert ([b] + rest)[1..] == rest;
  }

  /** One match of the preview: the plain stretch before it and its
      highlight, followed by the rest of the text. */
  lemma RenderRebuildsStep(text: string, ms: seq<Match>, lastIndex: nat, idx: nat)
    requires |ms| > 0 && Placed(ms[0], text) && lastIndex <= ms[0].start
    requires Flatten(Render(text, ms[1..], ms[0].end, idx + 1)) == text[ms[0].end..]
    ensures Flatten(Render(text, ms, lastIndex, idx)) == text[lastIndex..]
  {
    var m := ms[0];
    var rest := Render(text, ms[1..], m.end, idx + 1);
    assert Substring(text, lastIndex, m.start) == text[lastIndex..m.start];
    FlattenPair(Plain(text[lastIndex..m.start]), Highlight(m.text, m.tier, idx), rest);
    assert text[lastIndex..] == text[lastIndex..m.start] + (text[m.start..m.end] + text[m.end..]);
  }

  /** For well-placed matches the preview shows the text unchanged: the
      plain stretches and the highlights together rebuild it from
      `lastIndex` on. */
  lemma {:induction false} RenderRebuildsText(text: string, ms: seq<Match>, lastIndex: nat, idx: nat)
    requires WellPlaced(ms, text) && lastIndex <= |text|
    requires |ms| > 0 ==> lastIndex <= ms[0].start
    ensures Flatten(Render(text, ms, lastIndex, idx)) == text[lastIndex..]
    decreases |ms|
  {
    if |ms| == 0 {
      assert Flatten([Plain(text[lastIndex..])]) == text[lastIndex..] + Flatten([]);
    } else {
      WellPlacedTail(ms, text);
      RenderRebuildsText(text, ms[1..], ms[0].end, idx + 1);
      RenderRebuildsStep(text, ms, lastIndex, idx);
    }
  }

  /** End to end: the plain preview of what `collectAllMatches` returns
      shows exactly the text that was checked. */
  lemma HighlightShowsText(e: Engine, l: TierLists, s: Settings, text: string)
    requires Sound(e)
    ensures Flatten(Render(text, Sweep(SortByStart(Gathered(e, l, s, text)), -1), 0, 0)) == text
  {
    CollectedWellPlaced(e, l, s, text);
    RenderRebuildsText(text, Sweep(SortByStart(Gathered(e, l, s, text)), -1), 0, 0);
  }

  // ---------------------------------------------------------------------
  // Suggestions
  // ---------------------------------------------------------------------

  /** `SUGGESTIONS`: advice for common phrases, keyed by the lower-case
      phrase. */
  const Suggestions: map<string, string> :=
    map[
      "delve into" := "Try: \"explore\", \"examine\", or just be specific about what you're doing",
      "navigate the landscape" := "Be specific: What actual situation or field are you referring to?",
      "paradigm shift" := "Use concrete terms: What specifically changed?",
      "game-changer" := "Explain why it matters instead of using buzzwords",
      "transformative" := "Describe the actual transformation",
      "leverage" := "Try: \"use\", \"apply\", or \"take advantage of\"",
      "synergy" := "Explain the actual collaboration or benefit",
      "circle back" := "Say: \"follow up\", \"return to\", or \"revisit\"",
      "deep dive" := "Say: \"detailed analysis\" or \"thorough examination\"",
      "unlock" := "Be specific about what becomes possible",
      "seamlessly" := "Show how it integrates instead of claiming it does",
      "robust" := "Describe the actual features or strengths",
      "comprehensive" := "List what it covers",
      "holistic" := "Explain how you're considering all aspects",
      "disruptive" := "Explain what it changes and how",
      "innovative" := "Describe what's new about it",
      "breakthrough" := "Explain what barrier was overcome",
      "revolutionary" := "Describe the actual impact",
      "amazing" := "Use specific, measurable descriptors",
      "incredible" := "Provide concrete details",
      "unprecedented" := "If true, explain what makes it unique",
      "thrilling time to be alive" := "Be specific about the advancement you're discussing",
      "excited to announce" := "Skip the marketing fluff. Just state what you're announcing directly.",
      "thrilled to share" := "Get to the point. Share the actual information without the preamble.",
      "proud to announce" := "Drop the self-congratulation. Let the content speak for itself.",
      "happy to share" := "Remove this empty opener. Start with the actual content.",
      "big news" := "Don't hype it. If it's actually important, explain why.",
      "exciting news" := "Skip the editorial. Just share the information.",
      "just launched" := "State what you launched and why it matters, without the announcement fanfare.",
      "guess what" := "Don't make people guess. State your point directly.",
      "check out" := "Describe what it is and why it matters, don't just ask for engagement.",
      "can't wait to share" := "Then share it. Don't pad with artificial excitement.",
      "—" := "Em dashes are a telltale sign of AI-generated or overly dramatic content. Use simple punctuation instead."
    ]

  /** The per-tier advice of `getSuggestionForTier`. */
  const TierAdvice: map<string, string> :=
    map[
      "tier1" := "This is AI-generated slop language. Be specific and authentic instead of using generic phrases.",
      "tier2" := "This is corporate buzzword jargon. Use plain language to describe what you actually mean.",
      "tier3" := "This is marketing spam language. Remove hype and be factual.",
      "emoji" := "Excessive emoji usage combined with buzzwords signals low-quality content. Use emojis sparingly if at all."
    ]

  /** Its `default` branch. */
  const DefaultAdvice: string := "Consider rewriting this phrase to be more specific and less generic."

  /** `getSuggestionForTier(tier)`. */
  function TierSuggestion(tier: string): string {
    if tier in TierAdvice then TierAdvice[tier] else DefaultAdvice
  }

  /** The lookup of `showFixTooltip` in a table of advice: the advice for
      the trimmed, lower-cased match text, else the tier's advice. */
  function Advise(table: map<string, string>, matchText: string, tier: Tier): string {
    var key := Lower(Trim(matchText));
    if key in table && table[key] != "" then table[key] else TierSuggestion(TierName(tier))
  }

  /** The tooltip's advice, from `SUGGESTIONS`. */
  function Suggestion(matchText: string, tier: Tier): string {
    Advise(Suggestions, matchText, tier)
  }

  /** Every entry of `SUGGESTIONS` is non-empty, so the `||` fallback only
      applies to phrases missing from it. */
  lemma SuggestionsNonEmpty()
    ensures forall k :: k in Suggestions ==> Suggestions[k] != ""
  {
  }

  /** Every tier has its own advice, and so does the default branch. */
  lemma TierAdviceComplete()
    ensures forall t: Tier :: TierName(t) in TierAdvice && TierAdvice[TierName(t)] != ""
    ensures DefaultAdvice != ""
  {
  }

  /** Over a table without empty entries the tooltip always has advice: the
      phrase's own when the trimmed, lower-cased match is a key, otherwise
      its tier's; a phrase that only contains a key gets the tier's. */
  lemma AdviseMeaning(table: map<string, string>, matchText: string, tier: Tier)
    requires forall k :: k in table ==> table[k] != ""
    ensures Advise(table, matchText, tier) != ""
    ensures Lower(Trim(matchText)) in table ==> Advise(table, matchText, tier) == table[Lower(Trim(matchText))]
    ensures Lower(Trim(matchText)) !in table ==> Advise(table, matchText, tier) == TierAdvice[TierName(tier)]
  {
    TierAdviceComplete();
  }

  /** A key padded with spaces gets that key's advice: the lookup trims
      the match first. */
  lemma PaddedKeyAdvice(table: map<string, string>, key: string, pad: string, tier: Tier)
    requires key != [] && !IsSpace(key[0]) && !IsSpace(key[|key| - 1]) && Lower(key) == key
    requires key in table && table[key] != ""
    requires forall i :: 0 <= i < |pad| ==> IsSpace(pad[i])
    ensures Advise(table, pad + key + pad, tier) == table[key]
  {
    TrimPadded(pad, key);
  }

  /** An em dash, however it is padded, gets the em-dash advice. */
  lemma EmDashAdvice(pad: string, tier: Tier)
    requires forall i :: 0 <= i < |pad| ==> IsSpace(pad[i])
    ensures Suggestion(pad + "—" + pad, tier) == Suggestions["—"]
  {
    var dash := "—";
    assert Lower(dash) == dash && !IsSpace(dash[0]);
    assert dash in Suggestions && Suggestions[dash] != "";
    PaddedKeyAdvice(Suggestions, dash, pad, tier);
  }

  // ---------------------------------------------------------------------
  // getTopMatchExamples
  // ---------------------------------------------------------------------

  /** How a trimmed example is shown: cut to 37 characters and "..." when
      longer than 40, in double quotes. */
  function Quoted(t: string): string {
    "\"" + (if |t| > 40 then t[..37] + "..." else t) + "\""
  }

  /** How an example is shown: trimmed, then quoted. */
  function Example(found: string): string {
    Quoted(Trim(found))
  }

  /** A quoted example is at most 42 characters; a short phrase is shown
      whole and a long one keeps its first 37 characters. */
  lemma QuotedMeaning(t: string)
    ensures 2 <= |Quoted(t)| <= 42
    ensures Quoted(t)[0] == '"' && Quoted(t)[|Quoted(t)| - 1] == '"'
    ensures |t| <= 40 ==> Quoted(t)[1..|Quoted(t)| - 1] == t
    ensures |t| > 40 ==> Quoted(t)[1..38] == t[..37] && Quoted(t)[38..41] == "..."
  {
  }

  /** An example is at most 42 characters in quotes; a short phrase is shown
      whole and a long one keeps its first 37 characters. */
  lemma ExampleMeaning(found: string)
    ensures 2 <= |Example(found)| <= 42
    ensures Example(found)[0] == '"' && Example(found)[|Example(found)| - 1] == '"'
    ensures |Trim(found)| <= 40 ==> Example(found)[1..|Example(found)| - 1] == Trim(found)
    ensures |Trim(found)| > 40 ==>
              Example(found)[1..38] == Trim(found)[..37] && Example(found)[38..41] == "..."
  {
    QuotedMeaning(Trim(found));
  }

  /** `found && found[0]`: the first match of the pattern recompiled with
      the flags `gi`, when there is one and it is not empty. */
  function FirstFound(e: Engine, pattern: string, text: string): Option<string> {
    var spans := e.find(Regex(pattern, "gi"), text);
    if |spans| > 0 && Substring(text, spans[0].start, spans[0].end) != "" then
      Some(Substring(text, spans[0].start, spans[0].end))
    else None
  }

  /** The examples for a list of breakdown entries, one per entry whose
      pattern still finds something. */
  function Examples(e: Engine, entries: seq<Entry>, text: string): seq<string>
    decreases |entries|
  {
    if |entries| == 0 then []
    else
      var init := Examples(e, entries[..|entries| - 1], text);
      match FirstFound(e, entries[|entries| - 1].pattern, text)
        case Some(f) => init + [Example(f)]
        case None => init
  }

  /** There are at most as many examples as entries, each a quoted phrase
      of at most 42 characters. */
  lemma {:induction false} ExamplesShape(e: Engine, entries: seq<Entry>, text: string)
    ensures |Examples(e, entries, text)| <= |entries|
    ensures forall x :: x in Examples(e, entries, text) ==> 2 <= |x| <= 42 && x[0] == '"' && x[|x| - 1] == '"'
    decreases |entries|
  {
    if |entries| > 0 {
      ExamplesShape(e, entries[..|entries| - 1], text);
      match FirstFound(e, entries[|entries| - 1].pattern, text)
        case Some(f) => ExampleMeaning(f);
        case None =>
    }
  }

  /** One more entry adds its example, if it has one. */
  lemma ExamplesNext(e: Engine, entries: seq<Entry>, i: nat, text: string)
    requires i < |entries|
    ensures Examples(e, entries[..i + 1], text) ==
              Examples(e, entries[..i], text) +
              (match FirstFound(e, entries[i].pattern, text)
                 case Some(f) => [Example(f)]
                 case None => [])
  {
    assert entries[..i + 1][..i] == entries[..i];
  }

  /** `getTopMatchExamples(tierMatches, limit)`: the examples of the first
      `limit` entries, so never more than `limit` of them. */
  method TopMatchExamples(e: Engine, tierMatches: seq<Entry>, limit: nat, text: string)
    returns (examples: seq<string>)
    ensures examples == Examples(e, tierMatches[..if limit < |tierMatches| then limit else |tierMatches|], text)
    ensures |examples| <= limit
    ensures forall x :: x in examples ==> 2 <= |x| <= 42 && x[0] == '"' && x[|x| - 1] == '"'
  {
    var n := if limit < |tierMatches| then limit else |tierMatches|;
    var top := tierMatches[..n];
    examples := [];
    var i := 0;
    while i < n
      invariant 0 <= i <= n
      invariant examples == Examples(e, top[..i], text)
    {
      ExamplesNext(e, top, i, text);
      var found := FirstFound(e, top[i].pattern, text);
      if found.Some? {
        examples := examples + [Example(found.value)];
      }
      i := i + 1;
    }
    assert top[..i] == top;
    ExamplesShape(e, top, text);
  }

  // ---------------------------------------------------------------------
  // The pages' own lists
  // ---------------------------------------------------------------------

  /** The line-anchored opener that src/checker.js copies into Tier 1
      (position 61 of the content script's list, which begins its Tier 1)
      has no `g` flag, so once it matches, the `exec` loop of
      `collectAllMatches` reports the same match in every round and never
      ends. */
  lemma PageOpenerNeverEnds(e: Engine, text: string, fuel: nat)
    requires |e.find(Catalogue.ContinuesToOpener, text)| > 0
    ensures !IsGlobal(Catalogue.ContinuesToOpener)
    ensures |ExecRun(e, Catalogue.ContinuesToOpener, text, 0, fuel)| == fuel
  {
    ExecLoopNeverEndsWithoutGlobal(e, Catalogue.ContinuesToOpener, text, fuel);
  }

  /** The older page puts both em-dash patterns in Tier 1: one dash-wrapped
      aside (two dashes, one span) scores 9 points, which is slop at the
      default sensitivity 3. */
  lemma LegacyEmDashPairDetected(e: Engine, l: TierLists, s: Settings, text: string)
    requires l.tier1 == Catalogue.LegacyTier1 && s.sensitivity == 3
    requires |e.find(Catalogue.EmDashSpan, text)| == 1 && |e.find(Catalogue.LoneEmDash, text)| == 2
    requires forall i :: 0 <= i < |Catalogue.LegacyTier1| && i != 31 && i != 77 ==>
               |e.find(Catalogue.LegacyTier1[i], text)| == 0
    ensures 3 * TotalCount(e, l.tier1, text) == 9
    ensures Classify(PageScore(e, l, s, text), s.sensitivity) == SlopDetected
  {
    Catalogue.LegacyTier1Shape();
    TotalCountTwo(e, Catalogue.LegacyTier1, text, 31, 77);
  }

  /** On the older page every stop-word opener is a Tier 1 pattern: when
      only the `j`-th opener occurs, Tier 1 counts exactly its
      occurrences, 3 points each. */
  lemma LegacyStopWordOpener(e: Engine, text: string, j: nat)
    requires j < |Catalogue.StopWordOpeners|
    requires forall i :: 0 <= i < |Catalogue.LegacyTier1| && i != 58 + j ==>
               |e.find(Catalogue.LegacyTier1[i], text)| == 0
    ensures Catalogue.LegacyTier1[58 + j] == Catalogue.StopWordOpeners[j]
    ensures TotalCount(e, Catalogue.LegacyTier1, text) == |e.find(Catalogue.StopWordOpeners[j], text)|
  {
    Catalogue.LegacyTier1Shape();
    assert Catalogue.LegacyTier1[58..77][j] == Catalogue.LegacyTier1[58 + j];
    TotalCountSingle(e, Catalogue.LegacyTier1, text, 58 + j);
  }

}
