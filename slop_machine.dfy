/** The Slop Machine page (src/slop-machine.js, and the older copy
    slop-machine.js over the smaller database): a slot machine that draws a
    phrase pair per spin and keeps a spin count and the set of phrases
    learned, and an index of the database filtered by tier and search. */
module SlopMachine {

  import opened Wrappers
  import opened Strings
  import opened SlopDatabase

  // ---------------------------------------------------------------------
  // Labels and the index filter
  // ---------------------------------------------------------------------

  /** The cases of `getTierLabel`. */
  const TierLabels: map<string, string> :=
    map[
      "tier1" := "AI Slop - 3pts",
      "tier2" := "Corporate - 2pts",
      "tier3" := "Marketing - 1pt",
      "stopwords" := "Stop Words - 3pts"
    ]

  /** `getTierLabel`: the fixed label of a known tier, any other tier
      unchanged. */
  function TierLabel(tier: string): string {
    if tier in TierLabels then TierLabels[tier] else tier
  }

  /** Exactly the four known tiers have a label of their own, and it is
      never the tier's name; every other tier is shown as it is. */
  lemma TierLabelMeaning(tier: string)
    ensures tier in TierLabels <==> KnownTier(tier)
    ensures KnownTier(tier) ==> TierLabel(tier) == TierLabels[tier] && TierLabel(tier) != tier
    ensures !KnownTier(tier) ==> TierLabel(tier) == tier
  {
  }

  /** Every entry of a database whose tiers are all known is shown with a
      fixed label: the default branch is never taken. */
  lemma DatabaseLabels(db: seq<Pair>)
    requires AllKnownTiers(db)
    ensures forall i :: 0 <= i < |db| ==> db[i].tier in TierLabels && TierLabel(db[i].tier) != db[i].tier
  {
    forall i | 0 <= i < |db|
      ensures db[i].tier in TierLabels && TierLabel(db[i].tier) != db[i].tier
    {
      assert db[i] in db;
      TierLabelMeaning(db[i].tier);
    }
  }

  /** An index row's `data-tier` and `data-slop` attributes. */
  datatype Row = Row(tier: string, slop: string)

  /** `renderIndex` stores the tier and the lower-cased phrase. */
  function RowOf(p: Pair): Row {
    Row(p.tier, Lower(p.slop))
  }

  /** The test of `filterIndex`: the row's tier passes the tab filter and
      its phrase contains the lower-cased search term. */
  predicate Visible(filter: string, searchTerm: string, row: Row) {
    (filter == "all" || row.tier == filter) && (searchTerm == "" || Contains(row.slop, searchTerm))
  }

  /** A database entry is shown exactly when its tier passes the filter and
      its phrase contains the search, both compared in lower case. */
  lemma VisibleMeaning(filter: string, search: string, p: Pair)
    ensures Visible(filter, Lower(search), RowOf(p)) <==>
              (filter == "all" || p.tier == filter) && (search == "" || Contains(Lower(p.slop), Lower(search)))
    ensures Visible("all", Lower(""), RowOf(p))
  {
  }

  /** Typing more of the search never brings a hidden row back. */
  lemma SearchNarrows(filter: string, search: string, more: string, row: Row)
    requires Visible(filter, search + more, row)
    ensures Visible(filter, search, row)
  {
    if search != "" {
      assert |search + more| >= |search| > 0;
      ContainsIff(row.slop, search + more);
      var i :| OccursAt(row.slop, search + more, i);
      assert row.slop[i..i + |search|] == (search + more)[..|search|] == search;
      ContainsAt(row.slop, search, i);
    }
  }

  /** `filterIndex`: which rows end up hidden. */
  method FilterIndex(rows: seq<Row>, filter: string, searchInput: string) returns (hidden: seq<bool>)
    ensures |hidden| == |rows|
    ensures forall i :: 0 <= i < |rows| ==> (hidden[i] <==> !Visible(filter, Lower(searchInput), rows[i]))
  {
    var searchTerm := Lower(searchInput);
    hidden := [];
    var i := 0;
    while i < |rows|
      invariant 0 <= i <= |rows| && |hidden| == i
      invariant forall k :: 0 <= k < i ==> (hidden[k] <==> !Visible(filter, searchTerm, rows[k]))
    {
      var matchesFilter := filter == "all" || rows[i].tier == filter;
      var matchesSearch := searchTerm == "" || Contains(rows[i].slop, searchTerm);
      hidden := hidden + [!(matchesFilter && matchesSearch)];
      i := i + 1;
    }
  }

  // ---------------------------------------------------------------------
  // Spinning
  // ---------------------------------------------------------------------

  /** A fraction of a positive number lies below it. */
  lemma FractionBelow(r: real, m: real)
    requires 0.0 <= r < 1.0 && m > 0.0
    ensures 0.0 <= r * m < m
  {
    assert m - r * m == (1.0 - r) * m;
  }

  /** `Math.floor(x)` for `x` in `[0, n)`: an index below `n`. */
  function FloorBelow(x: real, n: nat): (i: nat)
    requires 0.0 <= x < n as real
    ensures i < n
    ensures i as real <= x < i as real + 1.0
  {
    x.Floor
  }

  /** `Math.floor(r * n)` for the random value `r`. */
  function PickIndex(r: real, n: nat): (i: nat)
    requires 0.0 <= r < 1.0 && n > 0
    ensures i < n
    ensures i as real <= r * n as real < i as real + 1.0
  {
    FractionBelow(r, n as real);
    FloorBelow(r * n as real, n)
  }

  /** The phrases of a database. */
  function Phrases(db: seq<Pair>): set<string> {
    set i | 0 <= i < |db| :: db[i].slop
  }

  /** The machine's state; `db` is the page's `SLOP_DATABASE`. */
  class SlotMachine {
    const db: seq<Pair>
    var spinCount: int
    var learned: set<string>
    var isSpinning: bool
    var currentPair: Option<Pair>

    /** While a spin runs its pair is drawn from the database. */
    predicate Valid()
      reads this
    {
      |db| > 0 && (isSpinning ==> currentPair.Some? && currentPair.value in db)
    }

    /** The page's initial state. */
    constructor(db: seq<Pair>)
      requires |db| > 0
      ensures this.db == db && Valid()
      ensures spinCount == 0 && learned == {} && !isSpinning && currentPair == None
    {
      this.db := db;
      spinCount := 0;
      learned := {};
      isSpinning := false;
      currentPair := None;
    }

    /** `loadStats`: the stored spin count (0 when absent or zero) and the
        stored phrases (none when absent). */
    method LoadStats(storedSpins: Option<int>, storedLearned: Option<seq<string>>)
      modifies this
      ensures spinCount == (if storedSpins.Some? then storedSpins.value else 0)
      ensures learned == (if storedLearned.Some? then set x | x in storedLearned.value else {})
      ensures isSpinning == old(isSpinning) && currentPair == old(currentPair)
    {
      spinCount := if storedSpins.Some? then storedSpins.value else 0;
      learned := if storedLearned.Some? then set x | x in storedLearned.value else {};
    }

    /** The first half of `spin`: ignored while a spin runs; otherwise it
        marks the machine spinning and draws the pair at `floor(r * n)`. */
    method Spin(r: real)
      requires Valid() && 0.0 <= r < 1.0
      modifies this
      ensures Valid()
      ensures old(isSpinning) ==>
                isSpinning && currentPair == old(currentPair) &&
                spinCount == old(spinCount) && learned == old(learned)
      ensures !old(isSpinning) ==>
                isSpinning && currentPair == Some(db[PickIndex(r, |db|)]) &&
                spinCount == old(spinCount) && learned == old(learned)
    {
      if isSpinning {
        return;
      }
      isSpinning := true;
      currentPair := Some(db[PickIndex(r, |db|)]);
    }

    /** The second half of `spin`, when the animation ends: one more spin,
        the drawn phrase learned, and the machine free again. */
    method FinishSpin()
      requires Valid() && isSpinning
      modifies this
      ensures Valid() && !isSpinning && currentPair == old(currentPair)
      ensures spinCount == old(spinCount) + 1
      ensures learned == old(learned) + {old(currentPair).value.slop}
      ensures |learned| <= |old(learned)| + 1
      ensures old(learned) <= Phrases(db) ==> learned <= Phrases(db)
    {
      var p := currentPair.value;
      ghost var i :| 0 <= i < |db| && db[i] == p;
      assert p.slop in Phrases(db);
      spinCount := spinCount + 1;
      learned := learned + {p.slop};
      isSpinning := false;
    }
  }

  /** A fresh machine that completes `n` spins has a spin count of `n` and
      has learned only phrases of its database, at most one per spin. */
  method SpinTimes(db: seq<Pair>, rs: seq<real>) returns (m: SlotMachine)
    requires |db| > 0
    requires forall i :: 0 <= i < |rs| ==> 0.0 <= rs[i] < 1.0
    ensures m.spinCount == |rs| && !m.isSpinning
    ensures m.learned <= Phrases(db) && |m.learned| <= |rs|
  {
    m := new SlotMachine(db);
    var k := 0;
    while k < |rs|
      invariant 0 <= k <= |rs|
      invariant m.db == db && m.Valid() && !m.isSpinning
      invariant m.spinCount == k && m.learned <= Phrases(db) && |m.learned| <= k
      modifies m
    {
      m.Spin(rs[k]);
      m.FinishSpin();
      k := k + 1;
    }
  }

}
