/** The pattern list editor of the settings page (src/settings.js): three
    tier lists of pattern strings and a list of weighted custom patterns,
    edited in place, checked on entry, imported wholesale and reset to the
    built-in defaults; and the page's pattern tester. */
module Settings {

  import opened Wrappers
  import opened Strings
  import opened Patterns
  import SettingsDefaults
  import Checker

  /** A custom pattern as the editor stores it. `weight` is `parseInt` of the
      weight field, `None` when that is `NaN`. */
  datatype CustomEntry = CustomEntry(pattern: string, weight: Option<int>)

  datatype PatternTier = Tier1 | Tier2 | Tier3

  /** A list the editor shows, with its delete buttons. */
  datatype ListName = TierList(tier: PatternTier) | CustomList

  /** The object `currentPatterns`. After an import the `custom` key may be
      missing. */
  datatype PatternSet = PatternSet(tier1: seq<string>, tier2: seq<string>, tier3: seq<string>,
                                   custom: Option<seq<CustomEntry>>)

  /** An imported JSON object as far as the editor looks at it; a missing
      key is `None`. */
  datatype Imported = Imported(tier1: Option<seq<string>>, tier2: Option<seq<string>>,
                               tier3: Option<seq<string>>, custom: Option<seq<CustomEntry>>)

  /** What the file input delivers. */
  datatype ImportFile = NoFile | Unparsable | Parsed(obj: Imported)

  /** How an edit ends: applied; rejected with one of the status messages;
      declined at the confirmation prompt; ignored (no file chosen); or
      stopped by an uncaught `TypeError` (a push or splice on a missing
      `custom` list). */
  datatype Outcome = Applied | EmptyInput | NotLiteral | InvalidFile | Declined | Ignored | Crashed

  // ---------------------------------------------------------------------
  // Pure helpers
  // ---------------------------------------------------------------------

  /** `getTierWeight`: 3, 2 and 1 points for the tiers, 1 for anything
      else. */
  function TierWeight(tier: string): nat {
    if tier == "tier1" then 3
    else if tier == "tier2" then 2
    else if tier == "tier3" then 1
    else 1
  }

  /** The editor shows the checker's weights for the three tiers; any other
      name, the emoji tier included, shows 1 point. */
  lemma TierWeightAgrees(t: Checker.Tier, other: string)
    requires other != "tier1" && other != "tier2" && other != "tier3"
    ensures t != Checker.Emoji ==> TierWeight(Checker.TierName(t)) == Checker.Weight(t)
    ensures TierWeight(other) == 1
  {
  }

  /** `list.splice(index, 1)`: a negative index counts from the end, and an
      index past the end removes nothing. */
  function SpliceOne<T>(s: seq<T>, index: int): seq<T> {
    var start := if index >= 0 then index else if |s| + index < 0 then 0 else |s| + index;
    if start >= |s| then s else s[..start] + s[start + 1..]
  }

  /** In range, exactly element `index` goes and the rest keep their order;
      past the end nothing changes. */
  lemma SpliceOneMeaning<T>(s: seq<T>, index: int)
    ensures 0 <= index < |s| ==> |SpliceOne(s, index)| == |s| - 1
    ensures 0 <= index < |s| ==>
              (forall i :: 0 <= i < index ==> SpliceOne(s, index)[i] == s[i]) &&
              (forall i :: index <= i < |s| - 1 ==> SpliceOne(s, index)[i] == s[i + 1])
    ensures index >= |s| ==> SpliceOne(s, index) == s
    ensures -|s| <= index < 0 ==> SpliceOne(s, index) == SpliceOne(s, |s| + index)
  {
  }

  /** Deleting the entry just added restores the list. */
  lemma DeleteUndoesAdd<T>(s: seq<T>, x: T)
    ensures SpliceOne(s + [x], |s|) == s
  {
    assert (s + [x])[..|s|] == s;
  }

  // ---------------------------------------------------------------------
  // The pattern tester
  // ---------------------------------------------------------------------

  datatype TestResult = MissingPattern | MissingText | WrongFormat | InvalidRegex | Found(count: nat)

  /** `testPattern`: the trimmed input must be non-empty, the text too; the
      input must parse as `/body/flags` with a non-empty body and compile;
      then the count is the length of `text.match(regex)`. */
  function TestPattern(e: Engine, patternInput: string, testText: string): TestResult {
    var p := Trim(patternInput);
    if p == "" then MissingPattern
    else if testText == "" then MissingText
    else match ParseLiteral(p)
      case None => WrongFormat
      case Some(bf) =>
        match Compile(e, bf.0, bf.1)
          case None => InvalidRegex
          case Some(rx) => Found(MatchCount(e, rx, testText))
  }

  /** The tester accepts a pattern exactly when the content script would
      load it, and it then counts what the content script counts. */
  lemma TestPatternAgreesWithLoading(e: Engine, patternInput: string, testText: string)
    requires Trim(patternInput) != "" && testText != ""
    ensures TestPattern(e, patternInput, testText).Found? <==> Convert(e, Trim(patternInput)).Some?
    ensures Convert(e, Trim(patternInput)).Some? ==>
              TestPattern(e, patternInput, testText) == Found(MatchCount(e, Convert(e, Trim(patternInput)).value, testText))
  {
  }

  /** The check on entry is weaker than the parse: whatever parses passes
      it, but `//` passes it and then neither parses in the tester nor
      loads in the content script. */
  lemma EntryCheckWeakerThanParse(e: Engine, s: string, testText: string)
    requires testText != ""
    ensures ParseLiteral(s).Some? ==> LooksLikeLiteral(s)
    ensures LooksLikeLiteral("//") && ParseLiteral("//").None?
    ensures TestPattern(e, "//", testText) == WrongFormat && Convert(e, "//").None?
  {
    if ParseLiteral(s).Some? {
      ParseImpliesFlagsSuffix(s);
    }
    assert "//"[1..] == "/" && AllFlagChars("//"[2..]);
    assert LastIndexOf("//", '/') == Some(1);
    TrimNoSpace("//");
  }

  // ---------------------------------------------------------------------
  // The editor
  // ---------------------------------------------------------------------

  class PatternEditor {
    var tier1: seq<string>
    var tier2: seq<string>
    var tier3: seq<string>
    var custom: Option<seq<CustomEntry>>
    /** What `savePatterns` last wrote to storage, if anything. */
    var saved: Option<PatternSet>

    function Current(): PatternSet
      reads this
    {
      PatternSet(tier1, tier2, tier3, custom)
    }

    function TierOf(t: PatternTier): seq<string>
      reads this
    {
      match t
        case Tier1 => tier1
        case Tier2 => tier2
        case Tier3 => tier3
    }

    /** The page starts from empty lists and nothing saved. */
    constructor()
      ensures Current() == PatternSet([], [], [], Some([])) && saved == None
    {
      tier1, tier2, tier3, custom := [], [], [], Some([]);
      saved := None;
    }

    /** `loadPatterns`: the stored object replaces everything; without one,
        the tiers get the defaults and the custom list is empty. */
    method LoadPatterns(stored: Option<PatternSet>)
      modifies this
      ensures stored.Some? ==> Current() == stored.value
      ensures stored.None? ==>
                Current() == PatternSet(SettingsDefaults.DefaultTier1, SettingsDefaults.DefaultTier2,
                                        SettingsDefaults.DefaultTier3, Some([]))
      ensures saved == old(saved)
    {
      match stored {
        case Some(ps) =>
          tier1, tier2, tier3, custom := ps.tier1, ps.tier2, ps.tier3, ps.custom;
        case None =>
          tier1, tier2, tier3 := SettingsDefaults.DefaultTier1, SettingsDefaults.DefaultTier2, SettingsDefaults.DefaultTier3;
          custom := Some([]);
      }
    }

    /** `addPattern(tier)`: the trimmed input must be non-empty and look
        like `/…/flags`; it is then appended to that tier alone and saved.
        A rejected input changes nothing. */
    method AddPattern(tier: PatternTier, input: string) returns (outcome: Outcome)
      modifies this
      ensures outcome == (if Trim(input) == "" then EmptyInput
                          else if !LooksLikeLiteral(Trim(input)) then NotLiteral
                          else Applied)
      ensures outcome == Applied ==> TierOf(tier) == old(TierOf(tier)) + [Trim(input)]
      ensures forall u :: u != tier ==> TierOf(u) == old(TierOf(u))
      ensures outcome != Applied ==> TierOf(tier) == old(TierOf(tier))
      ensures custom == old(custom)
      ensures saved == if outcome == Applied then Some(Current()) else old(saved)
    {
      var pattern := Trim(input);
      if pattern == "" {
        return EmptyInput;
      }
      if !LooksLikeLiteral(pattern) {
        return NotLiteral;
      }
      match tier {
        case Tier1 => tier1 := tier1 + [pattern];
        case Tier2 => tier2 := tier2 + [pattern];
        case Tier3 => tier3 := tier3 + [pattern];
      }
      saved := Some(Current());
      outcome := Applied;
    }

    /** `addCustomPattern`: the same check, then `{pattern, weight}` is
        appended to the custom list and saved. After an import without a
        custom list the push throws and nothing changes. */
    method AddCustomPattern(input: string, weight: Option<int>) returns (outcome: Outcome)
      modifies this
      ensures outcome == (if Trim(input) == "" then EmptyInput
                          else if !LooksLikeLiteral(Trim(input)) then NotLiteral
                          else if old(custom).None? then Crashed
                          else Applied)
      ensures outcome == Applied ==> custom == Some(old(custom).value + [CustomEntry(Trim(input), weight)])
      ensures outcome != Applied ==> custom == old(custom)
      ensures tier1 == old(tier1) && tier2 == old(tier2) && tier3 == old(tier3)
      ensures saved == if outcome == Applied then Some(Current()) else old(saved)
    {
      var pattern := Trim(input);
      if pattern == "" {
        return EmptyInput;
      }
      if !LooksLikeLiteral(pattern) {
        return NotLiteral;
      }
      if custom.None? {
        return Crashed;
      }
      custom := Some(custom.value + [CustomEntry(pattern, weight)]);
      saved := Some(Current());
      outcome := Applied;
    }

    /** `deletePattern(list, index)`: `splice(index, 1)` on that list alone,
        then save. */
    method DeletePattern(list: ListName, index: int) returns (outcome: Outcome)
      modifies this
      ensures outcome == (if list == CustomList && old(custom).None? then Crashed else Applied)
      ensures list.TierList? ==> TierOf(list.tier) == SpliceOne(old(TierOf(list.tier)), index)
      ensures forall u :: list != TierList(u) ==> TierOf(u) == old(TierOf(u))
      ensures list == CustomList && outcome == Applied ==>
                custom == Some(SpliceOne(old(custom).value, index))
      ensures list != CustomList || outcome != Applied ==> custom == old(custom)
      ensures saved == if outcome == Applied then Some(Current()) else old(saved)
    {
      match list {
        case TierList(t) =>
          match t {
            case Tier1 => tier1 := SpliceOne(tier1, index);
            case Tier2 => tier2 := SpliceOne(tier2, index);
            case Tier3 => tier3 := SpliceOne(tier3, index);
          }
        case CustomList =>
          if custom.None? {
            return Crashed;
          }
          custom := Some(SpliceOne(custom.value, index));
      }
      saved := Some(Current());
      outcome := Applied;
    }

    /** `importPatterns`: a file that does not parse, or lacks any of the
        three tiers, is rejected; a valid one replaces everything once the
        user confirms, custom list included (missing if the file has none).
        Without a custom list the lists are replaced but rendering the
        custom list then throws, and the page reports an import error.
        The import is not saved. */
    method ImportPatterns(file: ImportFile, confirmed: bool) returns (outcome: Outcome)
      modifies this
      ensures outcome == (if file.NoFile? then Ignored
                          else if file.Unparsable? then InvalidFile
                          else if file.obj.tier1.None? || file.obj.tier2.None? || file.obj.tier3.None? then InvalidFile
                          else if !confirmed then Declined
                          else if file.obj.custom.None? then Crashed
                          else Applied)
      ensures outcome == Applied || outcome == Crashed ==>
                Current() == PatternSet(file.obj.tier1.value, file.obj.tier2.value, file.obj.tier3.value, file.obj.custom)
      ensures outcome != Applied && outcome != Crashed ==> Current() == old(Current())
      ensures saved == old(saved)
    {
      match file {
        case NoFile =>
          return Ignored;
        case Unparsable =>
          return InvalidFile;
        case Parsed(obj) =>
          if obj.tier1.None? || obj.tier2.None? || obj.tier3.None? {
            return InvalidFile;
          }
          if !confirmed {
            return Declined;
          }
          tier1, tier2, tier3, custom := obj.tier1.value, obj.tier2.value, obj.tier3.value, obj.custom;
          outcome := if obj.custom.None? then Crashed else Applied;
      }
    }

    /** `resetToDefaults`: once confirmed, copies of the default tiers and an
        empty custom list, saved. */
    method ResetToDefaults(confirmed: bool) returns (outcome: Outcome)
      modifies this
      ensures outcome == if confirmed then Applied else Declined
      ensures confirmed ==>
                Current() == PatternSet(SettingsDefaults.DefaultTier1, SettingsDefaults.DefaultTier2,
                                        SettingsDefaults.DefaultTier3, Some([])) &&
                saved == Some(Current())
      ensures !confirmed ==> Current() == old(Current()) && saved == old(saved)
    {
      if !confirmed {
        return Declined;
      }
      tier1, tier2, tier3 := SettingsDefaults.DefaultTier1, SettingsDefaults.DefaultTier2, SettingsDefaults.DefaultTier3;
      custom := Some([]);
      saved := Some(Current());
      outcome := Applied;
    }
  }

  /** Adding a pattern and then deleting the last entry of that tier leaves
      the editor's lists as they were. */
  method AddThenDelete(ed: PatternEditor, tier: PatternTier, input: string) returns (outcome: Outcome)
    requires Trim(input) != "" && LooksLikeLiteral(Trim(input))
    modifies ed
    ensures outcome == Applied
    ensures ed.Current() == old(ed.Current())
  {
    var before := ed.TierOf(tier);
    outcome := ed.AddPattern(tier, input);
    DeleteUndoesAdd(before, Trim(input));
    outcome := ed.DeletePattern(TierList(tier), |before|);
    assert ed.TierOf(tier) == before;
    assert ed.TierOf(Tier1) == old(ed.TierOf(Tier1));
    assert ed.TierOf(Tier2) == old(ed.TierOf(Tier2));
    assert ed.TierOf(Tier3) == old(ed.TierOf(Tier3));
  }

}
