# DeSlop scoring engine in Dafny

DeSlop is a browser extension that hides text that reads like AI-generated
"slop". This project models its core, which is ordinary deterministic code
once regular-expression matching is treated as an opaque capability:

- **The content script's detector** (`SlopDetector` in `src/content.js`,
  module `Detector`).
  - An element's text scores `count × weight` per pattern category: Tier 1
    (3 points), Tier 2 (2), Tier 3 (1), emoji (5), stop-word openers (3),
    em dashes (3), and user patterns with their own weights.
  - Tiers 1–3 are gated by a toggle and a sensitivity floor. The other
    categories are gated by their toggles only.
  - The total is compared with the sensitivity threshold (15/12/9/6/4, and 9
    for any other sensitivity). Text shorter than 100 characters never
    counts.
  - Also modelled: loading settings and stored pattern lists (a tier string
    that does not convert is dropped; a custom entry that does not convert
    is kept with an `undefined` pattern), the site whitelist, and the
    counter of hidden elements.
- **The interactive checker page** (`src/checker.js`, and the older copy
  `checker.js` over its own pattern lists, module `Checker`).
  - `scoreText` records per-pattern breakdown entries and a total.
  - `collectAllMatches` sorts spans by start and drops every span that
    starts before the previous kept one ends.
  - The plain-text highlighter rebuilds the text from gaps and highlighted
    spans.
  - Also modelled: the Clean / Borderline / Slop-detected verdict and the
    per-sensitivity indicator row, the fix suggestions, and the top-match
    examples.
- **The pattern editor** (`src/settings.js`, module `Settings`). An in-place
  store of three tier lists and a custom list with:
  - add with an entry check, delete by index (`splice`), wholesale import
    with a structure check, and reset to defaults;
  - the tier→weight table and the pattern tester's parse.
- **The Slop Machine page** (`src/slop-machine.js`, and the older copy
  `slop-machine.js` over the first 79 phrases, module `SlopMachine`):
  - a slot machine with a re-entry guard, a spin counter and the set of
    phrases learned;
  - the tier/search filter of the phrase index and the tier→label table.

Regular expressions are values `Regex(source, flags)`. An `Engine` supplies,
for each expression and text, the spans a global scan finds, the number of
capture groups, and whether a body/flags pair compiles.
- `text.match(p)` is then `|find|` for a global `p`, and `1 + groups` (or 0)
  for a non-global one, matched from the start of the text (a sticky `y`
  pattern without `g` is the exception; see "Left out").
- `regex.exec` from `lastIndex` is the first found span starting at or after
  `lastIndex`; a non-global expression ignores `lastIndex`.

The pattern catalogues (`Catalogue`, `SettingsDefaults`) and the phrase
database (`SlopDatabase`) are written out entry by entry as in the source.

Modules by file:
- `wrappers.dfy`: `Option`.
- `strings.dfy`: the JavaScript string built-ins used: ASCII `toLowerCase`,
  `trim`, `includes`, `startsWith`, `endsWith` and `indexOf`.
- `patterns.dfy`: the engine, match counts, the `exec` loop, and the
  `"/body/flags"` literal parse.
- `catalogue.dfy`, `settings_defaults.dfy`, `slop_database.dfy`: the data.
- `detector.dfy`, `checker.dfy`, `settings.dfy`, `slop_machine.dfy`: the four
  components.

Places where the two copies differ:
- The older `checker.js` keeps the stop-word openers and both em-dash
  patterns inside Tier 1 (`Catalogue.LegacyTier1`). A pair of em dashes 10 to
  100 characters apart therefore scores 3 + 2 × 3 = 9 and is flagged at
  sensitivity 3.
- `src/checker.js` has neither of those patterns in Tier 1 and no separate
  stop-word or em-dash category.

Both checker copies run the same code, so one `Checker` module serves both,
applied to `PageLists` or `LegacyPageLists`.

Behaviours of the source the model keeps as they are:
- The editor's entry check (starts with `/`, ends with `/` and flag letters)
  is weaker than the parse the tester and the content script use: `//` is
  accepted into a list and then dropped when loaded.
- An imported pattern set is applied but not saved.
- `addCustomPattern` and `deletePattern` on the custom list throw when an
  import left `custom` absent.

## Model

| member | source | states |
|---|---|---|
| Patterns.MatchCountMeaning | src/content.js:487-491 | `text.match(p).length` is the number of occurrences for a global pattern; it is zero exactly when nothing matches; for a non-global pattern with one match it is 1 plus the number of capture groups, matching from the start of the text |
| Patterns.TotalCountAppend | src/content.js:486-491 | the count summed over a list splits over concatenation |
| Patterns.TotalCountZero | src/content.js:486-491 | a list scores nothing exactly when none of its patterns matches |
| Patterns.ExecLoopGlobal | src/checker.js:1026-1034 | for a global pattern the `exec` loop yields exactly the scan's spans, in order, and then stops |
| Patterns.ExecLoopNeverEndsWithoutGlobal | src/checker.js:1026-1034 | for a non-global pattern that matches, every `exec` call returns the same first match, so the loop never ends |
| Patterns.ParseLiteralIff | src/content.js:64 | `^/(.+)/([gimuy]*)$` accepts exactly a `/`, a non-empty body without line terminators, a `/` and flag letters |
| Patterns.ParseImpliesFlagsSuffix | src/settings.js:262 | every string the literal parse accepts also passes the editor's entry check |
| Patterns.Compile | src/content.js:66 | a body/flags pair compiles exactly when the flags repeat no letter and the engine accepts it |
| Patterns.Convert | src/content.js:61-72 | a converted string is exactly `/source/flags` of the expression it yields |
| Patterns.ConvertAll | src/content.js:61-73 | the converted list is no longer than the input |
| Patterns.ConvertAllSources | src/content.js:61-73 | each kept expression is the conversion of one of the input strings |
| Patterns.ConvertAllAppend | src/content.js:61-73 | conversion drops bad strings one by one, so it distributes over concatenation |
| Patterns.AddGlobalFlags | src/content.js:160-171 | adding `g` keeps each pattern's source and flags, and every result is global |
| Patterns.TotalCountGlobal | src/content.js:486-491 | for global lists the summed `match` count is the number of occurrences |
| Patterns.TotalCountAddGlobalFlags | src/content.js:160-171 | with `g` added, any list counts occurrences |
| Catalogue.LowAggroShape | src/content.js:101-215 | the built-in Tier 1 list has 98 patterns; the three at 55, 61 and 62 are non-global `/mi` openers and the runs around them are global |
| Catalogue.ContentListsShape | src/content.js:218-404 | the Tier 2, Tier 3, stop-word, em-dash and emoji lists have 67, 52, 19, 2 and 17 global patterns |
| Catalogue.CheckerTier2Shape | src/checker.js:224-403 | the checker's Tier 2 list has 176 global patterns |
| Catalogue.CheckerTier3Shape | src/checker.js:404-604 | the checker's Tier 3 list has 197 global patterns |
| Catalogue.LegacyTier1Shape | checker.js:5-89 | the older Tier 1 list has 78 global patterns, holds the em-dash pair at 31 and the lone em dash at 77, and holds the 19 stop-word openers at 58–76 |
| Catalogue.LegacyListsShape | checker.js:90-181 | the older Tier 2, Tier 3 and emoji lists have 38, 35 and 13 global patterns |
| Detector.ThresholdOrder | src/content.js:555-564 | thresholds lie in 4..15, fall as sensitivity rises within 1..5, and are 9 for any other value |
| Detector.ScoreMonotone | src/content.js:485-512 | with the toggles fixed, raising the sensitivity never lowers the score |
| Detector.BlockedMonotone | src/content.js:555-564 | within 1..5, raising the sensitivity never unblocks an element |
| Detector.Tier1Gate | src/content.js:485-492 | the Tier 1 toggle adds 3 per match exactly when sensitivity ≥ 1 |
| Detector.Tier2Gate | src/content.js:495-502 | the Tier 2 toggle adds 2 per match exactly when sensitivity ≥ 3 |
| Detector.Tier3Gate | src/content.js:505-512 | the Tier 3 toggle adds 1 per match exactly when sensitivity ≥ 4 |
| Detector.CustomUngated | src/content.js:515-522 | custom patterns add `count × weight` whatever the sensitivity and toggles |
| Detector.EmojiGate | src/content.js:525-532 | the emoji toggle adds 5 per match, whatever the sensitivity |
| Detector.StopWordGate | src/content.js:535-542 | the stop-word toggle adds 3 per match, whatever the sensitivity |
| Detector.EmDashGate | src/content.js:545-552 | the em-dash toggle adds 3 per match of each em-dash pattern, whatever the sensitivity |
| Detector.ShortTextNeverSlop | src/content.js:480 | text shorter than 100 characters is never slop |
| Detector.EmDashPairScores | src/content.js:241-244 | one em-dash pair counts for both patterns, 3 + 2 × 3 = 9, which blocks at sensitivity 3 |
| Detector.AddPoints | src/content.js:486-491 | a category loop adds `weight × count` summed over its patterns |
| Detector.AddCustomPoints | src/content.js:515-523 | the custom loop adds each entry's `weight × count` over the custom list |
| Detector.SlopScore | src/content.js:482-553 | the accumulated score equals the specified score: each enabled category's weighted count plus the custom points |
| Detector.SlopDetector.IsSlopElement | src/content.js:476-565 | the accumulated verdict is the specified score compared with the threshold |
| Detector.CustomFrom | src/content.js:87-94 | corrected load: the custom entries all hold an expression, each converted from an entry with the same weight |
| Detector.CustomFromKeepsDefined | src/content.js:88-91 | the corrected load is the as-written list with its `undefined` entries removed |
| Detector.CorrectedCustomMeaning | src/content.js:87-94 | the corrected stored-custom load drops exactly the `undefined` entries of the as-written load, and every entry it keeps holds an expression |
| Detector.CustomFromAsWritten | src/content.js:88-91 | as written, every entry is kept, an unconvertible one with an `undefined` pattern |
| Detector.UndefinedCustomPatternCountsEverywhere | src/content.js:87-91 | an unconvertible custom entry adds its weight to every element and blocks all long text once the weight reaches the threshold; the corrected load drops it |
| Detector.UndefinedCustomPatternExample | src/content.js:87-91 | the entry `delve` with weight 10 blocks every element of 100+ characters at sensitivity 3 |
| Detector.OverridesMeaning | src/content.js:76-94 | a tier list is replaced only when the stored object has that key; a non-empty custom list becomes one entry per stored entry, with the same weight and the entry's conversion (`undefined` when it fails); an absent or empty one gives none; nothing else changes |
| Detector.BadTierStringDropped | src/content.js:61-73 | an unconvertible tier string is dropped and the rest of the list is kept in order |
| Detector.ScoreOfDefaults | src/content.js:18-29 | with the stored defaults the score is Tier 1, Tier 2, stop words and em dashes only |
| Detector.OpenerCountsAsWritten | src/content.js:170 | one line opening with the `/mi` "continues to" pattern counts 3, one plus its two groups |
| Detector.OpenerCountsCorrected | src/content.js:170 | with `g` added the same line counts 1 |
| Detector.NonGlobalOpenerOvercounts | src/content.js:160-171 | with the defaults that one line blocks the element as written and not once corrected |
| Detector.WhitelistEdges | src/content.js:408-436 | an empty whitelist exempts nothing, and an empty entry exempts every page |
| Detector.HostStripsWww | src/content.js:411 | the compared host is the lower-cased hostname without its leading `www.` |
| Detector.DomainEntryCovers | src/content.js:411-424 | an entry exempts its own host and every subdomain of it, the host compared without `www.` |
| Detector.SplitPathEntry | src/content.js:428 | `split('/', 2)` keeps the domain and only the first path segment |
| Detector.LowerPathEntry | src/content.js:414 | lower-casing an entry lower-cases each of its parts |
| Detector.PathEntryUsesFirstSegment | src/content.js:427-431 | a `domain/seg/more` entry exempts every path of that host that starts with `/seg`, whatever `more` is |
| Detector.ApplyStored | src/content.js:31-44 | loaded settings set every toggle and the sensitivity, and change the lists only when stored patterns exist: each stored tier is converted and replaces its list, and the custom list is installed as written |
| Detector.SlopDetector.constructor | src/content.js:5-14 | a new detector has hidden nothing, uses the built-in lists and sensitivity 3 |
| Detector.SlopDetector.LoadSettings | src/content.js:16-57 | stored settings are applied, missing ones fall back to sensitivity 3 and enabled, and stored pattern lists are installed as written |
| Detector.SlopDetector.LoadCustomPatterns | src/content.js:59-95 | the stored pattern overrides are applied, the custom list as written with `undefined` entries kept, and nothing else changes |
| Detector.SlopDetector.RemoveElement | src/content.js:624-628 | the count rises by one only for an element not marked before, and the element is then marked |
| Detector.RemoveTwiceCountsOnce | src/content.js:624-628 | removing the same element twice counts once |
| Checker.Corrected | src/checker.js:64-75 | adding `g` makes all four lists global |
| Checker.CorrectedIdentity | src/checker.js:224-403 | lists that are already global, such as Tier 2, are unchanged by the correction |
| Checker.EntriesPoints | src/checker.js:1317-1320 | a tier's entries' points add up to weight × the tier's count |
| Checker.EntriesWellFormed | src/checker.js:976-979 | each entry has a positive count and points = count × weight, at most one per pattern |
| Checker.EntriesEmpty | src/checker.js:976-979 | a tier has no entries exactly when none of its patterns matches |
| Checker.ScanTier | src/checker.js:976-981 | a tier loop records that tier's entries and adds weight × count to the score |
| Checker.ScanGated | src/checker.js:975-982 | a gated tier adds its entries and points only when its gate is open |
| Checker.ScoreText | src/checker.js:965-1017 | the score is the gated weighted count (Tier 1 always, Tier 2 from 3, Tier 3 from 4, emoji when enabled) and equals the sum of all entries' points |
| Checker.PageScoreAgreesWithDetector | src/checker.js:975-1013 | with every tier toggle on, the page scores as the content script does, except that Tier 1 is also scored below sensitivity 1 |
| Checker.ThresholdsAgreeWithDetector | src/checker.js:774-780 | the page's thresholds are the content script's for 1..5 and undefined otherwise |
| Checker.ClassifyAgreesWithDetector | src/checker.js:1268-1281 | a positive score is Slop-detected iff it reaches the threshold and Borderline iff below it; with no threshold it is Slop-detected |
| Checker.UpdateThresholds | src/checker.js:1300-1313 | level i is marked blocked iff the score reaches its threshold, and a blocked level implies every higher one |
| Checker.StatusMatchesRow | src/checker.js:1300-1313 | the verdict is Slop-detected exactly when the indicator for the current sensitivity is blocked |
| Checker.SpanMatchesPlaced | src/checker.js:1028-1033 | each recorded match lies inside the text and carries the span's text and tier |
| Checker.ExecAll | src/checker.js:1026-1034 | the `exec` loop appends one match per scanned span, in order |
| Checker.AddMatches | src/checker.js:1023-1036 | `addMatches` appends the matches of each pattern in list order |
| Checker.SortByStartMeaning | src/checker.js:1051 | the sort yields a start-ordered permutation of the matches |
| Checker.InsertByStartPermutes | src/checker.js:1051 | inserting keeps every element once |
| Checker.InsertByStartSorted | src/checker.js:1051 | inserting into a start-ordered list keeps it ordered |
| Checker.SweepDisjoint | src/checker.js:1053-1061 | kept matches do not overlap, the first starts at or after the initial `lastEnd`, and a first match starting there is kept (from `-1`, the earliest match always is) |
| Checker.SweepKeepsOnlyInput | src/checker.js:1054-1061 | the sweep keeps a sub-multiset of its input |
| Checker.SweepDropsOnlyOverlaps | src/checker.js:1054-1061 | a dropped match starts inside a kept one (or before the initial `lastEnd`) |
| Checker.SweepKeepsDisjoint | src/checker.js:1054-1061 | a list with no overlaps is kept whole |
| Checker.RemoveOverlaps | src/checker.js:1053-1061 | the loop with `lastEnd = -1` computes the sweep |
| Checker.AddGated | src/checker.js:1039-1048 | a gated `addMatches` call appends the tier's matches only when its gate is open |
| Checker.CollectAllMatches | src/checker.js:1019-1064 | the result is the sweep of the start-sorted matches of the active tiers |
| Checker.CollectedWellPlaced | src/checker.js:1050-1063 | the collected matches lie inside the text and do not overlap |
| Checker.CollectedCoversGathered | src/checker.js:1050-1063 | every found match is kept or starts inside a kept match |
| Checker.SubstringMeaning | src/checker.js:1124 | `substring` is the slice for in-range bounds, swaps reversed bounds and is never longer than the string |
| Checker.HighlightPlain | src/checker.js:1117-1129 | the plain-text loop emits a gap, a highlight per match and the tail |
| Checker.RenderShape | src/checker.js:1117-1129 | the output alternates gaps and highlights, the k-th highlight showing match k with index k |
| Checker.RenderRebuildsText | src/checker.js:1117-1129 | concatenating gaps and highlighted texts rebuilds the text from `lastIndex` |
| Checker.HighlightShowsText | src/checker.js:1117-1129 | the highlighted collected matches rebuild the whole text |
| Checker.SuggestionsNonEmpty | src/checker.js:783-818 | every suggestion in the table is non-empty |
| Checker.TierAdviceComplete | src/checker.js:1245-1258 | every tier has a non-empty fallback, as does an unknown tier |
| Checker.AdviseMeaning | src/checker.js:1223-1224 | the tip is the table entry for the lower-cased, trimmed match when there is one, else the tier's fallback, and never empty |
| Checker.PaddedKeyAdvice | src/checker.js:1223-1224 | a table key padded with spaces gets that key's own advice, since the lookup trims the match first |
| Checker.EmDashAdvice | checker.js:587-588 | a highlighted em dash, with any surrounding spaces, gets the em-dash entry |
| Checker.ExampleMeaning | src/checker.js:1429-1435 | an example is the trimmed match in quotes, cut to 37 characters and `...` when over 40 |
| Checker.ExamplesShape | src/checker.js:1425-1436 | there is at most one example per entry, each quoted and at most 42 characters |
| Checker.TopMatchExamples | src/checker.js:1421-1439 | at most `limit` examples, from the first `limit` entries, each quoted and at most 42 characters |
| Checker.PageOpenerNeverEnds | src/checker.js:74 | the "continues to" opener is not global, so once it matches the page's `exec` loop never ends |
| Checker.LegacyEmDashPairDetected | checker.js:37 | in the older copy one em-dash pair scores 9 and is Slop-detected at sensitivity 3 |
| Checker.LegacyStopWordOpener | checker.js:67-85 | in the older copy each stop-word opener is a Tier 1 pattern with no toggle of its own |
| SettingsDefaults.DefaultsShape | src/settings.js:4-161 | the default lists have 75, 38 and 35 entries, the entries written with an apostrophe in their place |
| Settings.TierWeightAgrees | src/settings.js:355-358 | the editor's weights are 3/2/1 for the tiers, as scored, and 1 for anything else |
| Settings.SpliceOneMeaning | src/settings.js:299 | `splice(i, 1)` removes exactly element i (counting from the end when negative) and keeps the order; an index past the end changes nothing |
| Settings.DeleteUndoesAdd | src/settings.js:299 | deleting the last index removes the element just pushed |
| Settings.TestPatternAgreesWithLoading | src/settings.js:437-501 | the tester finds a pattern exactly when the content script would load it, with the same count |
| Settings.EntryCheckWeakerThanParse | src/settings.js:456 | every parsable pattern passes the entry check, but `//` passes it and fails the parse, the tester and loading |
| Settings.PatternEditor.constructor | src/settings.js:163-168 | the editor starts with empty lists |
| Settings.PatternEditor.LoadPatterns | src/settings.js:179-191 | stored patterns are used, or the defaults with an empty custom list |
| Settings.PatternEditor.AddPattern | src/settings.js:252-272 | empty or malformed input is rejected unchanged; accepted input is trimmed and appended to that tier only, then saved |
| Settings.PatternEditor.AddCustomPattern | src/settings.js:275-295 | the same checks, then the pattern and weight are appended to the custom list and saved; it throws when there is no custom list |
| Settings.PatternEditor.DeletePattern | src/settings.js:298-303 | exactly the indexed element of that list is removed, other lists are untouched, and the result is saved |
| Settings.PatternEditor.ImportPatterns | src/settings.js:376-399 | a file lacking a tier is rejected; a valid one replaces all lists only after confirmation, and is not saved; one without a custom list replaces them and then fails while rendering (`Crashed`) |
| Settings.PatternEditor.ResetToDefaults | src/settings.js:402-415 | after confirmation the lists are the defaults with an empty custom list, and saved; otherwise nothing changes |
| Settings.AddThenDelete | src/settings.js:267 | adding a pattern and deleting it again restores every list |
| SlopDatabase.LegacyDatabaseTiers | slop-machine.js:3-92 | the older database has 79 entries, all in the four known tiers |
| SlopDatabase.DatabaseTiers | src/slop-machine.js:3-256 | the database has 237 entries, all in the four known tiers |
| SlopMachine.TierLabelMeaning | src/slop-machine.js:394-402 | the four known tiers get fixed labels different from their names; any other tier is shown unchanged |
| SlopMachine.DatabaseLabels | slop-machine.js:230-238 | a database whose tiers are all known never reaches the default label |
| SlopMachine.VisibleMeaning | src/slop-machine.js:375-392 | a row is shown iff its tier passes the filter and its lower-cased phrase contains the lower-cased search |
| SlopMachine.SearchNarrows | src/slop-machine.js:384 | extending the search never shows a row that was hidden |
| SlopMachine.FilterIndex | slop-machine.js:211-228 | each row is hidden exactly when it is not visible |
| SlopMachine.PickIndex | src/slop-machine.js:319 | `floor(r × n)` lies in `[0, n)` for `r` in `[0, 1)` |
| SlopMachine.SlotMachine.constructor | src/slop-machine.js:258-262 | the machine starts idle with no spins and nothing learned |
| SlopMachine.SlotMachine.LoadStats | src/slop-machine.js:286-296 | stored stats are loaded, with 0 spins and nothing learned by default |
| SlopMachine.SlotMachine.Spin | src/slop-machine.js:310-322 | while spinning nothing changes; otherwise the machine spins with the pair at `floor(r × n)` |
| SlopMachine.SlotMachine.FinishSpin | src/slop-machine.js:342-348 | one more spin, the phrase learned (at most one new), the learned set stays within the database, and the machine is idle again |
| SlopMachine.SpinTimes | slop-machine.js:146-186 | after n completed spins the count is n and at most n phrases, all from the database, are learned |

## Left out

- Regular-expression matching is a parameter, the `Engine`. Word boundaries, Unicode emoji ranges and repetition bounds are not modelled, and a global scan is assumed to return non-empty spans. Empty matches, where `exec` would not advance `lastIndex`, are excluded by `Patterns.Sound`.
- Lengths and indices count UTF-16 code units in the source; the model counts characters. `toLowerCase` is modelled for ASCII letters only.
- Markdown mode of `highlightText`, `renderMarkdown`, `escapeHtml`, `formatPattern` and `escapeRegExp` are string rewriting for display. The plain-text highlighter is modelled before HTML escaping.
- DOM work is not modelled: selecting and climbing elements in `scanPage` and `removeElement`, the `MutationObserver`, tooltips, timers and rendering. `removeElement` is modelled by the element it marks.
- `chrome.storage`, `chrome.tabs`, the badge, `background.js`, `src/popup.js` and the LinkedIn fixers are not part of this model. Stored values are inputs, and a save is the editor's `saved` field.
- `Math.random` and the spin animation: the random value is an input in `[0, 1)`, and a spin is two steps, `Spin` and `FinishSpin`.
- Detector.SlopDetector.constructor: takes the built-in lists as a parameter (`Detector.ContentLists` on the page, the lists as written) instead of building them, and does not model the settings load it starts without awaiting.
- Patterns.MatchCountMeaning: the count is taken from position 0 for every element. The content script reuses one `RegExp` object per loaded pattern across elements, and a sticky (`y`) pattern without `g` keeps its `lastIndex` from one `match` to the next, so after a match the next element is tried from that index (a user pattern `/In conclusion/y` counts 1 on the first element starting with those words and 0 on the second). That carried state is not modelled; no built-in pattern uses `y`, so only user patterns are affected.
- Detector.StoredCustom: custom weights are modelled as integers. A weight stored as `null` (which adds 0), or missing or `NaN` (which makes the whole score `NaN`, so the element is never hidden), is not modelled; the editor's `parseInt` result is `Settings.CustomEntry.weight`, an `Option`, and is not carried into the detector.
- Settings.PatternEditor.ImportPatterns: JavaScript truthiness of imported values is reduced to present/absent; a present non-array value is not modelled.
- Checker.SortByStartMeaning: states order and permutation, not that `Array.prototype.sort` is stable.
- Checker.FirstFound: the example lookup takes the first span of the global scan, which is what `text.match` with `gi` returns at index 0.
- The pattern tester's highlighting of unique matches and its status messages are not modelled; its parse and count are.

## Findings

| source | as written | input that shows it | evidently intended | confidence | as-written member | corrected member |
|---|---|---|---|---|---|---|
| src/content.js:87-91 | a custom entry whose string does not convert keeps `pattern: undefined`, which survives the `!== null` filter, and `text.match(undefined)` matches the empty string, so the entry adds its weight to every element | custom entry `{pattern: "delve", weight: 10}`, which reaches storage through an imported file (the editor's entry check refuses it) and is saved by the next edit, at sensitivity 3: every element of 100 or more characters is hidden | unconvertible custom entries are dropped like unconvertible tier strings | not executed | Detector.UndefinedCustomPatternExample | Detector.CorrectedCustomMeaning |
| src/content.js:160-171 | three Tier 1 openers are `/mi` without `g`, so `text.match` returns the match and its groups and the count is 1 + groups instead of the number of occurrences | an element of 100 or more characters whose only match is a line "As the market grows, it continues to…", with the default settings: it counts 3 × 3 = 9 and is blocked at sensitivity 3 | the `g` flag, as on every other pattern, so the line counts 3 | not executed | Detector.NonGlobalOpenerOvercounts | Detector.OpenerCountsCorrected |
| src/checker.js:74 | the same three openers are not global (lines 64, 74, 75), so the `exec` loop in `collectAllMatches` returns the same match forever once one matches | any text with a line "As the market grows, it continues to…" | the `g` flag, so the loop ends after the last match | not executed | Checker.PageOpenerNeverEnds | Checker.CollectAllMatches |
