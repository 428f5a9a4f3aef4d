# One Piece TCG match tracker — a Dafny model

The tracker is a single-page web app in which a One Piece card game player
records matches (their leader, the opponent's leader, who went first, win or
loss, format, notes), groups them into tournaments, and reads per-leader
statistics. This project models the logic of its `script.js`:

- **Leader catalog** (`catalog.dfy`): the `processCards` filter over the three
  card feeds (leader cards only, no reprint starter decks ST-15..20 and
  ST-23..28, no variant-art names), de-duplication by card id keeping the
  first card, the card-to-leader mapping, and the fallback list used when the
  feeds cannot be read.
- **Leader identity** (`identity.dfy`): `getLeaderKey` (name|colours|set,
  "unknown" without a name) and `getLeaderDisplayName` ("Unknown" without a
  name).
- **Filters** (`filters.dfy`): the match-history filter and the leader detail
  filter — five checkbox categories, OR within a category, AND across
  categories, an empty category not applied; the history looks at my leader,
  the detail view at the opposing one.
- **Statistics** (`stats.dfy`): the per-leader dictionaries built with
  `forEach` (my leaders, opponents, the detail breakdown with turn-order
  counters, the tournament breakdown), turned into an array and sorted by
  match count; and the two-filter win/loss records.
- **State** (`store.dfy`): a `Tracker` object holding the page's module-level
  variables, with the operations that change them: submit (create or edit),
  edit from the detail view, delete, clear history, create a tournament,
  record a tournament round, open, continue and close a tournament, delete or
  clear tournaments, toggle and remove
  background cards.

`text.dfy` and `seqs.dfy` hold the string and array operations the code relies
on (`toLowerCase`, `includes`, `split`, `join`, the `/ST-(\d+)/` capture,
`filter`, `indexOf`/`findIndex`); `records.dfy` the match and tournament
records; `wrappers.dfy` the `Option` type. JavaScript's missing values are
modelled as `""` for strings that are only tested for truthiness, `[]` for a
missing colour list, and `None` for `turnOrder`, `gameFormat`, a failed
`parseInt`, or a selection not yet made. A JavaScript object used as a
dictionary keeps its keys in insertion order (the keys are never
integer-like), so it is a sequence of entries; `Array.prototype.sort` is
stable, so the sort is a stable insertion sort.

## Model

| member | source | states |
|---|---|---|
| Catalog.ProcessCards | script.js:28-55 | keeps exactly the cards whose type is "Leader", whose set id names no reprint starter deck and whose lower-cased name holds no variant word, in input order, each as many times as it occurs in the input |
| Catalog.ProcessFeedsSeparately | script.js:58-63 | filtering each feed and concatenating equals filtering the concatenated feeds |
| Catalog.StarterSetId | script.js:33-40 | for "ST-" followed by digits the captured number is the digits' value, and the card is a reprint exactly when it lies in 15..20 or 23..28 |
| Catalog.StarterSetNumberLeftmost | script.js:34-36 | the leftmost `ST-` followed by a digit wins: text before it that holds no match, and text after its digits that does not start with a digit, do not change the captured number |
| Catalog.StarterExamples | script.js:33-40 | a leader from "ST-17" is dropped; one from "ST-14" is kept exactly when its name marks no variant |
| Catalog.DedupProperties | script.js:65-72 | after de-duplication card ids are pairwise distinct, every input card id is present, and each kept card is the first input card with its id |
| Catalog.DedupByCardId | script.js:65-72 | the `forEach` filling the id-keyed map yields the first card of each id in insertion order |
| Catalog.ToLeader | script.js:74-80 | the colour list has at least one entry, no entry holds a space, and joined with spaces it gives back the card's colour string, so it is the string split on spaces; name, set, card id and image are the card's `card_name`, `set_id`, `card_set_id` and `card_image` |
| Catalog.FallbackLeaders | script.js:93-105 | the fallback list has at most ten leaders, each named, single-coloured and from set "OP-01" |
| Catalog.CatalogProperties | script.js:57-82 | card ids in the built catalog are unique; every surviving card's id is present; each entry is made from the first surviving card with its id |
| Catalog.LeadersFromKept | script.js:65-82 | the same three properties for the de-duplication and mapping of any list of surviving cards |
| Catalog.BuildLeaders | script.js:9-90 | a failed fetch gives the fallback list; otherwise the result is the processed, concatenated, de-duplicated and mapped feeds |
| Identity.SetOrUnknown | script.js:127 | the set id when it is non-empty, and "?" when it is empty |
| Identity.LeaderKey | script.js:124-129 | "unknown" exactly when the leader is missing or nameless; otherwise holds the bar separator |
| Identity.DisplayName | script.js:116-122 | "Unknown" exactly when the leader is missing or nameless; otherwise the name and a space, then the colour icons, then " [", the set or "?", and "]" |
| Identity.ColorIcon | script.js:107-118 | each of the six known colours becomes a one-character icon; any other colour is kept as it is |
| Identity.ColorIconsKnown | script.js:118 | a list of known colours gives one icon character per colour |
| Identity.ColorIconsUnknown | script.js:118 | colours without an icon are written out one after another with nothing between them |
| Identity.KeyIgnoresCardIdAndImage | script.js:116-129 | leaders that differ only in card id or image get the same key and the same display name |
| Identity.KeyIdentifiesLeader | script.js:124-129 | for two leaders with non-empty names that hold no bar, and with at least one colour each, no colour holding a comma or bar, the keys are equal exactly when name, colour list and set-or-"?" are equal |
| Records.Other | script.js:1001 | the detail view groups by the side opposite to the one it is about |
| Filters.HistoryFilter | script.js:755-787 | a match is kept exactly when it passes every category on my leader; the result is an order-preserving subsequence holding each kept match as often as the input does |
| Filters.DetailFilter | script.js:1407-1443 | the same tests on the opposing leader; the result is an order-preserving subsequence holding each kept match as often as the input does |
| Filters.PassesEveryCategory | script.js:755-787 | AND across categories: a match passes exactly when each category has nothing checked or accepts it |
| Filters.AcceptsUnion | script.js:755-787 | OR within a category: checking two value lists together accepts what either accepts |
| Filters.FilterOrLaw | script.js:755-787 | with a category checked as xs + ys, a match is kept exactly when it is kept with xs or with ys |
| Filters.NothingChosenKeepsAll | script.js:755-787 | with nothing checked, the filter returns the whole list |
| Filters.PassesSplit | script.js:1407-1443 | passing a selection is passing one category alone and the rest without it |
| Filters.FilterInStages | script.js:1407-1443 | filtering by one category and then by the others gives the same list as filtering by all |
| Filters.WithLeaderKey | script.js:944-949 | the matches of one leader are exactly those whose leader on that side has the key, and equal a leader filter with that one key |
| Filters.WithLeaderKeySnoc | script.js:944-949 | one more match joins only its own leader's list |
| Stats.CountsConsistent | script.js:1016-1034 | wins + losses = total, firstWins <= firstTotal, secondWins <= secondTotal, firstTotal + secondTotal <= total |
| Stats.CountsSnoc | script.js:1016-1034 | counting one more match changes the counters exactly as the increments of one callback do |
| Stats.ExpectedSnoc | script.js:615-631 | one more match changes its own leader's reference counts by one callback's increments and no other leader's |
| Stats.ExpectedAbsent | script.js:617-624 | a leader with no matches has all counters zero, as a freshly created entry |
| Stats.Record | script.js:951-953 | the two-filter record: wins plus losses is the total, at most the number of matches (also the tournament progress line at 1992-1993) |
| Stats.RecordAgreesWithTable | script.js:951-953 | when every result is "win" or "loss", a leader's detail record equals that leader's table row |
| Stats.GroupsKeys | script.js:615-624 | the dictionary has one entry per distinct key among the matches, and no other |
| Stats.AddExpected | script.js:615-631 | one callback keeps every entry equal to its leader's reference counts |
| Stats.GroupsExpected | script.js:615-631 | every entry's counters equal the filter-counted reference counts of its leader |
| Stats.AddLeaders | script.js:617-624 | one callback keeps each entry's snapshot that of its leader's first match |
| Stats.GroupsLeaders | script.js:617-624 | each entry's leader snapshot is the one of the first match with its key |
| Stats.AddOrder | script.js:634 | one callback keeps entries in order of their keys' first appearance |
| Stats.GroupsOrder | script.js:634 | `Object.values` lists entries in the order their keys first appear among the matches |
| Stats.GroupsSum | script.js:615-631 | the totals sum to the number of matches: each match is counted once |
| Stats.Insert | script.js:635 | insertion adds exactly the one entry (as a multiset) |
| Stats.SortByTotal | script.js:635 | the sort is a permutation |
| Stats.InsertSorted | script.js:635 | inserting into a list sorted by descending total keeps it sorted |
| Stats.SortSorted | script.js:635 | the result is sorted by descending total |
| Stats.InsertStable | script.js:635 | insertion puts the new entry after all entries with the same total |
| Stats.SortStable | script.js:635 | entries with equal totals keep their relative order |
| Stats.SortDistinct | script.js:635 | sorting keeps keys distinct |
| Stats.SumSort | script.js:635 | sorting keeps the sum of totals |
| Stats.CountMatch | script.js:1016-1034 | the increments of one callback: total +1, win or loss +1, and the turn-order counters when tracked |
| Stats.Tally | script.js:613-635 | the statistics loop yields the sorted dictionary built one match at a time (also 678-699, 999-1037, 2216-2235) |
| Stats.TallyProperties | script.js:613-635 | the table is sorted by descending total with ties in first-appearance order, has one entry per distinct key, each entry is its leader's reference counts with consistent counters and its first snapshot, and the totals sum to the number of matches |
| Store.EditAt | script.js:414-437 | an edit keeps every id, leaves every other record alone, keeps the edited record's date, format and tournament id, and overwrites leaders, turn order, result, notes and gameFormat; an absent id changes nothing |
| Store.EditIdempotent | script.js:414-437 | applying the same edit twice is applying it once |
| Store.RemoveId | script.js:569 | no record with the id remains, every other record does, in order and with its multiplicity |
| Store.EditAfterRemove | script.js:569 | editing a deleted id changes nothing |
| Store.RemoveAbsent | script.js:569 | deleting an id no record has changes nothing |
| Store.RemoveFirst | script.js:1769-1780 | when the image is chosen, its first occurrence goes and the others keep their order; an absent image leaves the list unchanged |
| Store.RemoveFirstDistinct | script.js:1769-1780 | on distinct cards, removal keeps them distinct and takes away exactly that image |
| Store.Toggle | script.js:1725-1738 | a chosen image is removed as by `RemoveFirst`; an unchosen one is appended at the end while fewer than ten are chosen; a full list is left unchanged; the selection never grows beyond ten |
| Store.ToggleDistinct | script.js:1725-1738 | toggling keeps cards distinct, flips whether the image is chosen unless the list is full, and changes no other card |
| Store.ToggleTwice | script.js:1725-1738 | choosing an image and unchoosing it restores the selection |
| Store.NegativeRoundsAccepted | script.js:1900-1903 | as written, a negative round count is accepted and the new tournament breaks the completion invariant |
| Store.AcceptedTournamentWellFormed | script.js:1900-1915 | with at least one round, a new tournament is accepted and has no matches, is not completed and keeps the completion invariant |
| Store.RoundMatch | script.js:2064-2074 | the corrected round record differs from the written one only in carrying the format in `gameFormat` |
| Store.RoundMatchAsWrittenMissesFormat | script.js:2064-2074 | as written, a round never passes the format filter on its own tournament's format |
| Store.RoundMatchPassesFormat | script.js:2064-2074 | the corrected round passes the format filter on its tournament's format |
| Store.RemoveTournament | script.js:2387 | no tournament with the id remains, every other does, in order and with its multiplicity |
| Store.RecordRound | script.js:2077-2086 | the round is appended, nothing else changes, `completed` becomes true exactly when it was already true or the rounds recorded reach the target, and the completion invariant is kept |
| Store.Tracker.constructor | script.js:130-141 | the state starts empty with no edit and no open tournament |
| Store.Tracker.BeginEdit | script.js:841-846 | an edit starts only for an id that exists |
| Store.Tracker.Submit | script.js:406-476 | with an edit in progress the list is the edited list and the edit ends; otherwise exactly one new record is prepended; nothing else changes |
| Store.Tracker.SubmitEdit | script.js:1292-1340 | without an edit nothing changes; when the edited match exists but a leader is not selected, reading its name throws and the list and the edit stay as they were; otherwise the list is the edited list and the edit ends |
| Store.Tracker.DeleteMatch | script.js:566-570 | the match list loses exactly the records with the id; tournaments stay |
| Store.Tracker.ClearAllHistory | script.js:1543-1562 | the match list empties only when it was non-empty and both confirmations are given |
| Store.Tracker.SaveTournament | script.js:1890-1925 | saves exactly when the validated form is accepted, appending the new tournament and opening it |
| Store.Tracker.SaveTournamentMatch | script.js:2053-2092 | with an open tournament and all selections, the round is appended to that tournament and to the end of the match list, and the round that reaches the target closes the open tournament (script.js:2003-2014); otherwise nothing changes |
| Store.Tracker.ContinueTournament | script.js:2179-2182 | the given id becomes the open tournament, whether or not a tournament has it; nothing else changes |
| Store.Tracker.OpenTournamentDetail | script.js:2185-2189 | the id becomes the open tournament only when a tournament has it; nothing else changes |
| Store.Tracker.CloseTournamentMatchModal | script.js:2003-2014 | closing keeps the open tournament only when it exists, is short of its target and the confirmation is refused; otherwise no tournament is open; nothing else changes |
| Store.Tracker.CloseTournamentDetail | script.js:2374-2378 | no tournament is open afterwards; nothing else changes |
| Store.Tracker.DeleteTournament | script.js:2381-2391 | a confirmed delete of the open tournament removes it and closes it; the match list never changes |
| Store.Tracker.ClearAllTournaments | script.js:2394-2408 | tournaments empty only after both confirmations; the match list never changes |
| Store.Tracker.ToggleCardSelection | script.js:1725-1738 | the selection becomes the toggled list, stays distinct and at most ten |
| Store.Tracker.RemoveBackgroundCard | script.js:1769-1780 | the image is no longer chosen and nothing else changes |
| Seqs.IndexOf | script.js:414 | the `findIndex`/`indexOf` loop returns the first position of the value, or -1 when it does not occur |

## Left out

- Network: the three card feeds are inputs; a failed fetch or JSON parse is `None`. The alternate-art lookup of the detail page and the background carousel's card list are not part of this model.
- Catalog.BuildLeaders: does not sort the catalog by name, because `localeCompare` depends on the locale; the tournament list's date sort is left out for the same kind of reason.
- Catalog.BuildLeaders: a Leader card outside the reprint starter decks that has no name makes `toLowerCase` throw (script.js:44), after the type and set tests have let it through, which sends the whole build to the fallback list; in the model a missing name is "" and the card is simply processed.
- Catalog.BuildLeaders: a surviving leader card without `card_color` makes `split` throw (script.js:77), which also sends the whole build to the fallback list; in the model a missing colour is "" and the leader gets the colour list [""].
- Text.Lower: folds ASCII letters only; `toLowerCase` also folds other letters, which no variant word is made of.
- Win rates, `toFixed` and `getWinRateColor`: floating point; a rate is the pair (wins, total).
- Stats.Tally: the overview tables have no turn-order counters in the source; the model has them and leaves them at zero.
- The tournament detail header's turn-order win rates (script.js:2205-2212) are the counters of `Stats.Counts` over the tournament's matches; they have no member of their own.
- Rendering, `innerHTML`, `alert`, the `Math.random` shuffle and timers; `confirm` answers are method parameters.
- `localStorage` and JSON persistence: `saveMatches`/`saveTournaments` write the state the methods leave; loading is not modelled, so the state starts empty.
- `Date.now()` ids and ISO dates are parameters; ids are taken as given, not checked for freshness.
- Store.Tracker.Submit: the notes are taken already trimmed; `trim()` is not modelled.
- Store.Tracker.SaveTournament: the location arrives already trimmed; the `trim()` at script.js:1895 is not modelled.
- Store.Tracker.SubmitEdit: its notes arrive already trimmed; the `trim()` at script.js:1297 is not modelled.
- Store.Tracker.SaveTournamentMatch: its form's notes arrive already trimmed; the `trim()` at script.js:2057 is not modelled.
- Store.Tracker.Submit: takes a complete form; the enabled-button check (script.js:400) that guarantees it is form state.
- Store.Tracker.SubmitEdit: the detail-view refresh that follows an edit is rendering; it reads `matches[-1]` when the id is gone, which the model does not reproduce.
- Store.Tracker.BeginEdit: only the editing id is modelled; pre-filling the form is form state. The first `editMatch` (script.js:506) is overridden by the second.
- A tournament round is one object in two lists in the source; the model stores two equal values. No operation mutates a match in place (edits build a new object), so the two behave alike.
- Store.Tracker.SaveTournament: uses the corrected validation (at least one round) described under Findings.
- Store.Tracker.SaveTournamentMatch: builds the corrected round record described under Findings.

## Findings

| source | as written | input that shows it | evidently intended | confidence | as-written member | corrected member |
|---|---|---|---|---|---|---|
| script.js:2064-2074 | a tournament round stores the tournament's format in `format` and leaves `gameFormat` unset, while both format filters (script.js:762, 1417) read `gameFormat` | a tournament with format "Standard": with "Standard" checked, none of its rounds is listed | the round also carries the format in `gameFormat` | medium, not executed | Store.RoundMatchAsWrittenMissesFormat | Store.RoundMatchPassesFormat |
| script.js:1900 | the test on `!rounds` and `isNaN(rounds)` rejects only 0 and NaN | rounds "-1": the tournament is saved with `completed` false although 0 >= -1, so `completed` no longer means `matches.length >= rounds` | at least one round is required | low, not executed | Store.NegativeRoundsAccepted | Store.AcceptedTournamentWellFormed |
