/**
 * The match filters of the history list (`updateMatchHistory`) and of the
 * single-leader detail view (`applyDetailFilters`): five checkbox categories,
 * OR within a category, AND across categories, an empty category not applied.
 * The two differ only in which leader of a match the leader and colour
 * categories inspect: my own leader in the history, the opposing leader in
 * the detail view.
 */
module Filters {
  import opened Wrappers
  import opened Seqs
  import opened Identity
  import opened Records

  datatype Category = ByLeader | ByFormat | ByColor | ByResult | ByTurnOrder

  /** The checked values of each category. */
  datatype Selection = Selection(
    leaders: seq<string>,
    formats: seq<string>,
    colors: seq<string>,
    results: seq<string>,
    turnOrders: seq<string>)

  function Chosen(sel: Selection, c: Category): seq<string> {
    match c
    case ByLeader => sel.leaders
    case ByFormat => sel.formats
    case ByColor => sel.colors
    case ByResult => sel.results
    case ByTurnOrder => sel.turnOrders
  }

  /** The selection with category c's checked values replaced by xs. */
  function With(sel: Selection, c: Category, xs: seq<string>): (r: Selection)
    ensures Chosen(r, c) == xs
    ensures forall d :: d != c ==> Chosen(r, d) == Chosen(sel, d)
  {
    match c
    case ByLeader => sel.(leaders := xs)
    case ByFormat => sel.(formats := xs)
    case ByColor => sel.(colors := xs)
    case ByResult => sel.(results := xs)
    case ByTurnOrder => sel.(turnOrders := xs)
  }

  /** Whether a match's value in category c is among the checked values. */
  predicate Accepts(c: Category, chosen: seq<string>, m: Match, leader: Leader) {
    match c
    case ByLeader => LeaderKey(Some(leader)) in chosen
    case ByFormat => m.gameFormat.Some? && m.gameFormat.value in chosen
    case ByColor => exists color :: color in chosen && color in leader.colors
    case ByResult => m.result in chosen
    case ByTurnOrder => m.turnOrder.Some? && m.turnOrder.value in chosen
  }

  /** One category's test: nothing checked, or the match's value is checked. */
  predicate PassesCategory(c: Category, chosen: seq<string>, m: Match, leader: Leader) {
    |chosen| == 0 || Accepts(c, chosen, m, leader)
  }

  /** The filter callback; `side` is the leader the leader and colour tests look at. */
  predicate Passes(m: Match, sel: Selection, side: Side) {
    var leader := Pick(m, side);
    && PassesCategory(ByLeader, sel.leaders, m, leader)
    && PassesCategory(ByFormat, sel.formats, m, leader)
    && PassesCategory(ByColor, sel.colors, m, leader)
    && PassesCategory(ByResult, sel.results, m, leader)
    && PassesCategory(ByTurnOrder, sel.turnOrders, m, leader)
  }

  /** The filter callback as a function value. */
  function PassTest(sel: Selection, side: Side): Match -> bool {
    m => Passes(m, sel, side)
  }

  function FilterBy(ms: seq<Match>, sel: Selection, side: Side): seq<Match> {
    Filter(ms, PassTest(sel, side))
  }

  /** The history list's filter: keeps, in order, the matches of `ms` that pass, looking at my leader. */
  function HistoryFilter(ms: seq<Match>, sel: Selection): (r: seq<Match>)
    ensures forall m :: m in r <==> m in ms && Passes(m, sel, Mine)
    ensures IsSubsequence(r, ms)
    ensures forall m :: multiset(r)[m] == if Passes(m, sel, Mine) then multiset(ms)[m] else 0
  {
    FilterIsSubsequence(ms, PassTest(sel, Mine));
    FilterMultiset(ms, PassTest(sel, Mine));
    FilterBy(ms, sel, Mine)
  }

  /** The detail view's filter; `view` is the side the detail page is about, so the tests look at the other. */
  function DetailFilter(ms: seq<Match>, sel: Selection, view: Side): (r: seq<Match>)
    ensures forall m :: m in r <==> m in ms && Passes(m, sel, Other(view))
    ensures IsSubsequence(r, ms)
    ensures forall m :: multiset(r)[m] == if Passes(m, sel, Other(view)) then multiset(ms)[m] else 0
  {
    FilterIsSubsequence(ms, PassTest(sel, Other(view)));
    FilterMultiset(ms, PassTest(sel, Other(view)));
    FilterBy(ms, sel, Other(view))
  }

  /** AND across categories: a match passes exactly when it passes every category. */
  lemma PassesEveryCategory(m: Match, sel: Selection, side: Side)
    ensures Passes(m, sel, side) <==> forall c :: PassesCategory(c, Chosen(sel, c), m, Pick(m, side))
  {
    if Passes(m, sel, side) {
      forall c ensures PassesCategory(c, Chosen(sel, c), m, Pick(m, side)) {
        match c
        case ByLeader =>
        case ByFormat =>
        case ByColor =>
        case ByResult =>
        case ByTurnOrder =>
      }
    } else {
      var l := Pick(m, side);
      assert !PassesCategory(ByLeader, Chosen(sel, ByLeader), m, l)
          || !PassesCategory(ByFormat, Chosen(sel, ByFormat), m, l)
          || !PassesCategory(ByColor, Chosen(sel, ByColor), m, l)
          || !PassesCategory(ByResult, Chosen(sel, ByResult), m, l)
          || !PassesCategory(ByTurnOrder, Chosen(sel, ByTurnOrder), m, l);
    }
  }

  /** OR within a category: checking xs and ys together accepts what either accepts alone. */
  lemma AcceptsUnion(c: Category, xs: seq<string>, ys: seq<string>, m: Match, leader: Leader)
    ensures Accepts(c, xs + ys, m, leader) <==> Accepts(c, xs, m, leader) || Accepts(c, ys, m, leader)
  {
    if c == ByColor {
      if Accepts(c, xs + ys, m, leader) {
        var color :| color in xs + ys && color in leader.colors;
        assert color in xs || color in ys;
      }
      if Accepts(c, xs, m, leader) {
        var color :| color in xs && color in leader.colors;
        assert color in xs + ys;
      }
      if Accepts(c, ys, m, leader) {
        var color :| color in ys && color in leader.colors;
        assert color in xs + ys;
      }
    }
  }

  /**
   * The filter's OR/AND law: with category c checked as xs + ys (both non-empty)
   * and the other categories as they are, a match is kept exactly when it is
   * kept with c checked as xs or with c checked as ys.
   */
  lemma FilterOrLaw(ms: seq<Match>, sel: Selection, side: Side, c: Category, xs: seq<string>, ys: seq<string>)
    requires |xs| > 0 && |ys| > 0
    ensures forall m :: (m in FilterBy(ms, With(sel, c, xs + ys), side)
        <==> m in FilterBy(ms, With(sel, c, xs), side) || m in FilterBy(ms, With(sel, c, ys), side))
  {
    forall m ensures Passes(m, With(sel, c, xs + ys), side)
        <==> Passes(m, With(sel, c, xs), side) || Passes(m, With(sel, c, ys), side)
    {
      AcceptsUnion(c, xs, ys, m, Pick(m, side));
      PassesEveryCategory(m, With(sel, c, xs + ys), side);
      PassesEveryCategory(m, With(sel, c, xs), side);
      PassesEveryCategory(m, With(sel, c, ys), side);
      PassesEveryCategory(m, With(sel, c, []), side);
      var l := Pick(m, side);
      assert forall d :: d != c ==> Chosen(With(sel, c, xs + ys), d) == Chosen(With(sel, c, []), d);
      assert forall d :: d != c ==> Chosen(With(sel, c, xs), d) == Chosen(With(sel, c, []), d);
      assert forall d :: d != c ==> Chosen(With(sel, c, ys), d) == Chosen(With(sel, c, []), d);
    }
  }

  predicate NoneChosen(sel: Selection) {
    sel.leaders == [] && sel.formats == [] && sel.colors == [] && sel.results == [] && sel.turnOrders == []
  }

  /** With nothing checked the list is shown whole. */
  lemma NothingChosenKeepsAll(ms: seq<Match>, sel: Selection, side: Side)
    requires NoneChosen(sel)
    ensures FilterBy(ms, sel, side) == ms
  {
    FilterAll(ms, PassTest(sel, side));
  }

  /** A match passes a selection when it passes category c alone and the others without c. */
  lemma PassesSplit(m: Match, sel: Selection, side: Side, c: Category)
    ensures Passes(m, sel, side)
        <==> Passes(m, With(NoSelection(), c, Chosen(sel, c)), side) && Passes(m, With(sel, c, []), side)
  {
    var only := With(NoSelection(), c, Chosen(sel, c));
    var rest := With(sel, c, []);
    PassesEveryCategory(m, only, side);
    PassesEveryCategory(m, rest, side);
    PassesEveryCategory(m, sel, side);
    assert forall d :: d != c ==> Chosen(only, d) == [];
  }

  /** Applying category c alone and then the others is the same as applying all at once. */
  lemma {:induction false} FilterInStages(ms: seq<Match>, sel: Selection, side: Side, c: Category)
    ensures FilterBy(FilterBy(ms, With(NoSelection(), c, Chosen(sel, c)), side), With(sel, c, []), side)
         == FilterBy(ms, sel, side)
    decreases |ms|
  {
    if ms != [] {
      var m := ms[0];
      var only := With(NoSelection(), c, Chosen(sel, c));
      var rest := With(sel, c, []);
      PassesSplit(m, sel, side, c);
      FilterInStages(ms[1..], sel, side, c);
      var tail := FilterBy(ms[1..], only, side);
      if Passes(m, only, side) {
        assert FilterBy(ms, only, side) == [m] + tail;
        assert ([m] + tail)[0] == m && ([m] + tail)[1..] == tail;
      } else {
        assert FilterBy(ms, only, side) == tail;
      }
    }
  }

  function NoSelection(): (r: Selection)
    ensures NoneChosen(r)
  {
    Selection([], [], [], [], [])
  }

  /** `getLeaderKey(side's leader) === key` as a function value. */
  function KeyTest(side: Side, key: string): Match -> bool {
    m => LeaderKey(Some(Pick(m, side))) == key
  }

  /** The matches of one leader (`showLeaderDetail`, `filterMatchupHistory`): a leader filter with one key. */
  function WithLeaderKey(ms: seq<Match>, side: Side, key: string): (r: seq<Match>)
    ensures forall m :: m in r <==> m in ms && LeaderKey(Some(Pick(m, side))) == key
    ensures r == FilterBy(ms, With(NoSelection(), ByLeader, [key]), side)
  {
    var sel := With(NoSelection(), ByLeader, [key]);
    assert forall m :: Passes(m, sel, side) <==> LeaderKey(Some(Pick(m, side))) == key;
    FilterExtensional(ms, KeyTest(side, key), PassTest(sel, side));
    Filter(ms, KeyTest(side, key))
  }

  /** One more match at the end joins the list of its leader's matches only. */
  lemma WithLeaderKeySnoc(ms: seq<Match>, m: Match, side: Side, key: string)
    ensures WithLeaderKey(ms + [m], side, key)
         == WithLeaderKey(ms, side, key) + (if LeaderKey(Some(Pick(m, side))) == key then [m] else [])
  {
    FilterSnoc(ms, m, KeyTest(side, key));
  }
}
