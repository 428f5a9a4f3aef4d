/**
 * Per-leader statistics: the `leaderStats`, `matchupStats` and
 * `matchupBreakdown` dictionaries built with `forEach`, turned into an array
 * with `Object.values` and sorted by match count. A dictionary is a sequence
 * of entries in insertion order (its keys are never integer-like, so this is
 * the order `Object.values` yields).
 */
module Stats {
  import opened Wrappers
  import opened Seqs
  import opened Identity
  import opened Records
  import opened Filters

  /**
   * One dictionary entry. The turn-order counters exist only in the leader
   * detail breakdown; the overview tables leave them at zero.
   */
  datatype Stat = Stat(
    leader: Leader,
    wins: nat,
    losses: nat,
    total: nat,
    firstWins: nat,
    firstTotal: nat,
    secondWins: nat,
    secondTotal: nat)

  function KeyOf(s: Stat): string {
    LeaderKey(Some(s.leader))
  }

  /** The dictionary key of a match, seen from one side. */
  function KeyAt(m: Match, side: Side): string {
    LeaderKey(Some(Pick(m, side)))
  }

  function Keys(gs: seq<Stat>): (r: seq<string>)
    ensures |r| == |gs|
    ensures forall i :: 0 <= i < |gs| ==> r[i] == KeyOf(gs[i])
  {
    seq(|gs|, i requires 0 <= i < |gs| => KeyOf(gs[i]))
  }

  /** The key of every match, in match order. */
  function MatchKeys(ms: seq<Match>, side: Side): (r: seq<string>)
    ensures |r| == |ms|
    ensures forall i :: 0 <= i < |ms| ==> r[i] == KeyAt(ms[i], side)
  {
    seq(|ms|, i requires 0 <= i < |ms| => KeyAt(ms[i], side))
  }

  predicate IsWin(m: Match) { m.result == "win" }
  /** The `else` branch of the win test: anything but "win" counts as a loss. */
  predicate IsLoss(m: Match) { m.result != "win" }
  predicate GoesFirst(m: Match) { m.turnOrder == Some("first") }
  predicate GoesSecond(m: Match) { m.turnOrder == Some("second") }
  predicate FirstWin(m: Match) { GoesFirst(m) && IsWin(m) }
  predicate SecondWin(m: Match) { GoesSecond(m) && IsWin(m) }

  /** A fresh entry for the first match of a leader. */
  function Zero(leader: Leader): Stat {
    Stat(leader, 0, 0, 0, 0, 0, 0, 0)
  }

  /** The counter increments one match makes to its entry. */
  function Count(st: Stat, m: Match, splitTurns: bool): Stat {
    Stat(st.leader,
         st.wins + (if IsWin(m) then 1 else 0),
         st.losses + (if IsWin(m) then 0 else 1),
         st.total + 1,
         st.firstWins + (if splitTurns && FirstWin(m) then 1 else 0),
         st.firstTotal + (if splitTurns && GoesFirst(m) then 1 else 0),
         st.secondWins + (if splitTurns && SecondWin(m) then 1 else 0),
         st.secondTotal + (if splitTurns && GoesSecond(m) then 1 else 0))
  }

  /** The counters of a list of matches that all belong to one leader. */
  function Counts(mine: seq<Match>, leader: Leader, splitTurns: bool): Stat {
    Stat(leader,
         |Filter(mine, IsWin)|,
         |Filter(mine, IsLoss)|,
         |mine|,
         if splitTurns then |Filter(mine, FirstWin)| else 0,
         if splitTurns then |Filter(mine, GoesFirst)| else 0,
         if splitTurns then |Filter(mine, SecondWin)| else 0,
         if splitTurns then |Filter(mine, GoesSecond)| else 0)
  }

  /**
   * Reference definition of an entry, independent of the dictionary: the
   * counts of the matches of that leader, each a filter of them.
   */
  function Expected(ms: seq<Match>, side: Side, leader: Leader, splitTurns: bool): Stat {
    Counts(WithLeaderKey(ms, side, LeaderKey(Some(leader))), leader, splitTurns)
  }

  /** The invariants every entry keeps. */
  predicate Consistent(s: Stat) {
    && s.wins + s.losses == s.total
    && s.firstWins <= s.firstTotal
    && s.secondWins <= s.secondTotal
    && s.firstTotal + s.secondTotal <= s.total
  }

  /** Wins and losses add up to the total, and first/second split the total. */
  lemma CountsConsistent(mine: seq<Match>, leader: Leader, splitTurns: bool)
    ensures Consistent(Counts(mine, leader, splitTurns))
  {
    FilterSplitCount(mine, IsWin, IsLoss);
    FilterMonotoneCount(mine, FirstWin, GoesFirst);
    FilterMonotoneCount(mine, SecondWin, GoesSecond);
    FilterDisjointCount(mine, GoesFirst, GoesSecond);
  }

  /** Counting one more match is what `Count` does. */
  lemma CountsSnoc(mine: seq<Match>, m: Match, leader: Leader, splitTurns: bool)
    ensures Counts(mine + [m], leader, splitTurns) == Count(Counts(mine, leader, splitTurns), m, splitTurns)
  {
    FilterSnoc(mine, m, IsWin);
    FilterSnoc(mine, m, IsLoss);
    FilterSnoc(mine, m, FirstWin);
    FilterSnoc(mine, m, GoesFirst);
    FilterSnoc(mine, m, SecondWin);
    FilterSnoc(mine, m, GoesSecond);
  }

  /** One more match changes its own leader's entry by `Count` and no other entry. */
  lemma ExpectedSnoc(ms: seq<Match>, m: Match, side: Side, leader: Leader, splitTurns: bool)
    ensures Expected(ms + [m], side, leader, splitTurns)
         == if KeyAt(m, side) == LeaderKey(Some(leader))
            then Count(Expected(ms, side, leader, splitTurns), m, splitTurns)
            else Expected(ms, side, leader, splitTurns)
  {
    var key := LeaderKey(Some(leader));
    WithLeaderKeySnoc(ms, m, side, key);
    var mine := WithLeaderKey(ms, side, key);
    if KeyAt(m, side) == key {
      CountsSnoc(mine, m, leader, splitTurns);
    } else {
      assert mine + [] == mine;
    }
  }

  /** A leader with no matches has an all-zero entry. */
  lemma ExpectedAbsent(ms: seq<Match>, side: Side, leader: Leader, splitTurns: bool)
    requires LeaderKey(Some(leader)) !in MatchKeys(ms, side)
    ensures Expected(ms, side, leader, splitTurns) == Zero(leader)
  {
    var key := LeaderKey(Some(leader));
    forall i | 0 <= i < |ms| ensures !KeyTest(side, key)(ms[i]) {
      assert MatchKeys(ms, side)[i] in MatchKeys(ms, side);
    }
    FilterNone(ms, KeyTest(side, key));
  }

  /** A recorded loss, as the detail and tournament records count it. */
  predicate IsLossResult(m: Match) { m.result == "loss" }

  datatype WinLoss = WinLoss(wins: nat, losses: nat, total: nat)

  /**
   * The win/loss record of a list of matches, counted with two filters:
   * the leader detail header and the tournament progress line.
   */
  function Record(ms: seq<Match>): (r: WinLoss)
    ensures r.wins + r.losses == r.total <= |ms|
  {
    FilterDisjointCount(ms, IsWin, IsLossResult);
    var wins := |Filter(ms, IsWin)|;
    var losses := |Filter(ms, IsLossResult)|;
    WinLoss(wins, losses, wins + losses)
  }

  /**
   * When every result is "win" or "loss", the detail header of a leader
   * shows the same record as that leader's row in the statistics table.
   */
  lemma RecordAgreesWithTable(ms: seq<Match>, side: Side, leader: Leader)
    requires forall m :: m in ms ==> m.result == "win" || m.result == "loss"
    ensures var r := Record(WithLeaderKey(ms, side, LeaderKey(Some(leader))));
      var e := Expected(ms, side, leader, false);
      r.wins == e.wins && r.losses == e.losses && r.total == e.total
  {
    var mine := WithLeaderKey(ms, side, LeaderKey(Some(leader)));
    forall i | 0 <= i < |mine| ensures IsLoss(mine[i]) == IsLossResult(mine[i]) {
      assert mine[i] in mine;
    }
    FilterExtensional(mine, IsLoss, IsLossResult);
    CountsConsistent(mine, leader, false);
  }

  // ---------------------------------------------------------------------
  // The dictionary built by `forEach`

  /** One `forEach` step: create the entry on first sight, then count the match. */
  function Add(gs: seq<Stat>, m: Match, side: Side, splitTurns: bool): seq<Stat> {
    var k := Find(Keys(gs), KeyAt(m, side));
    if k == -1 then gs + [Count(Zero(Pick(m, side)), m, splitTurns)]
    else gs[k := Count(gs[k], m, splitTurns)]
  }

  /** The dictionary after all matches, in insertion order. */
  function Groups(ms: seq<Match>, side: Side, splitTurns: bool): seq<Stat>
    decreases |ms|
  {
    if ms == [] then []
    else Add(Groups(ms[..|ms| - 1], side, splitTurns), ms[|ms| - 1], side, splitTurns)
  }

  predicate DistinctKeys(gs: seq<Stat>) {
    forall i, j :: 0 <= i < j < |gs| ==> KeyOf(gs[i]) != KeyOf(gs[j])
  }

  /** Counting a match keeps the entry's leader, hence its key. */
  lemma AddKeys(gs: seq<Stat>, m: Match, side: Side, splitTurns: bool)
    ensures Keys(Add(gs, m, side, splitTurns))
         == if KeyAt(m, side) in Keys(gs) then Keys(gs) else Keys(gs) + [KeyAt(m, side)]
  {
  }

  lemma MatchKeysSnoc(ms: seq<Match>, m: Match, side: Side)
    ensures MatchKeys(ms + [m], side) == MatchKeys(ms, side) + [KeyAt(m, side)]
  {
  }

  /** The keys of the dictionary are exactly the distinct keys of the matches, each once. */
  lemma {:induction false} GroupsKeys(ms: seq<Match>, side: Side, splitTurns: bool)
    ensures DistinctKeys(Groups(ms, side, splitTurns))
    ensures forall k :: k in Keys(Groups(ms, side, splitTurns)) <==> k in MatchKeys(ms, side)
    decreases |ms|
  {
    if ms != [] {
      var pre := ms[..|ms| - 1];
      var m := ms[|ms| - 1];
      assert ms == pre + [m];
      GroupsKeys(pre, side, splitTurns);
      AddKeys(Groups(pre, side, splitTurns), m, side, splitTurns);
      MatchKeysSnoc(pre, m, side);
    }
  }

  /** One `forEach` step keeps every entry equal to its reference counts. */
  lemma AddExpected(pre: seq<Match>, m: Match, gs: seq<Stat>, side: Side, splitTurns: bool)
    requires DistinctKeys(gs)
    requires forall k :: k in Keys(gs) <==> k in MatchKeys(pre, side)
    requires forall s :: s in gs ==> s == Expected(pre, side, s.leader, splitTurns)
    ensures forall s :: s in Add(gs, m, side, splitTurns) ==> s == Expected(pre + [m], side, s.leader, splitTurns)
  {
    var k := Find(Keys(gs), KeyAt(m, side));
    var r := Add(gs, m, side, splitTurns);
    forall s | s in r ensures s == Expected(pre + [m], side, s.leader, splitTurns) {
      ExpectedSnoc(pre, m, side, s.leader, splitTurns);
      var i :| 0 <= i < |r| && r[i] == s;
      if i == |gs| {
        assert KeyOf(s) == KeyAt(m, side);
        ExpectedAbsent(pre, side, s.leader, splitTurns);
      } else if i == k {
        assert gs[k] in gs;
      } else {
        assert gs[i] in gs && r[i] == gs[i];
        assert Keys(gs)[i] != KeyAt(m, side);
      }
    }
  }

  /** Every entry holds the counts the reference definition gives for its leader. */
  lemma {:induction false} GroupsExpected(ms: seq<Match>, side: Side, splitTurns: bool)
    ensures forall s :: s in Groups(ms, side, splitTurns) ==> s == Expected(ms, side, s.leader, splitTurns)
    decreases |ms|
  {
    if ms != [] {
      var pre, m := ms[..|ms| - 1], ms[|ms| - 1];
      assert ms == pre + [m];
      GroupsExpected(pre, side, splitTurns);
      GroupsKeys(pre, side, splitTurns);
      AddExpected(pre, m, Groups(pre, side, splitTurns), side, splitTurns);
    }
  }

  /** The entry snapshot of a leader is the one of its first match. */
  predicate FirstSnapshot(ms: seq<Match>, side: Side, s: Stat) {
    KeyOf(s) in MatchKeys(ms, side) && s.leader == Pick(ms[Find(MatchKeys(ms, side), KeyOf(s))], side)
  }

  lemma AddLeaders(pre: seq<Match>, m: Match, gs: seq<Stat>, side: Side, splitTurns: bool)
    requires forall k :: k in Keys(gs) <==> k in MatchKeys(pre, side)
    requires forall s :: s in gs ==> FirstSnapshot(pre, side, s)
    ensures forall s :: s in Add(gs, m, side, splitTurns) ==> FirstSnapshot(pre + [m], side, s)
  {
    var k := Find(Keys(gs), KeyAt(m, side));
    var r := Add(gs, m, side, splitTurns);
    MatchKeysSnoc(pre, m, side);
    forall s | s in r ensures FirstSnapshot(pre + [m], side, s) {
      var i :| 0 <= i < |r| && r[i] == s;
      FindSnoc(MatchKeys(pre, side), KeyAt(m, side), KeyOf(s));
      if i == |gs| {
        assert KeyOf(s) == KeyAt(m, side) && KeyOf(s) !in MatchKeys(pre, side);
      } else {
        assert gs[i] in gs && r[i].leader == gs[i].leader;
      }
    }
  }

  /** Each entry's leader snapshot is the one of the first match with its key. */
  lemma {:induction false} GroupsLeaders(ms: seq<Match>, side: Side, splitTurns: bool)
    ensures forall s :: s in Groups(ms, side, splitTurns) ==> FirstSnapshot(ms, side, s)
    decreases |ms|
  {
    if ms != [] {
      var pre, m := ms[..|ms| - 1], ms[|ms| - 1];
      assert ms == pre + [m];
      GroupsLeaders(pre, side, splitTurns);
      GroupsKeys(pre, side, splitTurns);
      AddLeaders(pre, m, Groups(pre, side, splitTurns), side, splitTurns);
    }
  }

  /** Entries are in order of the first appearance of their keys. */
  predicate InFirstOrder(ms: seq<Match>, side: Side, gs: seq<Stat>) {
    forall i, j :: 0 <= i < j < |gs| ==>
      Find(MatchKeys(ms, side), KeyOf(gs[i])) < Find(MatchKeys(ms, side), KeyOf(gs[j]))
  }

  lemma AddOrder(pre: seq<Match>, m: Match, gs: seq<Stat>, side: Side, splitTurns: bool)
    requires forall k :: k in Keys(gs) <==> k in MatchKeys(pre, side)
    requires InFirstOrder(pre, side, gs)
    ensures InFirstOrder(pre + [m], side, Add(gs, m, side, splitTurns))
  {
    var r := Add(gs, m, side, splitTurns);
    var keys, mkeys := MatchKeys(pre, side), MatchKeys(pre + [m], side);
    MatchKeysSnoc(pre, m, side);
    AddKeys(gs, m, side, splitTurns);
    forall i | 0 <= i < |r|
      ensures Find(mkeys, KeyOf(r[i])) == if i < |gs| then Find(keys, KeyOf(gs[i])) else |pre|
    {
      FindSnoc(keys, KeyAt(m, side), KeyOf(r[i]));
      assert Keys(r)[i] == KeyOf(r[i]);
      if i < |gs| {
        assert Keys(gs)[i] == KeyOf(gs[i]);
      }
    }
  }

  /** Entries appear in the order their leaders first appear among the matches. */
  lemma {:induction false} GroupsOrder(ms: seq<Match>, side: Side, splitTurns: bool)
    ensures InFirstOrder(ms, side, Groups(ms, side, splitTurns))
    decreases |ms|
  {
    if ms != [] {
      var pre, m := ms[..|ms| - 1], ms[|ms| - 1];
      assert ms == pre + [m];
      GroupsOrder(pre, side, splitTurns);
      GroupsKeys(pre, side, splitTurns);
      AddOrder(pre, m, Groups(pre, side, splitTurns), side, splitTurns);
    }
  }

  /** The sum of the `total` counters. */
  function Sum(gs: seq<Stat>): nat {
    if gs == [] then 0 else gs[0].total + Sum(gs[1..])
  }

  lemma {:induction false} SumUpdate(gs: seq<Stat>, k: nat, x: Stat)
    requires k < |gs|
    ensures Sum(gs[k := x]) + gs[k].total == Sum(gs) + x.total
    decreases k
  {
    if k > 0 {
      SumUpdate(gs[1..], k - 1, x);
      assert gs[k := x][1..] == gs[1..][k - 1 := x];
    }
  }

  lemma {:induction false} SumSnoc(gs: seq<Stat>, x: Stat)
    ensures Sum(gs + [x]) == Sum(gs) + x.total
    decreases |gs|
  {
    if gs != [] {
      SumSnoc(gs[1..], x);
      assert (gs + [x])[1..] == gs[1..] + [x];
    }
  }

  /** Every match is counted in exactly one entry. */
  lemma {:induction false} GroupsSum(ms: seq<Match>, side: Side, splitTurns: bool)
    ensures Sum(Groups(ms, side, splitTurns)) == |ms|
    decreases |ms|
  {
    if ms != [] {
      var pre := ms[..|ms| - 1];
      var m := ms[|ms| - 1];
      var gs := Groups(pre, side, splitTurns);
      GroupsSum(pre, side, splitTurns);
      var k := Find(Keys(gs), KeyAt(m, side));
      if k == -1 {
        SumSnoc(gs, Count(Zero(Pick(m, side)), m, splitTurns));
      } else {
        SumUpdate(gs, k, Count(gs[k], m, splitTurns));
      }
    }
  }

  // ---------------------------------------------------------------------
  // `.sort((a, b) => b.total - a.total)`: a stable sort, most matches first

  predicate SortedByTotal(gs: seq<Stat>) {
    forall i, j :: 0 <= i < j < |gs| ==> gs[i].total >= gs[j].total
  }

  /** Inserts x after every entry with at least as many matches. */
  function Insert(gs: seq<Stat>, x: Stat): (r: seq<Stat>)
    ensures multiset(r) == multiset(gs) + multiset{x}
  {
    if gs == [] then [x]
    else if gs[0].total < x.total then [x] + gs
    else
      assert gs == [gs[0]] + gs[1..];
      [gs[0]] + Insert(gs[1..], x)
  }

  /** `Array.prototype.sort` with the comparator `b.total - a.total`, which is stable. */
  function SortByTotal(gs: seq<Stat>): (r: seq<Stat>)
    ensures multiset(r) == multiset(gs)
    decreases |gs|
  {
    if gs == [] then []
    else
      assert gs == gs[..|gs| - 1] + [gs[|gs| - 1]];
      Insert(SortByTotal(gs[..|gs| - 1]), gs[|gs| - 1])
  }

  lemma InsertMembers(gs: seq<Stat>, x: Stat)
    ensures forall y :: y in Insert(gs, x) <==> y in gs || y == x
  {
    var r := Insert(gs, x);
    assert forall y :: y in r <==> y in multiset(r);
    assert forall y :: y in gs <==> y in multiset(gs);
  }

  lemma SortMembers(gs: seq<Stat>)
    ensures forall s :: s in SortByTotal(gs) <==> s in gs
  {
    var r := SortByTotal(gs);
    assert forall s :: s in r <==> s in multiset(r);
    assert forall s :: s in gs <==> s in multiset(gs);
  }

  lemma {:induction false} InsertSorted(gs: seq<Stat>, x: Stat)
    requires SortedByTotal(gs)
    ensures SortedByTotal(Insert(gs, x))
    decreases |gs|
  {
    if gs != [] && gs[0].total >= x.total {
      var tail := gs[1..];
      InsertSorted(tail, x);
      InsertMembers(tail, x);
      var rest := Insert(tail, x);
      forall j | 0 <= j < |rest| ensures gs[0].total >= rest[j].total {
        if rest[j] != x {
          assert rest[j] in rest;
          var i :| 0 <= i < |tail| && tail[i] == rest[j];
          assert gs[i + 1] == rest[j];
        }
      }
    }
  }

  lemma {:induction false} SortSorted(gs: seq<Stat>)
    ensures SortedByTotal(SortByTotal(gs))
    decreases |gs|
  {
    if gs != [] {
      SortSorted(gs[..|gs| - 1]);
      InsertSorted(SortByTotal(gs[..|gs| - 1]), gs[|gs| - 1]);
    }
  }

  function TotalIs(t: nat): Stat -> bool {
    (s: Stat) => s.total == t
  }

  lemma {:induction false} InsertStable(gs: seq<Stat>, x: Stat, t: nat)
    requires SortedByTotal(gs)
    ensures Filter(Insert(gs, x), TotalIs(t)) == Filter(gs, TotalIs(t)) + (if x.total == t then [x] else [])
    decreases |gs|
  {
    if gs == [] {
    } else if gs[0].total < x.total {
      if x.total == t {
        forall i | 0 <= i < |gs| ensures !TotalIs(t)(gs[i]) {
          assert i == 0 || gs[0].total >= gs[i].total;
        }
        FilterNone(gs, TotalIs(t));
      }
      assert ([x] + gs)[1..] == gs;
    } else {
      InsertStable(gs[1..], x, t);
      assert ([gs[0]] + Insert(gs[1..], x))[1..] == Insert(gs[1..], x);
    }
  }

  /** Stability: entries with equal totals keep their relative order. */
  lemma {:induction false} SortStable(gs: seq<Stat>, t: nat)
    ensures Filter(SortByTotal(gs), TotalIs(t)) == Filter(gs, TotalIs(t))
    decreases |gs|
  {
    if gs != [] {
      var pre, x := gs[..|gs| - 1], gs[|gs| - 1];
      assert gs == pre + [x];
      SortStable(pre, t);
      SortSorted(pre);
      InsertStable(SortByTotal(pre), x, t);
      FilterSnoc(pre, x, TotalIs(t));
    }
  }

  /** Two lists with the same entries have the same keys. */
  lemma KeysMembers(a: seq<Stat>, b: seq<Stat>)
    requires forall s :: s in a <==> s in b
    ensures forall k :: k in Keys(a) <==> k in Keys(b)
  {
    forall k | k in Keys(a) ensures k in Keys(b) {
      var i :| 0 <= i < |a| && Keys(a)[i] == k;
      assert a[i] in b;
      var j :| 0 <= j < |b| && b[j] == a[i];
      assert Keys(b)[j] == k;
    }
    forall k | k in Keys(b) ensures k in Keys(a) {
      var i :| 0 <= i < |b| && Keys(b)[i] == k;
      assert b[i] in a;
      var j :| 0 <= j < |a| && a[j] == b[i];
      assert Keys(a)[j] == k;
    }
  }

  lemma {:induction false} InsertDistinct(gs: seq<Stat>, x: Stat)
    requires DistinctKeys(gs) && KeyOf(x) !in Keys(gs)
    ensures DistinctKeys(Insert(gs, x))
    decreases |gs|
  {
    if gs != [] && gs[0].total >= x.total {
      var tail := gs[1..];
      assert forall i :: 0 <= i < |tail| ==> Keys(tail)[i] == Keys(gs)[i + 1];
      InsertDistinct(tail, x);
      InsertMembers(tail, x);
      var rest := Insert(tail, x);
      forall j | 0 <= j < |rest| ensures KeyOf(gs[0]) != KeyOf(rest[j]) {
        if rest[j] == x {
          assert Keys(gs)[0] == KeyOf(gs[0]);
        } else {
          assert rest[j] in rest;
          var i :| 0 <= i < |tail| && tail[i] == rest[j];
          assert gs[i + 1] == rest[j];
        }
      }
    } else if gs != [] {
      forall j | 0 <= j < |gs| ensures KeyOf(x) != KeyOf(gs[j]) {
        assert Keys(gs)[j] == KeyOf(gs[j]);
      }
    }
  }

  /** Sorting keeps the keys distinct. */
  lemma {:induction false} SortDistinct(gs: seq<Stat>)
    requires DistinctKeys(gs)
    ensures DistinctKeys(SortByTotal(gs))
    decreases |gs|
  {
    if gs != [] {
      var pre, x := gs[..|gs| - 1], gs[|gs| - 1];
      SortDistinct(pre);
      SortMembers(pre);
      KeysMembers(SortByTotal(pre), pre);
      forall i | 0 <= i < |pre| ensures Keys(pre)[i] != KeyOf(x) {
        assert KeyOf(gs[i]) != KeyOf(gs[|gs| - 1]);
      }
      InsertDistinct(SortByTotal(pre), x);
    }
  }

  lemma {:induction false} SumInsert(gs: seq<Stat>, x: Stat)
    ensures Sum(Insert(gs, x)) == Sum(gs) + x.total
    decreases |gs|
  {
    if gs != [] && gs[0].total >= x.total {
      SumInsert(gs[1..], x);
      assert ([gs[0]] + Insert(gs[1..], x))[1..] == Insert(gs[1..], x);
    } else if gs != [] {
      assert ([x] + gs)[1..] == gs;
    }
  }

  lemma {:induction false} SumSort(gs: seq<Stat>)
    ensures Sum(SortByTotal(gs)) == Sum(gs)
    decreases |gs|
  {
    if gs != [] {
      var pre, x := gs[..|gs| - 1], gs[|gs| - 1];
      assert gs == pre + [x];
      SumSort(pre);
      SumInsert(SortByTotal(pre), x);
      SumSnoc(pre, x);
    }
  }

  // ---------------------------------------------------------------------
  // The statistics tables

  /** The counter increments of one `forEach` callback. */
  method CountMatch(st: Stat, m: Match, splitTurns: bool) returns (r: Stat)
    ensures r == Count(st, m, splitTurns)
    ensures r.leader == st.leader && r.total == st.total + 1
  {
    r := st.(total := st.total + 1);
    if m.result == "win" {
      r := r.(wins := r.wins + 1);
    } else {
      r := r.(losses := r.losses + 1);
    }
    if splitTurns {
      if m.turnOrder == Some("first") {
        r := r.(firstTotal := r.firstTotal + 1);
        if m.result == "win" {
          r := r.(firstWins := r.firstWins + 1);
        }
      } else if m.turnOrder == Some("second") {
        r := r.(secondTotal := r.secondTotal + 1);
        if m.result == "win" {
          r := r.(secondWins := r.secondWins + 1);
        }
      }
    }
  }

  /**
   * The leader table of `updateMyLeadersStats` (side Mine), of
   * `updateMatchupStats` (side Theirs) and the breakdown of `showLeaderDetail`
   * (the opposing side, with turn-order counters).
   */
  method Tally(ms: seq<Match>, side: Side, splitTurns: bool) returns (stats: seq<Stat>)
    ensures stats == SortByTotal(Groups(ms, side, splitTurns))
  {
    var groups: seq<Stat> := [];
    for i := 0 to |ms|
      invariant groups == Groups(ms[..i], side, splitTurns)
    {
      var m := ms[i];
      var k := IndexOf(Keys(groups), LeaderKey(Some(Pick(m, side))));
      if k == -1 {
        var st := CountMatch(Zero(Pick(m, side)), m, splitTurns);
        groups := groups + [st];
      } else {
        var st := CountMatch(groups[k], m, splitTurns);
        groups := groups[k := st];
      }
      assert ms[..i + 1][..i] == ms[..i];
    }
    assert ms[..|ms|] == ms;
    stats := SortByTotal(groups);
  }

  /**
   * What a statistics table promises: most-played first, with ties in order
   * of first appearance; one entry per distinct leader key among the matches;
   * each entry's counters are the reference counts of its leader, with the
   * snapshot of its first match; and every match counted exactly once.
   */
  lemma TallyProperties(ms: seq<Match>, side: Side, splitTurns: bool)
    ensures var gs := Groups(ms, side, splitTurns);
      var r := SortByTotal(gs);
      && SortedByTotal(r)
      && InFirstOrder(ms, side, gs)
      && (forall t: nat :: Filter(r, TotalIs(t)) == Filter(gs, TotalIs(t)))
      && DistinctKeys(r)
      && (forall k :: k in Keys(r) <==> k in MatchKeys(ms, side))
      && (forall s :: s in r ==> s == Expected(ms, side, s.leader, splitTurns) && Consistent(s))
      && (forall s :: s in r ==> FirstSnapshot(ms, side, s))
      && Sum(r) == |ms|
  {
    var gs := Groups(ms, side, splitTurns);
    var r := SortByTotal(gs);
    SortSorted(gs);
    GroupsOrder(ms, side, splitTurns);
    forall t: nat ensures Filter(r, TotalIs(t)) == Filter(gs, TotalIs(t)) {
      SortStable(gs, t);
    }
    GroupsKeys(ms, side, splitTurns);
    SortDistinct(gs);
    SortMembers(gs);
    KeysMembers(r, gs);
    GroupsExpected(ms, side, splitTurns);
    forall s | s in r ensures Consistent(s) {
      CountsConsistent(WithLeaderKey(ms, side, KeyOf(s)), s.leader, splitTurns);
    }
    GroupsLeaders(ms, side, splitTurns);
    GroupsSum(ms, side, splitTurns);
    SumSort(gs);
  }
}
