/**
 * The tracker's state and the operations that change it: recording,
 * editing, deleting and clearing matches; creating tournaments and recording
 * their rounds; choosing background cards. The page's module-level variables
 * (`matches`, `tournaments`, `backgroundCards`, `editingMatchId`,
 * `currentTournamentId`) are the fields of one `Tracker` object. Ids, dates
 * and the answers to confirmation dialogs come in as parameters.
 */
module Store {
  import opened Wrappers
  import opened Seqs
  import opened Identity
  import opened Records
  import opened Filters

  /** What the match form holds when its submit button is enabled. */
  datatype MatchForm = MatchForm(
    myLeader: Leader,
    opponentLeader: Leader,
    turnOrder: Option<string>,
    result: string,
    notes: string,
    gameFormat: string)

  /**
   * What the detail view's edit form holds: a leader the catalog no longer
   * has is not pre-selected, so either leader may be missing.
   */
  datatype EditForm = EditForm(
    myLeader: Option<Leader>,
    opponentLeader: Option<Leader>,
    turnOrder: Option<string>,
    result: string,
    notes: string,
    gameFormat: string)
  {
    predicate LeadersChosen() {
      myLeader.Some? && opponentLeader.Some?
    }

    function Complete(): MatchForm
      requires LeadersChosen()
    {
      MatchForm(myLeader.value, opponentLeader.value, turnOrder, result, notes, gameFormat)
    }
  }

  /** What the tournament round form holds; any selection may still be missing. */
  datatype RoundForm = RoundForm(
    myLeader: Option<Leader>,
    opponentLeader: Option<Leader>,
    result: Option<string>,
    turnOrder: Option<string>,
    notes: string)

  /** The ids of a list of records, in order; `idOf` reads a record's `id`. */
  function IdsOf<T>(xs: seq<T>, idOf: T -> int): (r: seq<int>)
    ensures |r| == |xs| && forall i :: 0 <= i < |xs| ==> r[i] == idOf(xs[i])
  {
    seq(|xs|, i requires 0 <= i < |xs| => idOf(xs[i]))
  }

  function MatchIds(ms: seq<Match>): seq<int> {
    IdsOf(ms, (m: Match) => m.id)
  }

  function TournamentIds(ts: seq<Tournament>): seq<int> {
    IdsOf(ts, (t: Tournament) => t.id)
  }

  // ---------------------------------------------------------------------
  // Matches

  /** The record a new submission creates. */
  function NewMatch(f: MatchForm, id: int, date: string): Match {
    Match(id, f.myLeader, f.opponentLeader, f.turnOrder, f.result, f.notes,
          Some(f.gameFormat), date, None, None)
  }

  /** The spread `{...old, leaders, turnOrder, result, notes, gameFormat}` of an edit. */
  function Edited(m: Match, f: MatchForm): Match {
    m.(myLeader := f.myLeader, opponentLeader := f.opponentLeader, turnOrder := f.turnOrder,
       result := f.result, notes := f.notes, gameFormat := Some(f.gameFormat))
  }

  /**
   * The match list after an edit of the first match with this id; an id
   * that is not there leaves the list as it is.
   */
  function EditAt(ms: seq<Match>, id: int, f: MatchForm): (r: seq<Match>)
    ensures MatchIds(r) == MatchIds(ms)
    ensures forall i :: 0 <= i < |ms| && i != Find(MatchIds(ms), id) ==> r[i] == ms[i]
    ensures id in MatchIds(ms) ==>
      var k := Find(MatchIds(ms), id);
      && r[k].date == ms[k].date && r[k].format == ms[k].format && r[k].tournamentId == ms[k].tournamentId
      && r[k].myLeader == f.myLeader && r[k].opponentLeader == f.opponentLeader
      && r[k].result == f.result && r[k].turnOrder == f.turnOrder
      && r[k].notes == f.notes && r[k].gameFormat == Some(f.gameFormat)
  {
    var k := Find(MatchIds(ms), id);
    if k == -1 then ms else ms[k := Edited(ms[k], f)]
  }

  /** Submitting the same edit twice changes nothing more. */
  lemma EditIdempotent(ms: seq<Match>, id: int, f: MatchForm)
    ensures EditAt(EditAt(ms, id, f), id, f) == EditAt(ms, id, f)
  {
    assert MatchIds(EditAt(ms, id, f)) == MatchIds(ms);
  }

  function IdIsNot(id: int): Match -> bool {
    (m: Match) => m.id != id
  }

  /** `matches.filter(m => m.id !== id)` */
  function RemoveId(ms: seq<Match>, id: int): (r: seq<Match>)
    ensures id !in MatchIds(r)
    ensures forall m :: m in r <==> m in ms && m.id != id
    ensures IsSubsequence(r, ms)
    ensures forall m :: multiset(r)[m] == if m.id != id then multiset(ms)[m] else 0
  {
    FilterIsSubsequence(ms, IdIsNot(id));
    FilterMultiset(ms, IdIsNot(id));
    var r := Filter(ms, IdIsNot(id));
    assert forall i :: 0 <= i < |r| ==> r[i] in r;
    r
  }

  /** A deleted match can no longer be edited. */
  lemma EditAfterRemove(ms: seq<Match>, id: int, f: MatchForm)
    ensures EditAt(RemoveId(ms, id), id, f) == RemoveId(ms, id)
  {
  }

  /** Deleting a match with an id no match has changes nothing. */
  lemma RemoveAbsent(ms: seq<Match>, id: int)
    requires id !in MatchIds(ms)
    ensures RemoveId(ms, id) == ms
  {
    forall i | 0 <= i < |ms| ensures IdIsNot(id)(ms[i]) {
      assert MatchIds(ms)[i] == ms[i].id;
    }
    FilterAll(ms, IdIsNot(id));
  }

  // ---------------------------------------------------------------------
  // Background cards

  predicate Distinct(s: seq<string>) {
    forall i, j :: 0 <= i < j < |s| ==> s[i] != s[j]
  }

  /** `splice(indexOf(x), 1)` when x is there; the list as it is otherwise. */
  function RemoveFirst(s: seq<string>, x: string): (r: seq<string>)
    ensures x in s ==> |r| == |s| - 1
    ensures x in s ==> IsSubsequence(r, s) && multiset(r) == multiset(s) - multiset{x}
    ensures x in s ==> r == s[..Find(s, x)] + s[Find(s, x) + 1..]
    ensures x !in s ==> r == s
    ensures forall y :: y in r ==> y in s
  {
    var k := Find(s, x);
    if k == -1 then s
    else
      assert forall y :: y in s[..k] + s[k + 1..] ==> y in s[..k] || y in s[k + 1..];
      SpliceIsSubsequence(s, k);
      assert s == s[..k] + [s[k]] + s[k + 1..];
      s[..k] + s[k + 1..]
  }

  /** Position i of s without position k. */
  function Skip(i: int, k: int): int {
    if i < k then i else i + 1
  }

  lemma SpliceIndices(s: seq<string>, k: nat)
    requires k < |s|
    ensures |s[..k] + s[k + 1..]| == |s| - 1
    ensures forall i :: 0 <= i < |s| - 1 ==> (s[..k] + s[k + 1..])[i] == s[Skip(i, k)]
  {
  }

  /** Splicing position k out of a distinct list leaves exactly the other values, still distinct. */
  lemma SpliceDistinct(s: seq<string>, k: nat)
    requires Distinct(s) && k < |s|
    ensures Distinct(s[..k] + s[k + 1..])
    ensures forall y :: y in s[..k] + s[k + 1..] <==> y in s && y != s[k]
  {
    var r := s[..k] + s[k + 1..];
    SpliceIndices(s, k);
    forall i, j | 0 <= i < j < |r| ensures r[i] != r[j] {
      assert Skip(i, k) < Skip(j, k);
    }
    forall y | y in s && y != s[k] ensures y in r {
      var i :| 0 <= i < |s| && s[i] == y;
      var p := if i < k then i else i - 1;
      assert r[p] == s[Skip(p, k)];
    }
    forall y | y in r ensures y != s[k] {
      var i :| 0 <= i < |r| && r[i] == y;
      assert Skip(i, k) != k;
    }
  }

  lemma RemoveFirstDistinct(s: seq<string>, x: string)
    requires Distinct(s)
    ensures Distinct(RemoveFirst(s, x))
    ensures forall y :: y in RemoveFirst(s, x) <==> y in s && y != x
  {
    var k := Find(s, x);
    if k != -1 {
      SpliceDistinct(s, k);
    }
  }

  /** At most ten background cards can be chosen. */
  const MaxBackgroundCards := 10

  /** `toggleCardSelection`: remove a chosen card, or add one while fewer than ten are chosen. */
  function Toggle(bg: seq<string>, image: string): (r: seq<string>)
    ensures |bg| <= MaxBackgroundCards ==> |r| <= MaxBackgroundCards
    ensures image in bg ==> r == RemoveFirst(bg, image)
    ensures image !in bg && |bg| < MaxBackgroundCards ==> r == bg + [image]
    ensures image !in bg && |bg| >= MaxBackgroundCards ==> r == bg
  {
    if image in bg then RemoveFirst(bg, image)
    else if |bg| >= MaxBackgroundCards then bg
    else bg + [image]
  }

  /** Toggling keeps the cards distinct and flips whether the card is chosen, unless the list is full. */
  lemma ToggleDistinct(bg: seq<string>, image: string)
    requires Distinct(bg)
    ensures Distinct(Toggle(bg, image))
    ensures image in Toggle(bg, image) <==> image !in bg && |bg| < MaxBackgroundCards
    ensures forall y :: y != image ==> (y in Toggle(bg, image) <==> y in bg)
  {
    if image in bg {
      RemoveFirstDistinct(bg, image);
    }
  }

  /** Choosing a card and then unchoosing it restores the selection. */
  lemma ToggleTwice(bg: seq<string>, image: string)
    requires image !in bg && |bg| < MaxBackgroundCards
    ensures Toggle(Toggle(bg, image), image) == bg
  {
    var t := bg + [image];
    assert Find(t, image) == |bg| by {
      FindUnique(t, image, |bg|);
    }
    assert t[..|bg|] == bg;
  }

  // ---------------------------------------------------------------------
  // Tournaments

  /** `completed` is true exactly when the target number of rounds has been recorded. */
  predicate CompletionKept(t: Tournament) {
    t.completed == (|t.matches| >= t.rounds)
  }

  predicate WellFormed(t: Tournament) {
    t.rounds >= 1 && CompletionKept(t)
  }

  /**
   * The validation of `saveTournament` as written: `parseInt` of the rounds
   * field is None for NaN, and `!rounds` rejects only 0 and NaN.
   */
  predicate AcceptedAsWritten(kind: string, date: string, rounds: Option<int>) {
    kind != "" && date != "" && rounds.Some? && rounds.value != 0
  }

  /** The validation that keeps `completed` meaningful: at least one round. */
  predicate Accepted(kind: string, date: string, rounds: Option<int>) {
    kind != "" && date != "" && rounds.Some? && rounds.value >= 1
  }

  function NewTournament(id: int, kind: string, date: string, rounds: int, format: string,
                         location: string, createdAt: string): Tournament {
    Tournament(id, kind, date, rounds, format, location, [], false, createdAt)
  }

  /** As written, a negative round count is accepted and the new tournament is already past its target. */
  lemma NegativeRoundsAccepted(id: int, kind: string, date: string, rounds: int, format: string,
                               location: string, createdAt: string)
    requires kind != "" && date != "" && rounds < 0
    ensures AcceptedAsWritten(kind, date, Some(rounds))
    ensures !CompletionKept(NewTournament(id, kind, date, rounds, format, location, createdAt))
    ensures !Accepted(kind, date, Some(rounds))
  {
  }

  /** With the corrected validation every new tournament is well formed. */
  lemma AcceptedTournamentWellFormed(id: int, kind: string, date: string, rounds: Option<int>,
                                     format: string, location: string, createdAt: string)
    requires Accepted(kind, date, rounds)
    ensures AcceptedAsWritten(kind, date, rounds)
    ensures WellFormed(NewTournament(id, kind, date, rounds.value, format, location, createdAt))
  {
  }

  /**
   * The record `saveTournamentMatch` builds as written: the tournament's
   * format goes into `format`, and `gameFormat` is left unset.
   */
  function RoundMatchAsWritten(t: Tournament, my: Leader, opp: Leader, result: string,
                               f: RoundForm, id: int, date: string): Match {
    Match(id, my, opp, f.turnOrder, result, f.notes, None, date, Some(t.format), Some(t.id))
  }

  /** The record with the tournament's format also in `gameFormat`, where the format filters look. */
  function RoundMatch(t: Tournament, my: Leader, opp: Leader, result: string,
                      f: RoundForm, id: int, date: string): (m: Match)
    ensures m == RoundMatchAsWritten(t, my, opp, result, f, id, date).(gameFormat := Some(t.format))
  {
    Match(id, my, opp, f.turnOrder, result, f.notes, Some(t.format), date, Some(t.format), Some(t.id))
  }

  /** As written, a tournament round never passes a format filter, not even its own format. */
  lemma RoundMatchAsWrittenMissesFormat(t: Tournament, my: Leader, opp: Leader, result: string,
                                        f: RoundForm, id: int, date: string, side: Side)
    ensures !Passes(RoundMatchAsWritten(t, my, opp, result, f, id, date),
                    With(NoSelection(), ByFormat, [t.format]), side)
  {
  }

  /** With `gameFormat` set, a round passes the filter on its tournament's format. */
  lemma RoundMatchPassesFormat(t: Tournament, my: Leader, opp: Leader, result: string,
                               f: RoundForm, id: int, date: string, side: Side)
    ensures Passes(RoundMatch(t, my, opp, result, f, id, date),
                   With(NoSelection(), ByFormat, [t.format]), side)
  {
    var sel := With(NoSelection(), ByFormat, [t.format]);
    assert t.format in sel.formats;
  }

  function TournamentIdIsNot(id: int): Tournament -> bool {
    (t: Tournament) => t.id != id
  }

  /** `tournaments.filter(t => t.id !== id)` */
  function RemoveTournament(ts: seq<Tournament>, id: int): (r: seq<Tournament>)
    ensures id !in TournamentIds(r)
    ensures forall t :: t in r <==> t in ts && t.id != id
    ensures IsSubsequence(r, ts)
    ensures forall t :: multiset(r)[t] == if t.id != id then multiset(ts)[t] else 0
  {
    FilterIsSubsequence(ts, TournamentIdIsNot(id));
    FilterMultiset(ts, TournamentIdIsNot(id));
    var r := Filter(ts, TournamentIdIsNot(id));
    assert forall i :: 0 <= i < |r| ==> r[i] in r;
    r
  }

  /** Appending a round, and marking the tournament complete once it reaches its target. */
  function RecordRound(t: Tournament, m: Match): (r: Tournament)
    ensures r.matches == t.matches + [m]
    ensures r.completed == (t.completed || |r.matches| >= r.rounds)
    ensures CompletionKept(t) ==> CompletionKept(r)
    ensures r.(matches := t.matches, completed := t.completed) == t
  {
    var t' := t.(matches := t.matches + [m]);
    if |t'.matches| >= t'.rounds then t'.(completed := true) else t'
  }

  // ---------------------------------------------------------------------
  // The tracker state

  class Tracker {
    var matches: seq<Match>
    var tournaments: seq<Tournament>
    var backgroundCards: seq<string>
    var editingId: Option<int>
    var currentTournamentId: Option<int>

    /** Every tournament keeps its completion flag; the chosen cards are distinct and at most ten. */
    predicate Valid()
      reads this
    {
      && (forall i :: 0 <= i < |tournaments| ==> WellFormed(tournaments[i]))
      && Distinct(backgroundCards)
      && |backgroundCards| <= MaxBackgroundCards
    }

    constructor()
      ensures Valid()
      ensures matches == [] && tournaments == [] && backgroundCards == []
      ensures editingId == None && currentTournamentId == None
    {
      matches := [];
      tournaments := [];
      backgroundCards := [];
      editingId := None;
      currentTournamentId := None;
    }

    /** `editMatch`: start editing a match that exists. */
    method BeginEdit(id: int)
      modifies this
      ensures editingId == if id in MatchIds(old(matches)) then Some(id) else old(editingId)
      ensures matches == old(matches) && tournaments == old(tournaments)
      ensures backgroundCards == old(backgroundCards) && currentTournamentId == old(currentTournamentId)
    {
      var k := IndexOf(MatchIds(matches), id);
      if k != -1 {
        editingId := Some(id);
      }
    }

    /**
     * `handleSubmit`: with an edit in progress, overwrite that match and end
     * the edit; otherwise put a new match at the front of the list.
     */
    method Submit(f: MatchForm, now: int, date: string)
      requires Valid()
      modifies this
      ensures Valid()
      ensures old(editingId).Some? ==> matches == EditAt(old(matches), old(editingId).value, f)
      ensures old(editingId).None? ==> matches == [NewMatch(f, now, date)] + old(matches)
      ensures editingId == None
      ensures tournaments == old(tournaments) && backgroundCards == old(backgroundCards)
      ensures currentTournamentId == old(currentTournamentId)
    {
      if editingId.Some? {
        var k := IndexOf(MatchIds(matches), editingId.value);
        if k != -1 {
          matches := matches[k := Edited(matches[k], f)];
        }
        editingId := None;
      } else {
        matches := [NewMatch(f, now, date)] + matches;
      }
    }

    /**
     * `handleEditSubmit`: the edit form of the detail view; does nothing
     * without an edit in progress. Reading the name of a missing leader
     * throws before anything is stored, so the list and the edit stay as
     * they were.
     */
    method SubmitEdit(e: EditForm) returns (thrown: bool)
      requires Valid()
      modifies this
      ensures Valid()
      ensures thrown <==> old(editingId).Some? && old(editingId).value in MatchIds(old(matches)) && !e.LeadersChosen()
      ensures thrown ==> matches == old(matches) && editingId == old(editingId)
      ensures !thrown && old(editingId).Some? && old(editingId).value in MatchIds(old(matches)) ==>
                matches == EditAt(old(matches), old(editingId).value, e.Complete())
      ensures !thrown && !(old(editingId).Some? && old(editingId).value in MatchIds(old(matches))) ==>
                matches == old(matches)
      ensures !thrown ==> editingId == None
      ensures tournaments == old(tournaments) && backgroundCards == old(backgroundCards)
      ensures currentTournamentId == old(currentTournamentId)
    {
      thrown := false;
      if editingId.None? {
        return;
      }
      var k := IndexOf(MatchIds(matches), editingId.value);
      if k != -1 {
        if !e.LeadersChosen() {
          return true;
        }
        matches := matches[k := Edited(matches[k], e.Complete())];
      }
      editingId := None;
    }

    /** `deleteMatch` */
    method DeleteMatch(id: int)
      requires Valid()
      modifies this
      ensures Valid()
      ensures matches == RemoveId(old(matches), id)
      ensures tournaments == old(tournaments) && backgroundCards == old(backgroundCards)
      ensures editingId == old(editingId) && currentTournamentId == old(currentTournamentId)
    {
      matches := RemoveId(matches, id);
    }

    /** `confirmClearAllHistory`: both confirmations must be accepted. */
    method ClearAllHistory(firstConfirm: bool, secondConfirm: bool)
      requires Valid()
      modifies this
      ensures Valid()
      ensures matches == if |old(matches)| > 0 && firstConfirm && secondConfirm then [] else old(matches)
      ensures tournaments == old(tournaments) && backgroundCards == old(backgroundCards)
      ensures editingId == old(editingId) && currentTournamentId == old(currentTournamentId)
    {
      if |matches| == 0 {
        return;
      }
      if firstConfirm && secondConfirm {
        matches := [];
      }
    }

    /**
     * `saveTournament`: validate the form, append the new tournament and open
     * it for recording. Uses the corrected validation (at least one round).
     */
    method SaveTournament(kind: string, date: string, rounds: Option<int>, format: string,
                          location: string, now: int, createdAt: string) returns (saved: bool)
      requires Valid()
      modifies this
      ensures Valid()
      ensures saved == Accepted(kind, date, rounds)
      ensures saved ==> tournaments == old(tournaments) + [NewTournament(now, kind, date, rounds.value, format, location, createdAt)]
      ensures saved ==> currentTournamentId == Some(now)
      ensures !saved ==> tournaments == old(tournaments) && currentTournamentId == old(currentTournamentId)
      ensures matches == old(matches) && backgroundCards == old(backgroundCards) && editingId == old(editingId)
    {
      if kind == "" || date == "" || rounds.None? || rounds.value < 1 {
        return false;
      }
      var t := NewTournament(now, kind, date, rounds.value, format, location, createdAt);
      AcceptedTournamentWellFormed(now, kind, date, rounds, format, location, createdAt);
      tournaments := tournaments + [t];
      currentTournamentId := Some(now);
      saved := true;
    }

    /**
     * `saveTournamentMatch`: record a round of the open tournament, in the
     * tournament and at the end of the match list. The round that reaches
     * the target closes the recording, which needs no confirmation then.
     */
    method SaveTournamentMatch(f: RoundForm, now: int, date: string) returns (saved: bool)
      requires Valid()
      modifies this
      ensures Valid()
      ensures saved <==> old(currentTournamentId).Some? && old(currentTournamentId).value in TournamentIds(old(tournaments))
                         && f.myLeader.Some? && f.opponentLeader.Some? && f.result.Some?
      ensures saved ==>
        var k := Find(TournamentIds(old(tournaments)), old(currentTournamentId).value);
        var m := RoundMatch(old(tournaments)[k], f.myLeader.value, f.opponentLeader.value, f.result.value, f, now, date);
        && tournaments == old(tournaments)[k := RecordRound(old(tournaments)[k], m)]
        && matches == old(matches) + [m]
        && currentTournamentId == if |old(tournaments)[k].matches| + 1 >= old(tournaments)[k].rounds then None
                                  else old(currentTournamentId)
      ensures !saved ==> tournaments == old(tournaments) && matches == old(matches)
                         && currentTournamentId == old(currentTournamentId)
      ensures backgroundCards == old(backgroundCards) && editingId == old(editingId)
    {
      if currentTournamentId.None? {
        return false;
      }
      var k := IndexOf(TournamentIds(tournaments), currentTournamentId.value);
      if k == -1 {
        return false;
      }
      if f.myLeader.None? || f.opponentLeader.None? || f.result.None? {
        return false;
      }
      var t := tournaments[k];
      var m := RoundMatch(t, f.myLeader.value, f.opponentLeader.value, f.result.value, f, now, date);
      tournaments := tournaments[k := RecordRound(t, m)];
      matches := matches + [m];
      if |t.matches| + 1 >= t.rounds {
        currentTournamentId := None;
      }
      saved := true;
    }

    /** `continueTournament`: make the given id the open tournament, whether or not it exists. */
    method ContinueTournament(id: int)
      requires Valid()
      modifies this
      ensures Valid()
      ensures currentTournamentId == Some(id)
      ensures matches == old(matches) && tournaments == old(tournaments)
      ensures backgroundCards == old(backgroundCards) && editingId == old(editingId)
    {
      currentTournamentId := Some(id);
    }

    /** `openTournamentDetail`: open a tournament for viewing, only when it exists. */
    method OpenTournamentDetail(id: int)
      requires Valid()
      modifies this
      ensures Valid()
      ensures currentTournamentId == if id in TournamentIds(old(tournaments)) then Some(id) else old(currentTournamentId)
      ensures matches == old(matches) && tournaments == old(tournaments)
      ensures backgroundCards == old(backgroundCards) && editingId == old(editingId)
    {
      var k := IndexOf(TournamentIds(tournaments), id);
      if k != -1 {
        currentTournamentId := Some(id);
      }
    }

    /**
     * `closeTournamentMatchModal`: closing an open tournament short of its
     * target asks for confirmation; otherwise the recording simply closes.
     */
    method CloseTournamentMatchModal(confirmed: bool)
      requires Valid()
      modifies this
      ensures Valid()
      ensures var ids := TournamentIds(old(tournaments));
        var unfinished := old(currentTournamentId).Some? && old(currentTournamentId).value in ids
          && |old(tournaments)[Find(ids, old(currentTournamentId).value)].matches|
             < old(tournaments)[Find(ids, old(currentTournamentId).value)].rounds;
        currentTournamentId == if unfinished && !confirmed then old(currentTournamentId) else None
      ensures matches == old(matches) && tournaments == old(tournaments)
      ensures backgroundCards == old(backgroundCards) && editingId == old(editingId)
    {
      if currentTournamentId.Some? {
        var k := IndexOf(TournamentIds(tournaments), currentTournamentId.value);
        if k != -1 && |tournaments[k].matches| < tournaments[k].rounds && !confirmed {
          return;
        }
      }
      currentTournamentId := None;
    }

    /** `closeTournamentDetail` */
    method CloseTournamentDetail()
      requires Valid()
      modifies this
      ensures Valid()
      ensures currentTournamentId == None
      ensures matches == old(matches) && tournaments == old(tournaments)
      ensures backgroundCards == old(backgroundCards) && editingId == old(editingId)
    {
      currentTournamentId := None;
    }

    /** `deleteTournament`: the tournament goes, its matches stay in the match list. */
    method DeleteTournament(confirmed: bool)
      requires Valid()
      modifies this
      ensures Valid()
      ensures var found := old(currentTournamentId).Some? && old(currentTournamentId).value in TournamentIds(old(tournaments));
        && (found && confirmed ==>
              tournaments == RemoveTournament(old(tournaments), old(currentTournamentId).value) && currentTournamentId == None)
        && (!(found && confirmed) ==>
              tournaments == old(tournaments) && currentTournamentId == old(currentTournamentId))
      ensures matches == old(matches) && backgroundCards == old(backgroundCards) && editingId == old(editingId)
    {
      if currentTournamentId.None? {
        return;
      }
      var k := IndexOf(TournamentIds(tournaments), currentTournamentId.value);
      if k == -1 || !confirmed {
        return;
      }
      var id := currentTournamentId.value;
      var kept := RemoveTournament(tournaments, id);
      assert forall i :: 0 <= i < |kept| ==> kept[i] in kept;
      tournaments := kept;
      currentTournamentId := None;
    }

    /** `clearAllTournaments`: both confirmations must be accepted; matches stay. */
    method ClearAllTournaments(firstConfirm: bool, secondConfirm: bool)
      requires Valid()
      modifies this
      ensures Valid()
      ensures tournaments == if |old(tournaments)| > 0 && firstConfirm && secondConfirm then [] else old(tournaments)
      ensures matches == old(matches) && backgroundCards == old(backgroundCards)
      ensures editingId == old(editingId) && currentTournamentId == old(currentTournamentId)
    {
      if |tournaments| == 0 || !firstConfirm || !secondConfirm {
        return;
      }
      tournaments := [];
    }

    /** `toggleCardSelection` */
    method ToggleCardSelection(image: string)
      requires Valid()
      modifies this
      ensures Valid()
      ensures backgroundCards == Toggle(old(backgroundCards), image)
      ensures matches == old(matches) && tournaments == old(tournaments)
      ensures editingId == old(editingId) && currentTournamentId == old(currentTournamentId)
    {
      ToggleDistinct(backgroundCards, image);
      var k := IndexOf(backgroundCards, image);
      if k > -1 {
        backgroundCards := backgroundCards[..k] + backgroundCards[k + 1..];
      } else {
        if |backgroundCards| >= MaxBackgroundCards {
          return;
        }
        backgroundCards := backgroundCards + [image];
      }
    }

    /** `removeBackgroundCard` */
    method RemoveBackgroundCard(image: string)
      requires Valid()
      modifies this
      ensures Valid()
      ensures backgroundCards == RemoveFirst(old(backgroundCards), image)
      ensures image !in backgroundCards
      ensures matches == old(matches) && tournaments == old(tournaments)
      ensures editingId == old(editingId) && currentTournamentId == old(currentTournamentId)
    {
      RemoveFirstDistinct(backgroundCards, image);
      var k := IndexOf(backgroundCards, image);
      if k > -1 {
        backgroundCards := backgroundCards[..k] + backgroundCards[k + 1..];
      }
    }
  }
}
