/**
 * The leader catalog builder (`fetchLeadersFromAPI`): from the three card
 * feeds (set cards, starter-deck cards, promos) keep the leader cards that
 * are neither starter-deck reprints nor variant-art printings, drop repeated
 * card ids keeping the first, and turn each card into a leader record. When
 * the feeds cannot be read, the built-in fallback list is used instead.
 */
module Catalog {
  import opened Wrappers
  import opened Text
  import opened Seqs
  import opened Identity

  /** A record of the card feed; an absent field is the empty string. */
  datatype Card = Card(name: string, cardType: string, color: string, setId: string, cardSetId: string, image: string)

  /** The three feeds, in the order they are concatenated. */
  datatype Feeds = Feeds(setCards: seq<Card>, starterCards: seq<Card>, promoCards: seq<Card>)

  /**
   * The number the pattern `ST-(\d+)` captures in a set id: the leftmost
   * "ST-" that is followed by a digit, with all the digits that follow it.
   */
  function StarterSetNumber(setId: string): Option<nat>
    decreases |setId|
  {
    if |setId| >= 4 && setId[..3] == "ST-" && IsDigit(setId[3]) then Some(DigitsValue(DigitRun(setId[3..])))
    else if |setId| == 0 then None
    else StarterSetNumber(setId[1..])
  }

  /** The pattern `ST-\d` matches at position i of s. */
  predicate StarterMatchAt(s: string, i: nat) {
    i + 4 <= |s| && s[i..i + 3] == "ST-" && IsDigit(s[i + 3])
  }

  /** The digit run of digits followed by a non-digit is those digits. */
  lemma {:induction false} DigitRunStops(ds: string, rest: string)
    requires forall i :: 0 <= i < |ds| ==> IsDigit(ds[i])
    requires rest == [] || !IsDigit(rest[0])
    ensures DigitRun(ds + rest) == ds
    decreases |ds|
  {
    if ds == [] {
      assert ds + rest == rest;
    } else {
      assert (ds + rest)[0] == ds[0] && (ds + rest)[1..] == ds[1..] + rest;
      DigitRunStops(ds[1..], rest);
      assert [ds[0]] + ds[1..] == ds;
    }
  }

  /** Where no match starts, the search moves on by one character. */
  lemma StarterSkip(s: string)
    requires |s| > 0 && !StarterMatchAt(s, 0)
    ensures StarterSetNumber(s) == StarterSetNumber(s[1..])
  {
    assert |s| >= 4 ==> s[0..3] == s[..3];
  }

  /** A match at the start captures its whole digit run. */
  lemma StarterHere(ds: string, rest: string)
    requires |ds| >= 1 && forall i :: 0 <= i < |ds| ==> IsDigit(ds[i])
    requires rest == [] || !IsDigit(rest[0])
    ensures StarterSetNumber("ST-" + ds + rest) == Some(DigitsValue(ds))
  {
    var t := "ST-" + ds + rest;
    assert t[..3] == "ST-" && t[3] == ds[0];
    assert t[3..] == ds + rest;
    DigitRunStops(ds, rest);
  }

  /**
   * The leftmost match wins: with no match starting inside p, the set id
   * p + t, where t is "ST-" + ds + rest, captures exactly the digits ds when
   * rest does not go on with a digit.
   */
  lemma {:induction false} StarterSetNumberLeftmost(p: string, ds: string, rest: string)
    requires |ds| >= 1 && forall i :: 0 <= i < |ds| ==> IsDigit(ds[i])
    requires rest == [] || !IsDigit(rest[0])
    requires forall i :: 0 <= i < |p| ==> !StarterMatchAt(p + ("ST-" + ds + rest), i)
    ensures StarterSetNumber(p + ("ST-" + ds + rest)) == Some(DigitsValue(ds))
    decreases |p|
  {
    var t := "ST-" + ds + rest;
    if p == [] {
      assert p + t == t;
      StarterHere(ds, rest);
    } else {
      var s := p + t;
      StarterSkip(s);
      assert s[1..] == p[1..] + t;
      forall i | 0 <= i < |p[1..]|
        ensures !StarterMatchAt(p[1..] + t, i)
      {
        assert !StarterMatchAt(s, i + 1);
        assert s[1..][i..i + 3] == s[i + 1..i + 4];
      }
      StarterSetNumberLeftmost(p[1..], ds, rest);
    }
  }

  /** Starter decks 15 to 20 and 23 to 28 reprint leaders sold elsewhere. */
  predicate IsReprintStarter(setId: string) {
    match StarterSetNumber(setId)
    case Some(n) => (15 <= n <= 20) || (23 <= n <= 28)
    case None => false
  }

  /** Names that mark a parallel, alternate-art, manga, championship or SPR printing. */
  predicate IsVariantName(name: string) {
    var n := Lower(name);
    Contains(n, "parallel") || Contains(n, "alternate art") || Contains(n, "alt art")
    || Contains(n, "manga rare") || Contains(n, "championship") || Contains(n, "spr")
  }

  /** The test `processCards` applies to each card. */
  predicate KeepCard(card: Card) {
    card.cardType == "Leader" && !IsReprintStarter(card.setId) && !IsVariantName(card.name)
  }

  /** `processCards(data)` */
  function ProcessCards(data: seq<Card>): (r: seq<Card>)
    ensures forall c :: c in r <==> c in data && KeepCard(c)
    ensures IsSubsequence(r, data)
    ensures forall c :: multiset(r)[c] == if KeepCard(c) then multiset(data)[c] else 0
  {
    FilterIsSubsequence(data, KeepCard);
    FilterMultiset(data, KeepCard);
    Filter(data, KeepCard)
  }

  /** Processing the feeds one by one and concatenating is processing their concatenation. */
  lemma ProcessFeedsSeparately(f: Feeds)
    ensures ProcessCards(f.setCards) + ProcessCards(f.starterCards) + ProcessCards(f.promoCards)
         == ProcessCards(f.setCards + f.starterCards + f.promoCards)
  {
    FilterConcat(f.setCards, f.starterCards, KeepCard);
    FilterConcat(f.setCards + f.starterCards, f.promoCards, KeepCard);
  }

  lemma {:induction false} DigitRunAll(ds: string)
    requires forall i :: 0 <= i < |ds| ==> IsDigit(ds[i])
    ensures DigitRun(ds) == ds
    decreases |ds|
  {
    if |ds| > 0 {
      DigitRunAll(ds[1..]);
      assert [ds[0]] + ds[1..] == ds;
    }
  }

  /** A set id "ST-<digits>" is a reprint exactly when the digits read 15..20 or 23..28. */
  lemma StarterSetId(ds: string)
    requires |ds| >= 1 && forall i :: 0 <= i < |ds| ==> IsDigit(ds[i])
    ensures StarterSetNumber("ST-" + ds) == Some(DigitsValue(ds))
    ensures IsReprintStarter("ST-" + ds)
        <==> (15 <= DigitsValue(ds) <= 20) || (23 <= DigitsValue(ds) <= 28)
  {
    var s := "ST-" + ds;
    assert s[..3] == "ST-" && s[3] == ds[0] && s[3..] == ds;
    DigitRunAll(ds);
  }

  /** A leader from "ST-17" is dropped; one from "ST-14" is kept unless its name marks a variant. */
  lemma StarterExamples(card: Card)
    requires card.cardType == "Leader"
    ensures card.setId == "ST-17" ==> !KeepCard(card)
    ensures card.setId == "ST-14" ==> (KeepCard(card) <==> !IsVariantName(card.name))
  {
    assert "17"[..1] == "1" && "14"[..1] == "1" && "1"[..0] == "";
    assert DigitsValue("1") == 1;
    assert DigitsValue("17") == 17;
    assert DigitsValue("14") == 14;
    StarterSetId("17");
    StarterSetId("14");
    assert "ST-" + "17" == "ST-17" && "ST-" + "14" == "ST-14";
  }

  function Ids(cards: seq<Card>): (r: seq<string>)
    ensures |r| == |cards| && forall i :: 0 <= i < |cards| ==> r[i] == cards[i].cardSetId
  {
    seq(|cards|, i requires 0 <= i < |cards| => cards[i].cardSetId)
  }

  /**
   * The cards the de-duplicating map ends up holding, in its insertion order,
   * when it already holds the ids in `seen`.
   */
  function DedupFrom(cards: seq<Card>, seen: set<string>): seq<Card>
    decreases |cards|
  {
    if cards == [] then []
    else if cards[0].cardSetId in seen then DedupFrom(cards[1..], seen)
    else [cards[0]] + DedupFrom(cards[1..], seen + {cards[0].cardSetId})
  }

  /** First occurrence of each card id, in order. */
  function Dedup(cards: seq<Card>): seq<Card> {
    DedupFrom(cards, {})
  }

  predicate DistinctIds(cards: seq<Card>) {
    forall i, j :: 0 <= i < j < |cards| ==> cards[i].cardSetId != cards[j].cardSetId
  }

  predicate AvoidsIds(cards: seq<Card>, seen: set<string>) {
    forall i :: 0 <= i < |cards| ==> cards[i].cardSetId !in seen
  }

  /** No id is kept twice, and none that was already seen. */
  lemma {:induction false} DedupFromDistinct(cards: seq<Card>, seen: set<string>)
    ensures DistinctIds(DedupFrom(cards, seen)) && AvoidsIds(DedupFrom(cards, seen), seen)
    decreases |cards|
  {
    if cards != [] {
      var c0 := cards[0];
      if c0.cardSetId in seen {
        DedupFromDistinct(cards[1..], seen);
      } else {
        var seen' := seen + {c0.cardSetId};
        var rest := DedupFrom(cards[1..], seen');
        DedupFromDistinct(cards[1..], seen');
        var r := [c0] + rest;
        assert r == DedupFrom(cards, seen);
        forall i, j | 0 <= i < j < |r| ensures r[i].cardSetId != r[j].cardSetId {
          assert r[j] == rest[j - 1];
          if i > 0 {
            assert r[i] == rest[i - 1];
          }
        }
        forall i | 0 <= i < |r| ensures r[i].cardSetId !in seen {
          if i > 0 {
            assert r[i] == rest[i - 1];
          }
        }
      }
    }
  }

  /** Every id of the input is either already seen or kept. */
  lemma {:induction false} DedupFromCovers(cards: seq<Card>, seen: set<string>)
    ensures forall c :: c in cards ==> c.cardSetId in seen || c.cardSetId in Ids(DedupFrom(cards, seen))
    decreases |cards|
  {
    if cards != [] {
      var c0 := cards[0];
      if c0.cardSetId in seen {
        DedupFromCovers(cards[1..], seen);
      } else {
        DedupFromCovers(cards[1..], seen + {c0.cardSetId});
        var rest := DedupFrom(cards[1..], seen + {c0.cardSetId});
        assert Ids([c0] + rest) == [c0.cardSetId] + Ids(rest);
      }
    }
  }

  /** Each kept card is the first card of the input with its id. */
  lemma {:induction false} DedupFromFirst(cards: seq<Card>, seen: set<string>)
    ensures forall c :: c in DedupFrom(cards, seen) ==>
      var k := Find(Ids(cards), c.cardSetId); 0 <= k < |cards| && cards[k] == c
    decreases |cards|
  {
    if cards != [] {
      var c0 := cards[0];
      var seen' := if c0.cardSetId in seen then seen else seen + {c0.cardSetId};
      assert c0.cardSetId in seen';
      DedupFromFirst(cards[1..], seen');
      DedupFromDistinct(cards[1..], seen');
      var rest := DedupFrom(cards[1..], seen');
      assert Ids(cards)[0] == c0.cardSetId && Ids(cards)[1..] == Ids(cards[1..]);
      forall c | c in rest
        ensures var k := Find(Ids(cards), c.cardSetId); 0 <= k < |cards| && cards[k] == c
      {
        var i :| 0 <= i < |rest| && rest[i] == c;
        assert c.cardSetId !in seen';
      }
    }
  }

  /** De-duplication by card id: ids distinct, every input id present, each from its first card. */
  lemma DedupProperties(cards: seq<Card>)
    ensures var r := Dedup(cards);
      DistinctIds(r)
      && (forall c :: c in cards ==> c.cardSetId in Ids(r))
      && (forall c :: c in r ==> var k := Find(Ids(cards), c.cardSetId); 0 <= k < |cards| && cards[k] == c)
  {
    DedupFromDistinct(cards, {});
    DedupFromCovers(cards, {});
    DedupFromFirst(cards, {});
  }

  /** The `forEach` over the combined cards that fills the id-keyed map. */
  method DedupByCardId(cards: seq<Card>) returns (unique: seq<Card>)
    ensures unique == Dedup(cards)
  {
    // the map's values in insertion order, and its keys
    unique := [];
    var seen: set<string> := {};
    for i := 0 to |cards|
      invariant unique + DedupFrom(cards[i..], seen) == Dedup(cards)
    {
      assert cards[i..][0] == cards[i] && cards[i..][1..] == cards[i + 1..];
      var key := cards[i].cardSetId;
      if key !in seen {
        seen := seen + {key};
        unique := unique + [cards[i]];
      }
    }
  }

  /** The leader record made from a card; "Blue Purple" gives the colours ["Blue", "Purple"]. */
  function ToLeader(card: Card): (l: Leader)
    ensures Join(l.colors, " ") == card.color
    ensures |l.colors| >= 1 && forall i :: 0 <= i < |l.colors| ==> ' ' !in l.colors[i]
    ensures l.name == card.name && l.setId == card.setId
    ensures l.cardId == card.cardSetId && l.image == card.image
  {
    JoinSplit(card.color, ' ');
    Leader(card.name, Split(card.color, ' '), card.setId, card.cardSetId, card.image)
  }

  /** `getFallbackLeaders`: eight leaders of the first set, without card ids or images. */
  function FallbackLeaders(): (r: seq<Leader>)
    ensures |r| <= 10
    ensures forall i :: 0 <= i < |r| ==> r[i].name != "" && |r[i].colors| == 1 && r[i].setId == "OP-01"
  {
    [ Leader("Monkey D. Luffy", ["Red"], "OP-01", "", ""),
      Leader("Roronoa Zoro", ["Green"], "OP-01", "", ""),
      Leader("Trafalgar Law", ["Blue"], "OP-01", "", ""),
      Leader("Boa Hancock", ["Blue"], "OP-01", "", ""),
      Leader("Donquixote Doflamingo", ["Black"], "OP-01", "", ""),
      Leader("Perona", ["Purple"], "OP-01", "", ""),
      Leader("Eustass Kid", ["Red"], "OP-01", "", ""),
      Leader("Shanks", ["Red"], "OP-01", "", "") ]
  }

  /** The catalog built from feeds that were read: processed, concatenated, de-duplicated, mapped. */
  function LeadersOf(f: Feeds): seq<Leader> {
    MapToLeaders(Dedup(ProcessCards(f.setCards + f.starterCards + f.promoCards)))
  }

  /** The `.map` from the de-duplicated cards to leader records. */
  function MapToLeaders(unique: seq<Card>): seq<Leader> {
    seq(|unique|, i requires 0 <= i < |unique| => ToLeader(unique[i]))
  }

  /**
   * Card ids are unique in the catalog; every card id that survives the
   * filter is in it; and each entry is made from a surviving card that is the
   * first surviving card with its id.
   */
  lemma CatalogProperties(f: Feeds)
    ensures var all := f.setCards + f.starterCards + f.promoCards;
      var kept := ProcessCards(all);
      var leaders := LeadersOf(f);
      && (forall i, j :: 0 <= i < j < |leaders| ==> leaders[i].cardId != leaders[j].cardId)
      && (forall c :: c in all && KeepCard(c) ==>
            exists i :: 0 <= i < |leaders| && leaders[i].cardId == c.cardSetId)
      && (forall i :: 0 <= i < |leaders| ==>
            exists c :: c in kept && leaders[i] == ToLeader(c) && c == kept[Find(Ids(kept), c.cardSetId)])
  {
    var all := f.setCards + f.starterCards + f.promoCards;
    var kept := ProcessCards(all);
    LeadersFromKept(kept);
  }

  /** The catalog properties for any list of surviving cards. */
  lemma LeadersFromKept(kept: seq<Card>)
    ensures var leaders := MapToLeaders(Dedup(kept));
      && (forall i, j :: 0 <= i < j < |leaders| ==> leaders[i].cardId != leaders[j].cardId)
      && (forall c :: c in kept ==> exists i :: 0 <= i < |leaders| && leaders[i].cardId == c.cardSetId)
      && (forall i :: 0 <= i < |leaders| ==>
            exists c :: c in kept && leaders[i] == ToLeader(c) && c == kept[Find(Ids(kept), c.cardSetId)])
  {
    var unique := Dedup(kept);
    var leaders := MapToLeaders(unique);
    DedupProperties(kept);
    forall c | c in kept
      ensures exists i :: 0 <= i < |leaders| && leaders[i].cardId == c.cardSetId
    {
      var i :| 0 <= i < |unique| && Ids(unique)[i] == c.cardSetId;
      assert leaders[i].cardId == c.cardSetId;
    }
    forall i | 0 <= i < |leaders|
      ensures exists c :: c in kept && leaders[i] == ToLeader(c) && c == kept[Find(Ids(kept), c.cardSetId)]
    {
      assert unique[i] in unique;
    }
  }

  /**
   * `fetchLeadersFromAPI` without its final sort by name: `None` stands for a
   * failed fetch or parse, which yields the fallback list.
   */
  method BuildLeaders(fetched: Option<Feeds>) returns (leaders: seq<Leader>)
    ensures fetched.None? ==> leaders == FallbackLeaders()
    ensures fetched.Some? ==> leaders == LeadersOf(fetched.value)
  {
    if fetched.None? {
      return FallbackLeaders();
    }
    var f := fetched.value;
    var raw := ProcessCards(f.setCards) + ProcessCards(f.starterCards) + ProcessCards(f.promoCards);
    ProcessFeedsSeparately(f);
    var unique := DedupByCardId(raw);
    leaders := MapToLeaders(unique);
  }
}
