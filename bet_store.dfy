/** The in-memory bet store: bets by bet id. */
module BetStore {
  import opened Model

  /** Every bet is stored under its own id. */
  ghost predicate KeyedByBetId(m: map<string, Bet>) {
    forall id :: id in m ==> m[id].betId == id
  }

  class BetRepository {
    var bets: map<string, Bet>

    ghost predicate Valid()
      reads this
    {
      KeyedByBetId(bets)
    }

    constructor()
      ensures Valid()
      ensures bets == map[]
    {
      bets := map[];
    }

    /** Stores `bet` under its id, replacing any earlier bet with that id; the bets
        under other ids stay as they were. */
    method Save(bet: Bet) returns (saved: Bet)
      requires Valid()
      modifies this
      ensures Valid()
      ensures bets == old(bets)[bet.betId := bet]
      ensures saved == bet
      ensures FindById(bet.betId) == Some(bet)
      ensures forall id :: id != bet.betId ==> FindById(id) == old(FindById(id))
    {
      bets := bets[bet.betId := bet];
      saved := bet;
    }

    /** The bet stored under `betId`, if any. */
    function FindById(betId: string): (r: Option<Bet>)
      reads this
      ensures r.Some? <==> betId in bets
      ensures r.Some? ==> r.value == bets[betId]
      ensures Valid() && r.Some? ==> r.value.betId == betId
    {
      if betId in bets then Some(bets[betId]) else None
    }

    /** Every stored bet; as the store keys bets by id, there is one per id. */
    function FindAll(): (r: set<Bet>)
      reads this
      ensures Valid() ==> |r| == |bets|
      ensures forall b :: b in r <==> exists id :: id in bets && bets[id] == b
    {
      OnePerId(bets);
      bets.Values
    }
  }

  /** A map keyed by bet id holds as many distinct bets as ids. */
  lemma {:induction false} OnePerId(m: map<string, Bet>)
    ensures KeyedByBetId(m) ==> |m.Values| == |m|
    decreases |m|
  {
    if KeyedByBetId(m) && |m| > 0 {
      var id :| id in m;
      var rest := m - {id};
      OnePerId(rest);
      assert m.Values == rest.Values + {m[id]} by {
        forall b | b in m.Values ensures b in rest.Values + {m[id]} {
          var k :| k in m && m[k] == b;
          if k != id { assert rest[k] == b; }
        }
      }
      assert m[id] !in rest.Values by {
        forall k | k in rest ensures rest[k] != m[id] {
          assert rest[k].betId == k;
        }
      }
      assert m.Keys == rest.Keys + {id};
    }
  }
}
