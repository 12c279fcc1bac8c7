/** The contribution history: one record per (bet, jackpot) key, a later record
    for the same key replacing the earlier one. */
module ContributionHistory {
  import opened Model
  import opened HistoryKey

  function KeyOf(c: JackpotContribution): string {
    GenerateKey(c.betId, c.jackpotId)
  }

  /** Every record is filed under its own key. */
  ghost predicate KeyedByPair(m: map<string, JackpotContribution>) {
    forall k :: k in m ==> KeyOf(m[k]) == k
  }

  /** The stored records of one bet. */
  function RecordsOfBet(m: map<string, JackpotContribution>, betId: string): set<JackpotContribution> {
    set c | c in m.Values && c.betId == betId
  }

  /** The record a save of `c` replaces, if any. */
  function Displaced(m: map<string, JackpotContribution>, c: JackpotContribution): set<JackpotContribution> {
    if KeyOf(c) in m then {m[KeyOf(c)]} else {}
  }

  class ContributionRepository {
    var contributions: map<string, JackpotContribution>

    ghost predicate Valid()
      reads this
    {
      KeyedByPair(contributions)
    }

    constructor()
      ensures Valid()
      ensures contributions == map[]
    {
      contributions := map[];
    }

    /** Files `contribution` under its key, replacing any record with that key; the lookups
        of every other key are unaffected, so the last save under a key wins. */
    method Save(contribution: JackpotContribution) returns (saved: JackpotContribution)
      requires Valid()
      modifies this
      ensures Valid()
      ensures contributions == old(contributions)[KeyOf(contribution) := contribution]
      ensures saved == contribution
      ensures FindByBetIdAndJackpotId(contribution.betId, contribution.jackpotId) == Some(contribution)
      ensures forall betId, jackpotId :: GenerateKey(betId, jackpotId) != KeyOf(contribution) ==>
                FindByBetIdAndJackpotId(betId, jackpotId) == old(FindByBetIdAndJackpotId(betId, jackpotId))
    {
      contributions := contributions[KeyOf(contribution) := contribution];
      saved := contribution;
    }

    /** All stored records of bet `betId`. */
    function FindByBetId(betId: string): (r: set<JackpotContribution>)
      reads this
      ensures forall c :: c in r <==> c in contributions.Values && c.betId == betId
    {
      RecordsOfBet(contributions, betId)
    }

    /** The record filed under the key of (`betId`, `jackpotId`), if any. When jackpot
        ids contain no underscore, it is a record of exactly that pair. */
    function FindByBetIdAndJackpotId(betId: string, jackpotId: string): (r: Option<JackpotContribution>)
      reads this
      ensures r.Some? <==> GenerateKey(betId, jackpotId) in contributions
      ensures r.Some? ==> r.value == contributions[GenerateKey(betId, jackpotId)]
      ensures Valid() && r.Some? && '_' !in jackpotId && '_' !in r.value.jackpotId ==>
                r.value.betId == betId && r.value.jackpotId == jackpotId
    {
      var key := GenerateKey(betId, jackpotId);
      if key in contributions then
        var c := contributions[key];
        KeyInjective(c.betId, c.jackpotId, betId, jackpotId);
        Some(c)
      else None
    }
  }

  /** The stored records after a save: those of the other keys, and the new one. */
  lemma ValuesAfterSave(m: map<string, JackpotContribution>, c: JackpotContribution)
    requires KeyedByPair(m)
    ensures m[KeyOf(c) := c].Values == (m.Values - Displaced(m, c)) + {c}
  {
    var m' := m[KeyOf(c) := c];
    forall x | x in m'.Values
      ensures x in (m.Values - Displaced(m, c)) + {c}
    {
      var k :| k in m' && m'[k] == x;
      if k != KeyOf(c) {
        assert m[k] == x && KeyOf(x) == k;
      }
    }
    forall x | x in m.Values - Displaced(m, c)
      ensures x in m'.Values
    {
      var k :| k in m && m[k] == x;
      assert m'[k] == x;
    }
    assert m'[KeyOf(c)] == c;
  }

  /** `findByBetId` after a save: the new record joins the records of its bet, and
      the record it replaced leaves the records of its own bet. */
  lemma RecordsOfBetAfterSave(m: map<string, JackpotContribution>, c: JackpotContribution, betId: string)
    requires KeyedByPair(m)
    ensures RecordsOfBet(m[KeyOf(c) := c], betId)
              == (RecordsOfBet(m, betId) - Displaced(m, c)) + (if c.betId == betId then {c} else {})
  {
    ValuesAfterSave(m, c);
  }

  /** Through a key collision, saving a record of one bet erases the record of
      another bet from that bet's history. */
  lemma CollisionErasesOtherBet(m: map<string, JackpotContribution>, c: JackpotContribution)
    requires KeyedByPair(m)
    requires KeyOf(c) in m && m[KeyOf(c)].betId != c.betId
    ensures m[KeyOf(c)] in RecordsOfBet(m, m[KeyOf(c)].betId)
    ensures m[KeyOf(c)] !in RecordsOfBet(m[KeyOf(c) := c], m[KeyOf(c)].betId)
  {
    RecordsOfBetAfterSave(m, c, m[KeyOf(c)].betId);
  }
}
