/** The in-memory jackpot store: a map from jackpot id to jackpot, written by
    `save` and by an optimistic `update` that retries a compare-and-swap up to
    three times.

    Other writers are outside the model's control, so what they do to the
    updated entry between an attempt's read and its compare-and-swap is a
    parameter: one `Interference` per attempt (attempts beyond the list meet
    none). */
module JackpotStore {
  import opened Model

  /** Number of compare-and-swap attempts `update` makes. */
  const Retries: nat := 3

  /** What another writer does to the entry being updated, between this writer's
      read and its compare-and-swap. */
  datatype Interference = Quiet | Overwrite(jackpot: Jackpot) | Remove

  /** The store's state after an update, and what the update signals. */
  datatype Updated = Updated(store: map<string, Jackpot>, result: Result<Jackpot, Error>)

  /** Every jackpot is stored under its own id. */
  ghost predicate KeyedById(store: map<string, Jackpot>) {
    forall id :: id in store ==> store[id].jackpotId == id
  }

  /** Other writers only ever store a jackpot with the id being updated. */
  ghost predicate OverwritesKeepId(events: seq<Interference>, id: string) {
    forall i :: 0 <= i < |events| && events[i].Overwrite? ==> events[i].jackpot.jackpotId == id
  }

  function EventAt(events: seq<Interference>, i: nat): Interference {
    if i < |events| then events[i] else Quiet
  }

  /** The store after another writer acted on entry `id`. */
  function Interfere(store: map<string, Jackpot>, id: string, e: Interference): map<string, Jackpot> {
    match e
    case Quiet => store
    case Overwrite(j) => store[id := j]
    case Remove => store - {id}
  }

  /** The state an attempt writes: the stored record with the caller's pool. */
  function Merge(current: Jackpot, proposed: Jackpot): (j: Jackpot)
    ensures SameStatic(j, current)
    ensures j.currentPoolAmount == proposed.currentPoolAmount
  {
    current.(currentPoolAmount := proposed.currentPoolAmount)
  }

  /** Attempts `i` and later of an update whose target was present at the start. */
  function Attempts(store: map<string, Jackpot>, proposed: Jackpot, events: seq<Interference>, i: nat): (r: Updated)
    requires i <= Retries
    ensures r.result.Success? ==> r.result.value.currentPoolAmount == proposed.currentPoolAmount
    ensures r.result.Failure? ==> r.result.error.Exception() == IllegalStateException
    decreases Retries - i
  {
    var id := proposed.jackpotId;
    if i == Retries then
      Updated(store, Failure(UpdateRetriesExhausted(id, Retries)))
    else if id !in store then
      Updated(store, Failure(DisappearedDuringUpdate(id)))
    else
      var current := store[id];
      var seen := Interfere(store, id, EventAt(events, i));
      if id in seen && seen[id] == current then
        var next := Merge(current, proposed);
        Updated(seen[id := next], Success(next))
      else
        Attempts(seen, proposed, events, i + 1)
  }

  /** Reference definition of `update`: fail when the target is absent, otherwise
      run the attempts. */
  function UpdateOutcome(store: map<string, Jackpot>, proposed: Jackpot, events: seq<Interference>): (r: Updated)
    ensures r.result.Success? ==> proposed.jackpotId in store
    ensures proposed.jackpotId !in store ==> r.store == store
  {
    var id := proposed.jackpotId;
    if id !in store then Updated(store, Failure(UpdateTargetNotFound(id)))
    else Attempts(store, proposed, events, 0)
  }

  class JackpotRepository {
    var jackpots: map<string, Jackpot>

    ghost predicate Valid()
      reads this
    {
      KeyedById(jackpots)
    }

    constructor()
      ensures Valid()
      ensures jackpots == map[]
    {
      jackpots := map[];
    }

    /** Stores `jackpot` under its id, replacing any earlier record. */
    method Save(jackpot: Jackpot) returns (saved: Jackpot)
      requires Valid()
      modifies this
      ensures Valid()
      ensures jackpots == old(jackpots)[jackpot.jackpotId := jackpot]
      ensures saved == jackpot
    {
      jackpots := jackpots[jackpot.jackpotId := jackpot];
      saved := jackpot;
    }

    /** The jackpot stored under `id`, if any. */
    function FindById(id: string): (r: Option<Jackpot>)
      reads this
      ensures r.Some? <==> id in jackpots
      ensures r.Some? ==> r.value == jackpots[id]
    {
      if id in jackpots then Some(jackpots[id]) else None
    }

    /** Writes the pool of `jackpot` onto the stored record with its id, by
        read / compare-and-swap attempts; `events[i]` is what other writers do
        during attempt `i`. */
    method Update(jackpot: Jackpot, events: seq<Interference>) returns (r: Result<Jackpot, Error>)
      requires Valid()
      requires OverwritesKeepId(events, jackpot.jackpotId)
      modifies this
      ensures Valid()
      ensures Updated(jackpots, r) == UpdateOutcome(old(jackpots), jackpot, events)
    {
      var id := jackpot.jackpotId;
      if id !in jackpots {
        return Failure(UpdateTargetNotFound(id));
      }
      var i := 0;
      while i < Retries
        invariant 0 <= i <= Retries
        invariant Valid()
        invariant UpdateOutcome(old(jackpots), jackpot, events) == Attempts(jackpots, jackpot, events, i)
      {
        if id !in jackpots {
          return Failure(DisappearedDuringUpdate(id));
        }
        var current := jackpots[id];
        var next := Merge(current, jackpot);
        // another writer may act between the read and the compare-and-swap
        jackpots := Interfere(jackpots, id, EventAt(events, i));
        if id in jackpots && jackpots[id] == current {
          jackpots := jackpots[id := next];
          return Success(next);
        }
        i := i + 1;
      }
      return Failure(UpdateRetriesExhausted(id, Retries));
    }
  }

  /** An update never touches another jackpot's entry. */
  lemma {:induction false} AttemptsFrame(store: map<string, Jackpot>, proposed: Jackpot, events: seq<Interference>, i: nat, k: string)
    requires i <= Retries
    requires k != proposed.jackpotId
    ensures k in Attempts(store, proposed, events, i).store <==> k in store
    ensures k in store ==> Attempts(store, proposed, events, i).store[k] == store[k]
    decreases Retries - i
  {
    var id := proposed.jackpotId;
    if i < Retries && id in store {
      var seen := Interfere(store, id, EventAt(events, i));
      if !(id in seen && seen[id] == store[id]) {
        AttemptsFrame(seen, proposed, events, i + 1, k);
      }
    }
  }

  lemma UpdateFrame(store: map<string, Jackpot>, proposed: Jackpot, events: seq<Interference>, k: string)
    requires k != proposed.jackpotId
    ensures k in UpdateOutcome(store, proposed, events).store <==> k in store
    ensures k in store ==> UpdateOutcome(store, proposed, events).store[k] == store[k]
  {
    if proposed.jackpotId in store {
      AttemptsFrame(store, proposed, events, 0, k);
    }
  }

  /** A successful attempt stored exactly the jackpot it returned, whose pool is the
      caller's and whose other fields are those of a record read from the store. */
  lemma {:induction false} AttemptsSuccess(store: map<string, Jackpot>, proposed: Jackpot, events: seq<Interference>, i: nat)
    requires i <= Retries
    requires Attempts(store, proposed, events, i).result.Success?
    ensures var u := Attempts(store, proposed, events, i);
      && proposed.jackpotId in u.store
      && u.store[proposed.jackpotId] == u.result.value
      && u.result.value.currentPoolAmount == proposed.currentPoolAmount
    decreases Retries - i
  {
    var id := proposed.jackpotId;
    var seen := Interfere(store, id, EventAt(events, i));
    if !(id in seen && seen[id] == store[id]) {
      AttemptsSuccess(seen, proposed, events, i + 1);
    }
  }

  /** On success the store holds the returned jackpot under its id, with the
      caller's pool. */
  lemma UpdateSuccess(store: map<string, Jackpot>, proposed: Jackpot, events: seq<Interference>)
    requires UpdateOutcome(store, proposed, events).result.Success?
    ensures var u := UpdateOutcome(store, proposed, events);
      && proposed.jackpotId in u.store
      && u.store[proposed.jackpotId] == u.result.value
      && u.result.value.currentPoolAmount == proposed.currentPoolAmount
  {
    AttemptsSuccess(store, proposed, events, 0);
  }

  lemma {:induction false} AttemptsKeepKeyedById(store: map<string, Jackpot>, proposed: Jackpot, events: seq<Interference>, i: nat)
    requires i <= Retries
    requires KeyedById(store) && OverwritesKeepId(events, proposed.jackpotId)
    ensures KeyedById(Attempts(store, proposed, events, i).store)
    decreases Retries - i
  {
    var id := proposed.jackpotId;
    if i < Retries && id in store {
      var seen := Interfere(store, id, EventAt(events, i));
      assert KeyedById(seen);
      if !(id in seen && seen[id] == store[id]) {
        AttemptsKeepKeyedById(seen, proposed, events, i + 1);
      }
    }
  }

  /** An update keeps every jackpot filed under its own id, as long as other writers do. */
  lemma UpdateKeepsKeyedById(store: map<string, Jackpot>, proposed: Jackpot, events: seq<Interference>)
    requires KeyedById(store) && OverwritesKeepId(events, proposed.jackpotId)
    ensures KeyedById(UpdateOutcome(store, proposed, events).store)
  {
    if proposed.jackpotId in store {
      AttemptsKeepKeyedById(store, proposed, events, 0);
    }
  }

  /** Every record other writers may store keeps the static fields of `original`. */
  ghost predicate OverwritesKeepStatic(events: seq<Interference>, original: Jackpot) {
    forall i :: 0 <= i < |events| && events[i].Overwrite? ==> SameStatic(events[i].jackpot, original)
  }

  lemma {:induction false} AttemptsKeepStatic(store: map<string, Jackpot>, proposed: Jackpot, events: seq<Interference>, i: nat, original: Jackpot)
    requires i <= Retries
    requires proposed.jackpotId in store ==> SameStatic(store[proposed.jackpotId], original)
    requires OverwritesKeepStatic(events, original)
    ensures var u := Attempts(store, proposed, events, i);
      && (proposed.jackpotId in u.store ==> SameStatic(u.store[proposed.jackpotId], original))
      && (u.result.Success? ==> SameStatic(u.result.value, original))
    decreases Retries - i
  {
    var id := proposed.jackpotId;
    if i < Retries && id in store {
      var e := EventAt(events, i);
      var seen := Interfere(store, id, e);
      if !(id in seen && seen[id] == store[id]) {
        AttemptsKeepStatic(seen, proposed, events, i + 1, original);
      }
    }
  }

  /** An update changes only the pool: id, initial value, configuration and creation
      time of the stored record stay those it had, as long as other writers keep them. */
  lemma UpdateKeepsStatic(store: map<string, Jackpot>, proposed: Jackpot, events: seq<Interference>)
    requires proposed.jackpotId in store
    requires OverwritesKeepStatic(events, store[proposed.jackpotId])
    ensures var u := UpdateOutcome(store, proposed, events);
      proposed.jackpotId in u.store ==> SameStatic(u.store[proposed.jackpotId], store[proposed.jackpotId])
    ensures var u := UpdateOutcome(store, proposed, events);
      u.result.Success? ==> SameStatic(u.result.value, store[proposed.jackpotId])
  {
    AttemptsKeepStatic(store, proposed, events, 0, store[proposed.jackpotId]);
  }

  /** Without interference an update succeeds exactly when its target exists. */
  lemma UncontendedUpdate(store: map<string, Jackpot>, proposed: Jackpot)
    ensures var u := UpdateOutcome(store, proposed, []);
      && (u.result.Success? <==> proposed.jackpotId in store)
      && (proposed.jackpotId in store ==>
            u.store == store[proposed.jackpotId := Merge(store[proposed.jackpotId], proposed)])
      && (proposed.jackpotId !in store ==> u == Updated(store, Failure(UpdateTargetNotFound(proposed.jackpotId))))
  {
  }

  /** Every failure of an update is one of its three errors; the first leaves the
      store as it was. */
  lemma {:induction false} AttemptsFailure(store: map<string, Jackpot>, proposed: Jackpot, events: seq<Interference>, i: nat)
    requires i <= Retries
    requires Attempts(store, proposed, events, i).result.Failure?
    ensures Attempts(store, proposed, events, i).result.error
              in {DisappearedDuringUpdate(proposed.jackpotId), UpdateRetriesExhausted(proposed.jackpotId, Retries)}
    decreases Retries - i
  {
    var id := proposed.jackpotId;
    if i < Retries && id in store {
      var seen := Interfere(store, id, EventAt(events, i));
      if !(id in seen && seen[id] == store[id]) {
        AttemptsFailure(seen, proposed, events, i + 1);
      }
    }
  }

  lemma UpdateFailure(store: map<string, Jackpot>, proposed: Jackpot, events: seq<Interference>)
    requires UpdateOutcome(store, proposed, events).result.Failure?
    ensures var e := UpdateOutcome(store, proposed, events).result.error;
      || (e == UpdateTargetNotFound(proposed.jackpotId) && proposed.jackpotId !in store)
      || (e == DisappearedDuringUpdate(proposed.jackpotId) && proposed.jackpotId in store)
      || (e == UpdateRetriesExhausted(proposed.jackpotId, Retries) && proposed.jackpotId in store)
    ensures (UpdateOutcome(store, proposed, events).result.error == UpdateTargetNotFound(proposed.jackpotId))
              <==> proposed.jackpotId !in store
    ensures var e := UpdateOutcome(store, proposed, events).result.error;
      e.Exception() == (if proposed.jackpotId in store then IllegalStateException else IllegalArgumentException)
  {
    if proposed.jackpotId in store {
      AttemptsFailure(store, proposed, events, 0);
    }
  }

  /** `c` is the record stored under `id` at the start, or one that another writer
      stored from attempt `from` on. */
  ghost predicate StoredOrOverwritten(c: Jackpot, store: map<string, Jackpot>, id: string,
                                      events: seq<Interference>, from: nat)
  {
    (id in store && c == store[id]) || exists j :: from <= j < |events| && events[j] == Overwrite(c)
  }

  /** A failing run of attempts writes nothing of its own: the entry under the id is
      gone, or holds the record it held at the start or one another writer stored. */
  lemma {:induction false} AttemptsFailureWritesNothing(store: map<string, Jackpot>, proposed: Jackpot,
                                                       events: seq<Interference>, i: nat)
    requires i <= Retries
    requires Attempts(store, proposed, events, i).result.Failure?
    ensures var u := Attempts(store, proposed, events, i);
      proposed.jackpotId in u.store ==>
        StoredOrOverwritten(u.store[proposed.jackpotId], store, proposed.jackpotId, events, i)
    decreases Retries - i
  {
    var id := proposed.jackpotId;
    if i < Retries && id in store {
      var e := EventAt(events, i);
      var seen := Interfere(store, id, e);
      AttemptsFailureWritesNothing(seen, proposed, events, i + 1);
      var u := Attempts(seen, proposed, events, i + 1);
      if id in u.store && id in seen && u.store[id] == seen[id] {
        // the swap failed on a present entry, so another writer replaced it
        assert e.Overwrite? && i < |events| && events[i] == Overwrite(u.store[id]);
      }
    }
  }

  /** An update that fails leaves its target as it was or as other writers left it,
      never with the caller's pool written by this update. */
  lemma UpdateFailureWritesNothing(store: map<string, Jackpot>, proposed: Jackpot, events: seq<Interference>)
    requires UpdateOutcome(store, proposed, events).result.Failure?
    ensures var u := UpdateOutcome(store, proposed, events);
      proposed.jackpotId in u.store ==>
        StoredOrOverwritten(u.store[proposed.jackpotId], store, proposed.jackpotId, events, 0)
  {
    if proposed.jackpotId in store {
      AttemptsFailureWritesNothing(store, proposed, events, 0);
    }
  }

  /** A successful swap writes onto the record its attempt read, and that record was
      still in place: the one stored at the start or one another writer stored. */
  lemma {:induction false} AttemptsSuccessMergesStoredRecord(store: map<string, Jackpot>, proposed: Jackpot,
                                                            events: seq<Interference>, i: nat)
    requires i <= Retries
    requires Attempts(store, proposed, events, i).result.Success?
    ensures var u := Attempts(store, proposed, events, i);
      exists c :: u.result.value == Merge(c, proposed) && StoredOrOverwritten(c, store, proposed.jackpotId, events, i)
    decreases Retries - i
  {
    var id := proposed.jackpotId;
    var e := EventAt(events, i);
    var seen := Interfere(store, id, e);
    if id in seen && seen[id] == store[id] {
      assert StoredOrOverwritten(store[id], store, id, events, i);
    } else {
      AttemptsSuccessMergesStoredRecord(seen, proposed, events, i + 1);
      var c :| Attempts(seen, proposed, events, i + 1).result.value == Merge(c, proposed)
               && StoredOrOverwritten(c, seen, id, events, i + 1);
      if id in seen && c == seen[id] {
        assert e.Overwrite? && i < |events| && events[i] == Overwrite(c);
      }
      assert StoredOrOverwritten(c, store, id, events, i);
    }
  }

  /** Three overwrites in a row, each changing the entry, exhaust the retries; the
      store keeps the last other writer's record. */
  lemma ContentionExhaustsRetries(store: map<string, Jackpot>, proposed: Jackpot, a: Jackpot, b: Jackpot, c: Jackpot)
    requires proposed.jackpotId in store
    requires store[proposed.jackpotId] != a && a != b && b != c
    ensures UpdateOutcome(store, proposed, [Overwrite(a), Overwrite(b), Overwrite(c)])
              == Updated(store[proposed.jackpotId := c], Failure(UpdateRetriesExhausted(proposed.jackpotId, Retries)))
  {
    var id := proposed.jackpotId;
    var events := [Overwrite(a), Overwrite(b), Overwrite(c)];
    assert store[id := a][id := b][id := c] == store[id := c];
    assert Attempts(store[id := a][id := b][id := c], proposed, events, 3)
        == Updated(store[id := c], Failure(UpdateRetriesExhausted(id, Retries)));
  }

  /** An entry removed between the read and the compare-and-swap makes the next
      attempt fail: the jackpot disappeared during the update. */
  lemma RemovedDuringUpdate(store: map<string, Jackpot>, proposed: Jackpot)
    requires proposed.jackpotId in store
    ensures UpdateOutcome(store, proposed, [Remove])
              == Updated(store - {proposed.jackpotId}, Failure(DisappearedDuringUpdate(proposed.jackpotId)))
    ensures DisappearedDuringUpdate(proposed.jackpotId).Exception() == IllegalStateException
  {
  }

  /** The retried write is the caller's precomputed pool, not a change re-applied to
      the record it re-reads: when another writer changes the pool between this
      update's read and its compare-and-swap, the retry overwrites that change. */
  lemma LostUpdate(store: map<string, Jackpot>, proposed: Jackpot, other: Jackpot)
    requires proposed.jackpotId in store
    requires other != store[proposed.jackpotId]
    ensures var u := UpdateOutcome(store, proposed, [Overwrite(other)]);
      && u.result == Success(Merge(other, proposed))
      && u.store[proposed.jackpotId].currentPoolAmount == proposed.currentPoolAmount
      && u.store == store[proposed.jackpotId := Merge(other, proposed)]
  {
    var id := proposed.jackpotId;
    assert store[id := other][id := Merge(other, proposed)] == store[id := Merge(other, proposed)];
  }

  /** Only the first three events can matter: there are no more attempts. */
  lemma {:induction false} AttemptsUseThreeEvents(store: map<string, Jackpot>, proposed: Jackpot, events: seq<Interference>, i: nat)
    requires i <= Retries
    requires |events| >= Retries
    ensures Attempts(store, proposed, events, i) == Attempts(store, proposed, events[..Retries], i)
    decreases Retries - i
  {
    if i < Retries && proposed.jackpotId in store {
      assert EventAt(events, i) == EventAt(events[..Retries], i);
      var seen := Interfere(store, proposed.jackpotId, EventAt(events, i));
      AttemptsUseThreeEvents(seen, proposed, events, i + 1);
    }
  }
}
