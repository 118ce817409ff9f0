/**
 * A full IP-set update for an id the store does not hold builds a new set and fills it,
 * but never stores it (syncher/syncserver.go:90-98). Nothing else in the sync handlers puts
 * a set into the map, so a store that starts empty never holds an IP set, and every delta
 * update it receives is a protocol violation. This module shows that for the handler as
 * written, and gives the handler that stores the new set, with what it then guarantees.
 */
module IPSetFinding {
  import opened Wrappers
  import opened Proto
  import opened Store
  import opened Syncher
  import opened SyncherProperties

  /** As written: starting from an empty store, no stream of messages ever leaves an IP set
      in the store. */
  lemma {:induction false} FreshStoreNeverHoldsIPSets(updates: seq<ToDataplane>)
    ensures Replay(Empty(), updates).state.ipSetByID == map[]
    decreases |updates|
  {
    if updates != [] {
      var init := updates[..|updates| - 1];
      FreshStoreNeverHoldsIPSets(init);
      if Replay(Empty(), init).Completed? {
        var t := Replay(Empty(), init).state;
        var u := updates[|updates| - 1];
        if Apply(t, u).Ok? {
          ApplyRoutesToOneHandler(t, u);
          match u.payload
          case IpsetRemovePayload(r) =>
            assert IPSetRemoved(t, r).ipSetByID == map[];
          case _ =>
        }
      }
    }
  }

  /** As written: after any stream replayed from an empty store, a delta update of any set is
      rejected as a delta on an unknown set. */
  lemma DeltaAfterFreshStartFails(updates: seq<ToDataplane>, d: IPSetDeltaUpdate)
    ensures IPSetDeltaUpdated(Replay(Empty(), updates).state, d) == Err(UnknownIPSet(d.id))
  {
    FreshStoreNeverHoldsIPSets(updates);
  }

  /** As written: two full updates of the same set, {A, B} and then {B, C}, on an empty store
      leave no set at all, where {A, B, C} is the intended result. */
  lemma RepeatedFullUpdateLeavesNoSet(kind: IPSetType)
    ensures
      var first := ToDataplane(IpsetUpdatePayload(IPSetUpdate("S", kind, ["A", "B"])));
      var second := ToDataplane(IpsetUpdatePayload(IPSetUpdate("S", kind, ["B", "C"])));
      Replay(Empty(), [first, second]) == Completed(Empty())
  {
    var first := ToDataplane(IpsetUpdatePayload(IPSetUpdate("S", kind, ["A", "B"])));
    var second := ToDataplane(IpsetUpdatePayload(IPSetUpdate("S", kind, ["B", "C"])));
    assert [first][..0] == [];
    assert Replay(Empty(), [first]) == Completed(Empty());
    assert [first, second][..1] == [first];
  }

  /** Corrected full update: the set, old or newly made with the message's type, gains the
      members and is stored under its id. */
  function IPSetUpdatedCorrected(s: State, u: IPSetUpdate): (t: State)
    ensures u.id in t.ipSetByID
    ensures t.ipSetByID.Keys == s.ipSetByID.Keys + {u.id}
    ensures u.id in s.ipSetByID ==>
      t.ipSetByID[u.id] == IPSet(s.ipSetByID[u.id].kind, s.ipSetByID[u.id].members + Elems(u.members))
    ensures u.id !in s.ipSetByID ==> t.ipSetByID[u.id] == IPSet(u.kind, Elems(u.members))
    ensures forall id :: id in s.ipSetByID && id != u.id ==> t.ipSetByID[id] == s.ipSetByID[id]
    ensures t.policyByID == s.policyByID && t.profileByID == s.profileByID && t.endpoint == s.endpoint
  {
    var base := if u.id in s.ipSetByID then s.ipSetByID[u.id] else NewIPSet(u.kind);
    AddStringsIsUnion(base, u.members);
    s.(ipSetByID := s.ipSetByID[u.id := AddStrings(base, u.members)])
  }

  /** The corrected handler: as processIPSetUpdate, but a new set is stored. */
  method ProcessIPSetUpdateCorrected(store: PolicyStore, update: IPSetUpdate)
    requires store.writer
    modifies store`ipSetByID
    ensures store.Snapshot() == IPSetUpdatedCorrected(old(store.Snapshot()), update)
  {
    var s := if update.id in store.ipSetByID then store.ipSetByID[update.id] else NewIPSet(update.kind);
    ghost var s0 := s;
    for i := 0 to |update.members|
      invariant s == AddStrings(s0, update.members[..i])
    {
      assert update.members[..i + 1][..i] == update.members[..i];
      s := s.AddString(update.members[i]);
    }
    assert update.members[..|update.members|] == update.members;
    store.ipSetByID := store.ipSetByID[update.id := s];
  }

  /** Corrected: once a full update for a set has been applied, a delta update for that set
      is accepted. */
  lemma CorrectedFullUpdateEnablesDelta(s: State, u: IPSetUpdate, d: IPSetDeltaUpdate)
    requires d.id == u.id
    ensures IPSetDeltaUpdated(IPSetUpdatedCorrected(s, u), d).Ok?
  {
  }

  /** Corrected: full updates {A, B} then {B, C} of one set on an empty store leave that set
      holding {A, B, C}. */
  lemma CorrectedRepeatedFullUpdateIsUnion(kind: IPSetType)
    ensures
      var t := IPSetUpdatedCorrected(IPSetUpdatedCorrected(Empty(), IPSetUpdate("S", kind, ["A", "B"])),
                                     IPSetUpdate("S", kind, ["B", "C"]));
      t.ipSetByID.Keys == {"S"} && t.ipSetByID["S"] == IPSet(kind, {"A", "B", "C"})
  {
  }
}
