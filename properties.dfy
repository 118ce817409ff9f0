/**
 * What the handlers, the dispatcher and the receive loop promise, proved about the
 * functions that specify them.
 */
module SyncherProperties {
  import opened Wrappers
  import opened Proto
  import opened Store
  import opened Syncher

  // ---------------------------------------------------------------------------
  // Adding and removing members one at a time.

  /** Adding the members in order gives the union with all of them; nothing is lost. */
  lemma {:induction false} AddStringsIsUnion(s: IPSet, ms: seq<string>)
    ensures AddStrings(s, ms) == IPSet(s.kind, s.members + Elems(ms))
    decreases |ms|
  {
    if ms != [] {
      var init := ms[..|ms| - 1];
      AddStringsIsUnion(s, init);
      assert Elems(ms) == Elems(init) + {ms[|ms| - 1]} by {
        assert ms == init + [ms[|ms| - 1]];
      }
    }
  }

  /** Removing the members in order gives the difference with all of them. */
  lemma {:induction false} RemoveStringsIsDifference(s: IPSet, ms: seq<string>)
    ensures RemoveStrings(s, ms) == IPSet(s.kind, s.members - Elems(ms))
    decreases |ms|
  {
    if ms != [] {
      var init := ms[..|ms| - 1];
      RemoveStringsIsDifference(s, init);
      assert Elems(ms) == Elems(init) + {ms[|ms| - 1]} by {
        assert ms == init + [ms[|ms| - 1]];
      }
    }
  }

  // ---------------------------------------------------------------------------
  // One handler at a time.

  /** A full update of a known set leaves it holding its old members and the new ones, with
      its type unchanged; every other set and every other field stays as it was. */
  lemma IPSetUpdateOfKnownSet(s: State, u: IPSetUpdate)
    requires u.id in s.ipSetByID
    ensures var t := IPSetUpdated(s, u);
      && t.ipSetByID.Keys == s.ipSetByID.Keys
      && t.ipSetByID[u.id].kind == s.ipSetByID[u.id].kind
      && t.ipSetByID[u.id].members == s.ipSetByID[u.id].members + Elems(u.members)
      && (forall id :: id in s.ipSetByID && id != u.id ==> t.ipSetByID[id] == s.ipSetByID[id])
      && t.policyByID == s.policyByID && t.profileByID == s.profileByID && t.endpoint == s.endpoint
  {
    AddStringsIsUnion(s.ipSetByID[u.id], u.members);
  }

  /** A full update of an unknown set changes nothing: the set it builds is never stored. */
  lemma IPSetUpdateOfUnknownSet(s: State, u: IPSetUpdate)
    requires u.id !in s.ipSetByID
    ensures IPSetUpdated(s, u) == s
  {
  }

  /** A delta update fails exactly when the set is unknown. Otherwise the set ends as
      (old members + added) - removed: a member in both lists ends absent, a member only
      added ends present, an untouched member stays. Nothing else changes. */
  lemma IPSetDeltaUpdateEffect(s: State, u: IPSetDeltaUpdate)
    ensures IPSetDeltaUpdated(s, u).Err? <==> u.id !in s.ipSetByID
    ensures IPSetDeltaUpdated(s, u).Err? ==> IPSetDeltaUpdated(s, u).error == UnknownIPSet(u.id)
    ensures IPSetDeltaUpdated(s, u).Ok? ==>
      var t := IPSetDeltaUpdated(s, u).value;
      && t.ipSetByID.Keys == s.ipSetByID.Keys
      && t.ipSetByID[u.id].kind == s.ipSetByID[u.id].kind
      && t.ipSetByID[u.id].members
         == (s.ipSetByID[u.id].members + Elems(u.addedMembers)) - Elems(u.removedMembers)
      && (forall m :: m in u.removedMembers ==> m !in t.ipSetByID[u.id].members)
      && (forall m :: m in u.addedMembers && m !in u.removedMembers ==> m in t.ipSetByID[u.id].members)
      && (forall id :: id in s.ipSetByID && id != u.id ==> t.ipSetByID[id] == s.ipSetByID[id])
      && t.policyByID == s.policyByID && t.profileByID == s.profileByID && t.endpoint == s.endpoint
  {
    if u.id in s.ipSetByID {
      var before := s.ipSetByID[u.id];
      AddStringsIsUnion(before, u.addedMembers);
      RemoveStringsIsDifference(AddStrings(before, u.addedMembers), u.removedMembers);
    }
  }

  /** Removing a set deletes that key only; removing an unknown set changes nothing. */
  lemma IPSetRemoveEffect(s: State, u: IPSetRemove)
    ensures var t := IPSetRemoved(s, u);
      && t.ipSetByID.Keys == s.ipSetByID.Keys - {u.id}
      && (forall id :: id in t.ipSetByID ==> t.ipSetByID[id] == s.ipSetByID[id])
      && t.policyByID == s.policyByID && t.profileByID == s.profileByID && t.endpoint == s.endpoint
    ensures u.id !in s.ipSetByID ==> IPSetRemoved(s, u) == s
  {
  }

  /** A profile upsert with a nil id is a violation; otherwise the key holds exactly the
      payload sent and no other key or field changes. */
  lemma ProfileUpdateEffect(s: State, u: ActiveProfileUpdate)
    ensures ProfileUpdated(s, u).Err? <==> u.id == None
    ensures ProfileUpdated(s, u).Err? ==> ProfileUpdated(s, u).error == NilProfileID
    ensures ProfileUpdated(s, u).Ok? ==>
      var t := ProfileUpdated(s, u).value;
      && t.profileByID.Keys == s.profileByID.Keys + {u.id.value}
      && t.profileByID[u.id.value] == u.profile
      && (forall id :: id in s.profileByID && id != u.id.value ==> t.profileByID[id] == s.profileByID[id])
      && t.policyByID == s.policyByID && t.ipSetByID == s.ipSetByID && t.endpoint == s.endpoint
  {
  }

  /** A profile remove with a nil id is a violation; otherwise it deletes that key only, and
      removing an unknown profile changes nothing. */
  lemma ProfileRemoveEffect(s: State, u: ActiveProfileRemove)
    ensures ProfileRemoved(s, u).Err? <==> u.id == None
    ensures ProfileRemoved(s, u).Err? ==> ProfileRemoved(s, u).error == NilProfileID
    ensures ProfileRemoved(s, u).Ok? ==>
      var t := ProfileRemoved(s, u).value;
      && t.profileByID.Keys == s.profileByID.Keys - {u.id.value}
      && (forall id :: id in t.profileByID ==> t.profileByID[id] == s.profileByID[id])
      && t.policyByID == s.policyByID && t.ipSetByID == s.ipSetByID && t.endpoint == s.endpoint
    ensures u.id.Some? && u.id.value !in s.profileByID ==> ProfileRemoved(s, u) == Ok(s)
  {
    if u.id.Some? && u.id.value !in s.profileByID {
      assert s.profileByID - {u.id.value} == s.profileByID;
    }
  }

  /** A policy upsert with a nil id is a violation; otherwise the key holds exactly the
      payload sent and no other key or field changes. */
  lemma PolicyUpdateEffect(s: State, u: ActivePolicyUpdate)
    ensures PolicyUpdated(s, u).Err? <==> u.id == None
    ensures PolicyUpdated(s, u).Err? ==> PolicyUpdated(s, u).error == NilPolicyID
    ensures PolicyUpdated(s, u).Ok? ==>
      var t := PolicyUpdated(s, u).value;
      && t.policyByID.Keys == s.policyByID.Keys + {u.id.value}
      && t.policyByID[u.id.value] == u.policy
      && (forall id :: id in s.policyByID && id != u.id.value ==> t.policyByID[id] == s.policyByID[id])
      && t.profileByID == s.profileByID && t.ipSetByID == s.ipSetByID && t.endpoint == s.endpoint
  {
  }

  /** A policy remove with a nil id is a violation; otherwise it deletes that key only, and
      removing an unknown policy changes nothing. */
  lemma PolicyRemoveEffect(s: State, u: ActivePolicyRemove)
    ensures PolicyRemoved(s, u).Err? <==> u.id == None
    ensures PolicyRemoved(s, u).Err? ==> PolicyRemoved(s, u).error == NilPolicyID
    ensures PolicyRemoved(s, u).Ok? ==>
      var t := PolicyRemoved(s, u).value;
      && t.policyByID.Keys == s.policyByID.Keys - {u.id.value}
      && (forall id :: id in t.policyByID ==> t.policyByID[id] == s.policyByID[id])
      && t.profileByID == s.profileByID && t.ipSetByID == s.ipSetByID && t.endpoint == s.endpoint
    ensures u.id.Some? && u.id.value !in s.policyByID ==> PolicyRemoved(s, u) == Ok(s)
  {
    if u.id.Some? && u.id.value !in s.policyByID {
      assert s.policyByID - {u.id.value} == s.policyByID;
    }
  }

  /** An endpoint update installs the endpoint sent, an endpoint remove clears it; neither
      touches the three maps. */
  lemma EndpointEffect(s: State, u: WorkloadEndpointUpdate, r: WorkloadEndpointRemove)
    ensures var t := EndpointUpdated(s, u);
      t.endpoint == u.endpoint
      && t.policyByID == s.policyByID && t.profileByID == s.profileByID && t.ipSetByID == s.ipSetByID
    ensures var t := EndpointRemoved(s, r);
      t.endpoint == None
      && t.policyByID == s.policyByID && t.profileByID == s.profileByID && t.ipSetByID == s.ipSetByID
  {
  }

  // ---------------------------------------------------------------------------
  // The dispatcher.

  /** The four parts of the store. */
  datatype Field = PolicyField | ProfileField | IPSetField | EndpointField

  /** The part of the store the handler of a payload variant writes, if any. */
  function Target(p: Payload): Option<Field>
  {
    match p
    case IpsetUpdatePayload(_) => Some(IPSetField)
    case IpsetDeltaUpdatePayload(_) => Some(IPSetField)
    case IpsetRemovePayload(_) => Some(IPSetField)
    case ActiveProfileUpdatePayload(_) => Some(ProfileField)
    case ActiveProfileRemovePayload(_) => Some(ProfileField)
    case ActivePolicyUpdatePayload(_) => Some(PolicyField)
    case ActivePolicyRemovePayload(_) => Some(PolicyField)
    case WorkloadEndpointUpdatePayload(_) => Some(EndpointField)
    case WorkloadEndpointRemovePayload(_) => Some(EndpointField)
    case _ => None
  }

  /** Each message changes at most the one part of the store its variant's handler owns; the
      in-sync marker and a payload matching no case change nothing. A message fails exactly
      on a delta update of an unknown set or a profile or policy message with a nil id, and
      then changes nothing either (there is no state to commit). */
  lemma ApplyRoutesToOneHandler(s: State, update: ToDataplane)
    ensures Apply(s, update).Ok? ==>
      var t := Apply(s, update).value;
      && (Target(update.payload) != Some(PolicyField) ==> t.policyByID == s.policyByID)
      && (Target(update.payload) != Some(ProfileField) ==> t.profileByID == s.profileByID)
      && (Target(update.payload) != Some(IPSetField) ==> t.ipSetByID == s.ipSetByID)
      && (Target(update.payload) != Some(EndpointField) ==> t.endpoint == s.endpoint)
    ensures Target(update.payload) == None ==> Apply(s, update) == Ok(s)
    ensures Apply(s, update).Err? <==>
      match update.payload
      case IpsetDeltaUpdatePayload(u) => u.id !in s.ipSetByID
      case ActiveProfileUpdatePayload(u) => u.id == None
      case ActiveProfileRemovePayload(u) => u.id == None
      case ActivePolicyUpdatePayload(u) => u.id == None
      case ActivePolicyRemovePayload(u) => u.id == None
      case _ => false
  {
  }

  /** Applying a message a second time changes nothing: additive union, add-then-remove,
      delete, last-write-wins upsert and endpoint replacement are all idempotent. */
  lemma ApplyIsIdempotent(s: State, update: ToDataplane)
    requires Apply(s, update).Ok?
    ensures Apply(Apply(s, update).value, update) == Apply(s, update)
  {
    match update.payload
    case IpsetUpdatePayload(u) =>
      if u.id in s.ipSetByID {
        var t := IPSetUpdated(s, u);
        IPSetUpdateOfKnownSet(s, u);
        IPSetUpdateOfKnownSet(t, u);
        assert IPSetUpdated(t, u).ipSetByID == t.ipSetByID;
      }
    case IpsetDeltaUpdatePayload(u) =>
      var t := IPSetDeltaUpdated(s, u).value;
      IPSetDeltaUpdateEffect(s, u);
      IPSetDeltaUpdateEffect(t, u);
      var again := IPSetDeltaUpdated(t, u).value.ipSetByID[u.id];
      assert again.members == t.ipSetByID[u.id].members;
      assert again == t.ipSetByID[u.id];
      assert IPSetDeltaUpdated(t, u).value.ipSetByID == t.ipSetByID;
    case IpsetRemovePayload(u) =>
      assert s.ipSetByID - {u.id} - {u.id} == s.ipSetByID - {u.id};
    case ActiveProfileUpdatePayload(u) =>
      var id := u.id.value;
      assert s.profileByID[id := u.profile][id := u.profile] == s.profileByID[id := u.profile];
    case ActiveProfileRemovePayload(u) =>
      assert s.profileByID - {u.id.value} - {u.id.value} == s.profileByID - {u.id.value};
    case ActivePolicyUpdatePayload(u) =>
      var id := u.id.value;
      assert s.policyByID[id := u.policy][id := u.policy] == s.policyByID[id := u.policy];
    case ActivePolicyRemovePayload(u) =>
      assert s.policyByID - {u.id.value} - {u.id.value} == s.policyByID - {u.id.value};
    case _ =>
  }

  /** Of two upserts of the same profile, the later one wins outright. */
  lemma ProfileUpsertLastWriteWins(s: State, p1: ActiveProfileUpdate, p2: ActiveProfileUpdate)
    requires p1.id.Some? && p1.id == p2.id
    ensures ProfileUpdated(ProfileUpdated(s, p1).value, p2) == ProfileUpdated(s, p2)
  {
    assert s.profileByID[p1.id.value := p1.profile][p1.id.value := p2.profile]
        == s.profileByID[p1.id.value := p2.profile];
  }

  /** Of two upserts of the same policy, the later one wins outright. */
  lemma PolicyUpsertLastWriteWins(s: State, q1: ActivePolicyUpdate, q2: ActivePolicyUpdate)
    requires q1.id.Some? && q1.id == q2.id
    ensures PolicyUpdated(PolicyUpdated(s, q1).value, q2) == PolicyUpdated(s, q2)
  {
    assert s.policyByID[q1.id.value := q1.policy][q1.id.value := q2.policy]
        == s.policyByID[q1.id.value := q2.policy];
  }

  // ---------------------------------------------------------------------------
  // The receive loop.

  /** Replaying one more message: the messages so far, then that one through Apply. This is
      Replay's own defining equation, stated for a stream written as `updates + [u]`; it is a
      helper for ReplayConcat rather than a property of the receive loop in its own right. */
  lemma ReplayStep(s: State, updates: seq<ToDataplane>, u: ToDataplane)
    ensures Replay(s, updates + [u]) ==
      match Replay(s, updates)
      case Completed(t) =>
        (match Apply(t, u) case Ok(t') => Completed(t') case Err(e) => Failed(|updates|, e, t))
      case f => f
  {
  }

  /** The state a failed replay reports is what the messages before the failing one committed,
      and the failing message is the one that violates the protocol on that state. */
  lemma {:induction false} ReplayFailureIsPrefix(s: State, updates: seq<ToDataplane>)
    requires Replay(s, updates).Failed?
    ensures var f := Replay(s, updates);
      && f.index < |updates|
      && Replay(s, updates[..f.index]) == Completed(f.state)
      && Apply(f.state, updates[f.index]) == Err(f.error)
    decreases |updates|
  {
    var init := updates[..|updates| - 1];
    if Replay(s, init).Failed? {
      ReplayFailureIsPrefix(s, init);
      var i := Replay(s, init).index;
      assert updates[..i] == init[..i];
    }
  }

  /** Replaying two streams one after the other is replaying their concatenation. */
  lemma {:induction false} ReplayConcat(s: State, a: seq<ToDataplane>, b: seq<ToDataplane>)
    requires Replay(s, a).Completed?
    ensures Replay(s, a + b) ==
      match Replay(Replay(s, a).state, b)
      case Completed(t) => Completed(t)
      case Failed(i, e, t) => Failed(|a| + i, e, t)
    decreases |b|
  {
    if b == [] {
      assert a + b == a;
    } else {
      var init := b[..|b| - 1];
      var last := b[|b| - 1];
      ReplayConcat(s, a, init);
      assert a + b == (a + init) + [last];
      assert b == init + [last];
      ReplayStep(s, a + init, last);
      ReplayStep(Replay(s, a).state, init, last);
    }
  }

  /** An endpoint update followed by reading shows the endpoint sent; an endpoint remove after
      it leaves no endpoint. */
  lemma EndpointLifecycle(s: State, id: Option<WorkloadEndpointID>, e: WorkloadEndpoint)
    ensures
      var up := ToDataplane(WorkloadEndpointUpdatePayload(WorkloadEndpointUpdate(id, Some(e))));
      var rm := ToDataplane(WorkloadEndpointRemovePayload(WorkloadEndpointRemove(id)));
      && Replay(s, [up]) == Completed(s.(endpoint := Some(e)))
      && Replay(s, [up, rm]) == Completed(s.(endpoint := None))
  {
  }
}
