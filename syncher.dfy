/**
 * The sync side: the handler for each kind of update message, the dispatcher that picks
 * one of them, and the loop that applies received messages to the store in order.
 *
 * Each handler is a method that changes the store in place, specified by a function on
 * store contents (State). The Go code stops the process on a protocol violation; here the
 * handler returns the violation instead, having changed nothing.
 */
module Syncher {
  import opened Wrappers
  import opened Proto
  import opened Store

  /** The protocol violations that make the Go handlers stop the process. */
  datatype ProtocolError =
    | UnknownIPSet(id: string)
    | NilProfileID
    | NilPolicyID

  /** How the sync loop ends. It never ends normally: either the stream breaks after the last
      message received, or a message at the given index violates the protocol. */
  datatype Termination =
    | ConnectionBroken
    | ProtocolViolation(index: nat, error: ProtocolError)

  /** The members named in a message. */
  function Elems(ms: seq<string>): set<string>
  {
    set m | m in ms
  }

  /** Adds the members one at a time, in order. */
  function AddStrings(s: IPSet, ms: seq<string>): IPSet
    decreases |ms|
  {
    if ms == [] then s else AddStrings(s, ms[..|ms| - 1]).AddString(ms[|ms| - 1])
  }

  /** Removes the members one at a time, in order. */
  function RemoveStrings(s: IPSet, ms: seq<string>): IPSet
    decreases |ms|
  {
    if ms == [] then s else RemoveStrings(s, ms[..|ms| - 1]).RemoveString(ms[|ms| - 1])
  }

  // ---------------------------------------------------------------------------
  // What each handler does to the store contents.

  /** Full IP-set update. For a known id the set gains the members. For an unknown id a new
      set is made and filled, but it is never put into the map, so the store keeps what it had. */
  function IPSetUpdated(s: State, u: IPSetUpdate): State
  {
    if u.id in s.ipSetByID then
      s.(ipSetByID := s.ipSetByID[u.id := AddStrings(s.ipSetByID[u.id], u.members)])
    else
      s
  }

  /** Delta IP-set update: the added members go in first, then the removed ones go out.
      An unknown id is a protocol violation. */
  function IPSetDeltaUpdated(s: State, u: IPSetDeltaUpdate): Result<State, ProtocolError>
  {
    if u.id !in s.ipSetByID then
      Err(UnknownIPSet(u.id))
    else
      var set' := RemoveStrings(AddStrings(s.ipSetByID[u.id], u.addedMembers), u.removedMembers);
      Ok(s.(ipSetByID := s.ipSetByID[u.id := set']))
  }

  function IPSetRemoved(s: State, u: IPSetRemove): State
  {
    s.(ipSetByID := s.ipSetByID - {u.id})
  }

  function ProfileUpdated(s: State, u: ActiveProfileUpdate): Result<State, ProtocolError>
  {
    match u.id
    case None => Err(NilProfileID)
    case Some(id) => Ok(s.(profileByID := s.profileByID[id := u.profile]))
  }

  function ProfileRemoved(s: State, u: ActiveProfileRemove): Result<State, ProtocolError>
  {
    match u.id
    case None => Err(NilProfileID)
    case Some(id) => Ok(s.(profileByID := s.profileByID - {id}))
  }

  function PolicyUpdated(s: State, u: ActivePolicyUpdate): Result<State, ProtocolError>
  {
    match u.id
    case None => Err(NilPolicyID)
    case Some(id) => Ok(s.(policyByID := s.policyByID[id := u.policy]))
  }

  function PolicyRemoved(s: State, u: ActivePolicyRemove): Result<State, ProtocolError>
  {
    match u.id
    case None => Err(NilPolicyID)
    case Some(id) => Ok(s.(policyByID := s.policyByID - {id}))
  }

  function EndpointUpdated(s: State, u: WorkloadEndpointUpdate): State
  {
    s.(endpoint := u.endpoint)
  }

  function EndpointRemoved(s: State, u: WorkloadEndpointRemove): State
  {
    s.(endpoint := None)
  }

  /** What processUpdate does to the store contents: the handler of the payload's variant, or
      nothing for the in-sync marker and for a payload that matches no case. */
  function Apply(s: State, update: ToDataplane): (r: Result<State, ProtocolError>)
    ensures update.payload.InSyncPayload? || update.payload.NoPayload? ==> r == Ok(s)
    ensures r.Err? ==>
      || (update.payload.IpsetDeltaUpdatePayload? && r.error == UnknownIPSet(update.payload.ipsetDeltaUpdate.id))
      || ((update.payload.ActiveProfileUpdatePayload? || update.payload.ActiveProfileRemovePayload?)
          && r.error == NilProfileID)
      || ((update.payload.ActivePolicyUpdatePayload? || update.payload.ActivePolicyRemovePayload?)
          && r.error == NilPolicyID)
  {
    match update.payload
    case InSyncPayload(_) => Ok(s)
    case IpsetUpdatePayload(u) => Ok(IPSetUpdated(s, u))
    case IpsetDeltaUpdatePayload(u) => IPSetDeltaUpdated(s, u)
    case IpsetRemovePayload(u) => Ok(IPSetRemoved(s, u))
    case ActiveProfileUpdatePayload(u) => ProfileUpdated(s, u)
    case ActiveProfileRemovePayload(u) => ProfileRemoved(s, u)
    case ActivePolicyUpdatePayload(u) => PolicyUpdated(s, u)
    case ActivePolicyRemovePayload(u) => PolicyRemoved(s, u)
    case WorkloadEndpointUpdatePayload(u) => Ok(EndpointUpdated(s, u))
    case WorkloadEndpointRemovePayload(u) => Ok(EndpointRemoved(s, u))
    case NoPayload => Ok(s)
  }

  /** The result of applying a stream of messages. On failure: the index of the message that
      failed, its error, and the contents committed before it. */
  datatype Replayed =
    | Completed(state: State)
    | Failed(index: nat, error: ProtocolError, state: State)

  /** The left fold of Apply over the messages, in the order received, stopping at the first
      protocol violation. */
  function Replay(s: State, updates: seq<ToDataplane>): (r: Replayed)
    ensures updates == [] ==> r == Completed(s)
    ensures r.Failed? ==> r.index < |updates|
    decreases |updates|
  {
    if updates == [] then Completed(s)
    else
      match Replay(s, updates[..|updates| - 1])
      case Completed(t) =>
        (match Apply(t, updates[|updates| - 1])
         case Ok(t') => Completed(t')
         case Err(e) => Failed(|updates| - 1, e, t))
      case f => f
  }

  /** A handler outcome: on success the store holds exactly the new contents and no error is
      reported; on a violation the error is reported and the store holds what it held before. */
  predicate Committed(r: Result<State, ProtocolError>, before: State, after: State, err: Option<ProtocolError>)
  {
    match r
    case Ok(t) => err == None && after == t
    case Err(e) => err == Some(e) && after == before
  }

  // ---------------------------------------------------------------------------
  // The handlers. Each runs with the write lock held by its caller.

  method ProcessInSync(store: PolicyStore, inSync: InSync)
    requires store.writer
    ensures store.Snapshot() == old(store.Snapshot())
  {
  }

  method ProcessIPSetUpdate(store: PolicyStore, update: IPSetUpdate)
    requires store.writer
    modifies store`ipSetByID
    ensures store.Snapshot() == IPSetUpdated(old(store.Snapshot()), update)
  {
    var found := update.id in store.ipSetByID;
    var s := if found then store.ipSetByID[update.id] else NewIPSet(update.kind);
    ghost var s0 := s;
    for i := 0 to |update.members|
      invariant s == AddStrings(s0, update.members[..i])
    {
      assert update.members[..i + 1][..i] == update.members[..i];
      s := s.AddString(update.members[i]);
    }
    assert update.members[..|update.members|] == update.members;
    if found {
      // The set in the map is the one just changed; a new set is dropped here.
      store.ipSetByID := store.ipSetByID[update.id := s];
    }
  }

  method ProcessIPSetDeltaUpdate(store: PolicyStore, update: IPSetDeltaUpdate) returns (err: Option<ProtocolError>)
    requires store.writer
    modifies store`ipSetByID
    ensures Committed(IPSetDeltaUpdated(old(store.Snapshot()), update), old(store.Snapshot()), store.Snapshot(), err)
  {
    if update.id !in store.ipSetByID {
      return Some(UnknownIPSet(update.id));
    }
    var s := store.ipSetByID[update.id];
    ghost var s0 := s;
    for i := 0 to |update.addedMembers|
      invariant s == AddStrings(s0, update.addedMembers[..i])
    {
      assert update.addedMembers[..i + 1][..i] == update.addedMembers[..i];
      s := s.AddString(update.addedMembers[i]);
    }
    assert update.addedMembers[..|update.addedMembers|] == update.addedMembers;
    ghost var s1 := s;
    for i := 0 to |update.removedMembers|
      invariant s == RemoveStrings(s1, update.removedMembers[..i])
    {
      assert update.removedMembers[..i + 1][..i] == update.removedMembers[..i];
      s := s.RemoveString(update.removedMembers[i]);
    }
    assert update.removedMembers[..|update.removedMembers|] == update.removedMembers;
    store.ipSetByID := store.ipSetByID[update.id := s];
    err := None;
  }

  method ProcessIPSetRemove(store: PolicyStore, update: IPSetRemove)
    requires store.writer
    modifies store`ipSetByID
    ensures store.Snapshot() == IPSetRemoved(old(store.Snapshot()), update)
  {
    store.ipSetByID := store.ipSetByID - {update.id};
  }

  method ProcessActiveProfileUpdate(store: PolicyStore, update: ActiveProfileUpdate) returns (err: Option<ProtocolError>)
    requires store.writer
    modifies store`profileByID
    ensures Committed(ProfileUpdated(old(store.Snapshot()), update), old(store.Snapshot()), store.Snapshot(), err)
  {
    if update.id == None {
      return Some(NilProfileID);
    }
    store.profileByID := store.profileByID[update.id.value := update.profile];
    err := None;
  }

  method ProcessActiveProfileRemove(store: PolicyStore, update: ActiveProfileRemove) returns (err: Option<ProtocolError>)
    requires store.writer
    modifies store`profileByID
    ensures Committed(ProfileRemoved(old(store.Snapshot()), update), old(store.Snapshot()), store.Snapshot(), err)
  {
    if update.id == None {
      return Some(NilProfileID);
    }
    store.profileByID := store.profileByID - {update.id.value};
    err := None;
  }

  method ProcessActivePolicyUpdate(store: PolicyStore, update: ActivePolicyUpdate) returns (err: Option<ProtocolError>)
    requires store.writer
    modifies store`policyByID
    ensures Committed(PolicyUpdated(old(store.Snapshot()), update), old(store.Snapshot()), store.Snapshot(), err)
  {
    if update.id == None {
      return Some(NilPolicyID);
    }
    store.policyByID := store.policyByID[update.id.value := update.policy];
    err := None;
  }

  method ProcessActivePolicyRemove(store: PolicyStore, update: ActivePolicyRemove) returns (err: Option<ProtocolError>)
    requires store.writer
    modifies store`policyByID
    ensures Committed(PolicyRemoved(old(store.Snapshot()), update), old(store.Snapshot()), store.Snapshot(), err)
  {
    if update.id == None {
      return Some(NilPolicyID);
    }
    store.policyByID := store.policyByID - {update.id.value};
    err := None;
  }

  method ProcessWorkloadEndpointUpdate(store: PolicyStore, update: WorkloadEndpointUpdate)
    requires store.writer
    modifies store`endpoint
    ensures store.Snapshot() == EndpointUpdated(old(store.Snapshot()), update)
  {
    store.endpoint := update.endpoint;
  }

  method ProcessWorkloadEndpointRemove(store: PolicyStore, update: WorkloadEndpointRemove)
    requires store.writer
    modifies store`endpoint
    ensures store.Snapshot() == EndpointRemoved(old(store.Snapshot()), update)
  {
    store.endpoint := None;
  }

  /** Hands the message to the handler of its payload's variant. */
  method ProcessUpdate(store: PolicyStore, update: ToDataplane) returns (err: Option<ProtocolError>)
    requires store.writer
    modifies store`policyByID, store`profileByID, store`ipSetByID, store`endpoint
    ensures Committed(Apply(old(store.Snapshot()), update), old(store.Snapshot()), store.Snapshot(), err)
  {
    err := None;
    match update.payload {
      case InSyncPayload(u) => ProcessInSync(store, u);
      case IpsetUpdatePayload(u) => ProcessIPSetUpdate(store, u);
      case IpsetDeltaUpdatePayload(u) => err := ProcessIPSetDeltaUpdate(store, u);
      case IpsetRemovePayload(u) => ProcessIPSetRemove(store, u);
      case ActiveProfileUpdatePayload(u) => err := ProcessActiveProfileUpdate(store, u);
      case ActiveProfileRemovePayload(u) => err := ProcessActiveProfileRemove(store, u);
      case ActivePolicyUpdatePayload(u) => err := ProcessActivePolicyUpdate(store, u);
      case ActivePolicyRemovePayload(u) => err := ProcessActivePolicyRemove(store, u);
      case WorkloadEndpointUpdatePayload(u) => ProcessWorkloadEndpointUpdate(store, u);
      case WorkloadEndpointRemovePayload(u) => ProcessWorkloadEndpointRemove(store, u);
      case NoPayload =>
    }
  }

  /** Once a prefix of the messages has failed, the replay of the whole stream is that failure. */
  lemma {:induction false} ReplayKeepsFailure(s: State, updates: seq<ToDataplane>, k: nat)
    requires k <= |updates| && Replay(s, updates[..k]).Failed?
    ensures Replay(s, updates) == Replay(s, updates[..k])
    decreases |updates|
  {
    if k < |updates| {
      var init := updates[..|updates| - 1];
      assert init[..k] == updates[..k];
      ReplayKeepsFailure(s, init, k);
    } else {
      assert updates[..k] == updates;
    }
  }

  /**
   * The receive loop. The network stream is given as the messages received before it broke.
   * Each message is applied under the write lock (the Write of the store with processUpdate
   * as its callback), in the order received; the loop stops at the first protocol violation.
   */
  method Sync(store: PolicyStore, received: seq<ToDataplane>) returns (outcome: Termination)
    requires store.Unlocked()
    modifies store
    ensures store.Unlocked()
    ensures match Replay(old(store.Snapshot()), received)
            case Completed(t) => outcome == ConnectionBroken && store.Snapshot() == t
            case Failed(i, e, t) => outcome == ProtocolViolation(i, e) && store.Snapshot() == t
  {
    ghost var s0 := store.Snapshot();
    for i := 0 to |received|
      invariant store.Unlocked()
      invariant Replay(s0, received[..i]) == Completed(store.Snapshot())
    {
      assert received[..i + 1][..i] == received[..i];
      store.Lock();
      var err := ProcessUpdate(store, received[i]);
      store.Unlock();
      if err.Some? {
        ReplayKeepsFailure(s0, received, i + 1);
        return ProtocolViolation(i, err.value);
      }
    }
    assert received[..|received|] == received;
    outcome := ConnectionBroken;
  }
}
