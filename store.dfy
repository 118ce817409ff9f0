/**
 * The policy store: the in-memory cache the sync handlers write and the policy
 * evaluators read, guarded by one reader/writer lock.
 */
module Store {
  import opened Wrappers
  import opened Proto

  /** An IP set as the store holds it: the type tag it was created with and its member strings.
      How the tag interprets a member string belongs to the IP-set implementation and is not modelled. */
  datatype IPSet = IPSet(kind: IPSetType, members: set<string>) {

    /** Adds one member; adding a member already present changes nothing. */
    function AddString(m: string): (r: IPSet)
      ensures r.kind == kind && m in r.members
      ensures forall x :: x != m ==> (x in r.members <==> x in members)
    {
      IPSet(kind, members + {m})
    }

    /** Removes one member; removing a member that is absent changes nothing. */
    function RemoveString(m: string): (r: IPSet)
      ensures r.kind == kind && m !in r.members
      ensures forall x :: x != m ==> (x in r.members <==> x in members)
    {
      IPSet(kind, members - {m})
    }
  }

  /** A new, empty IP set of the given type. */
  function NewIPSet(kind: IPSetType): (s: IPSet)
    ensures s.kind == kind
    ensures forall m :: m !in s.members
  {
    IPSet(kind, {})
  }

  /** The contents of a store at one instant. A map value of None is a nil pointer stored under that key. */
  datatype State = State(
    policyByID: map<PolicyID, Option<Policy>>,
    profileByID: map<ProfileID, Option<Profile>>,
    ipSetByID: map<string, IPSet>,
    endpoint: Option<WorkloadEndpoint>)

  /** The contents of a newly built store: three empty maps and no endpoint. */
  function Empty(): State
  {
    State(map[], map[], map[], None)
  }

  class PolicyStore {
    var policyByID: map<PolicyID, Option<Policy>>
    var profileByID: map<ProfileID, Option<Profile>>
    var ipSetByID: map<string, IPSet>
    var endpoint: Option<WorkloadEndpoint>

    // The reader/writer lock, as much of it as pairing needs: whether the write lock is
    // held, and how many read locks are.
    ghost var writer: bool
    ghost var readers: nat

    /** The four fields as one value. */
    function Snapshot(): State
      reads this
    {
      State(policyByID, profileByID, ipSetByID, endpoint)
    }

    /** The write lock is never held together with a read lock. */
    ghost predicate LockValid()
      reads this
    {
      writer ==> readers == 0
    }

    /** No lock of either kind is held. */
    ghost predicate Unlocked()
      reads this
    {
      !writer && readers == 0
    }

    /** Builds an empty store with its lock free. */
    constructor ()
      ensures Snapshot() == Empty()
      ensures policyByID == map[] && profileByID == map[] && ipSetByID == map[]
      ensures endpoint == None
      ensures Unlocked() && LockValid()
    {
      policyByID := map[];
      profileByID := map[];
      ipSetByID := map[];
      endpoint := None;
      writer := false;
      readers := 0;
    }

    /** Takes the write lock; it is only free when nobody holds either lock. */
    method Lock()
      requires Unlocked()
      modifies this`writer
      ensures writer && readers == old(readers)
      ensures LockValid()
    {
      writer := true;
    }

    method Unlock()
      requires writer
      modifies this`writer
      ensures !writer
      ensures LockValid()
    {
      writer := false;
    }

    /** Takes a read lock; read locks are shared, but never held together with the write lock. */
    method RLock()
      requires !writer
      modifies this`readers
      ensures readers == old(readers) + 1
      ensures LockValid()
    {
      readers := readers + 1;
    }

    method RUnlock()
      requires !writer && readers > 0
      modifies this`readers
      ensures readers == old(readers) - 1
      ensures LockValid()
    {
      readers := readers - 1;
    }

    /** Runs writeFn on the store under the write lock, once, and leaves the store as writeFn
        made it, with the lock released again. */
    method Write(writeFn: State -> State)
      requires Unlocked()
      modifies this
      ensures Snapshot() == writeFn(old(Snapshot()))
      ensures Unlocked()
    {
      Lock();
      var next := writeFn(Snapshot());
      policyByID, profileByID, ipSetByID, endpoint :=
        next.policyByID, next.profileByID, next.ipSetByID, next.endpoint;
      Unlock();
    }

    /** Runs readFn on the store under a read lock, once, and releases that lock. Other readers
        may hold read locks meanwhile; a writer may not. The store is left as it was. */
    method Read<R>(readFn: State -> R) returns (r: R)
      requires !writer
      modifies this`readers
      ensures r == readFn(Snapshot())
      ensures Snapshot() == old(Snapshot())
      ensures !writer && readers == old(readers)
    {
      RLock();
      r := readFn(Snapshot());
      RUnlock();
    }
  }
}
