/** The per-product lock over the volatile store (RedisLock).

    Other holders of the lock are keys already present in the store.
    Whether the caller's context is cancelled while a retry wait is in
    progress is a nondeterministic choice; the waits themselves are only
    recorded (in seconds), no clock is modelled. */
module Lock {
  import opened Errors
  import opened Model
  import opened Keys
  import opened Redis

  /** The lock entry expires after ten seconds. */
  const LockTtl: nat := 10
  /** At most five SETNX attempts. */
  const MaxRetry: nat := 5
  /** The value a held lock key carries. */
  const Sentinel: Value := Text("1")

  /** What one SETNX attempt found. */
  datatype Attempt = Acquired | Held | Broken

  /** The error Lock returns when SETNX fails in transport. */
  const LockTransportError: Error := Wrapped("lock", StoreFailure)

  /** The SETNX command behind one attempt: a reply of true, a reply of
      false, or a transport failure. */
  function AttemptCommand(key: string, a: Attempt): (c: Command)
    ensures c.SetNXCmd? && c.key == key
    ensures c.Failed() <==> a == Broken
    ensures c.outcome == Reply(true) <==> a == Acquired
  {
    match a
    case Acquired => SetNXCmd(key, Reply(true))
    case Held => SetNXCmd(key, Reply(false))
    case Broken => SetNXCmd(key, Failure)
  }

  /** The SETNX commands a sequence of attempts issues, one per attempt. */
  function Issued(key: string, attempts: seq<Attempt>): (cs: seq<Command>)
    ensures |cs| == |attempts|
    ensures forall j :: 0 <= j < |attempts| ==> cs[j] == AttemptCommand(key, attempts[j])
  {
    seq(|attempts|, j requires 0 <= j < |attempts| => AttemptCommand(key, attempts[j]))
  }

  /** Issuing one more attempt appends its command to the log. */
  lemma IssuedStep(log0: seq<Command>, key: string, attempts: seq<Attempt>, a: Attempt)
    ensures (log0 + Issued(key, attempts)) + [AttemptCommand(key, a)] == log0 + Issued(key, attempts + [a])
  {
    assert Issued(key, attempts + [a]) == Issued(key, attempts) + [AttemptCommand(key, a)];
  }

  /** Exhaustion, transport failure and cancellation are three distinct
      errors: an error rooted in a transport failure is never mistaken for
      ErrLocked or for a cancelled context. */
  lemma {:induction false} LockErrorsDistinct(e: Error)
    requires Root(e) == StoreFailure
    ensures !Is(e, Locked) && !Is(e, ContextDone)
    ensures Locked != ContextDone
  {
    IsSentinel(e, Locked);
    IsSentinel(e, ContextDone);
  }

  class RedisLock {
    const store: Store

    constructor (store: Store)
      ensures this.store == store
    {
      this.store := store;
    }

    /** Tries SETNX on `products:locks:<id>` up to five times, waiting i
        seconds after failed attempt i.  `attempts` and `waits` record what
        each attempt found and which waits were started. */
    method Lock(id: ID) returns (err: Option<Error>, ghost attempts: seq<Attempt>, ghost waits: seq<nat>)
      modifies store`data, store`log
      // one SETNX on the lock key per attempt, and nothing else
      ensures store.log == old(store.log) + Issued(LockKey(id), attempts)
      ensures 1 <= |attempts| <= MaxRetry
      ensures forall j :: 0 <= j < |attempts| - 1 ==> attempts[j] == Held
      ensures err.None? <==> attempts[|attempts| - 1] == Acquired
      ensures err == Some(LockTransportError) <==> attempts[|attempts| - 1] == Broken
      ensures attempts[|attempts| - 1] == Held <==> err == Some(Locked) || err == Some(ContextDone)
      ensures err == Some(Locked) ==> |attempts| == MaxRetry
      ensures |waits| == if attempts[|attempts| - 1] == Held then |attempts| else |attempts| - 1
      ensures forall j :: 0 <= j < |waits| ==> waits[j] == j
      // the store: a success writes the sentinel, anything else writes nothing
      ensures err.None? ==> LockKey(id) !in old(store.data)
      ensures store.data == if err.None? then old(store.data)[LockKey(id) := Entry(Sentinel, LockTtl)]
                            else old(store.data)
      ensures LockKey(id) in old(store.data) ==> err.Some?
      ensures attempts[0] == Held ==> LockKey(id) in old(store.data)
    {
      var key := LockKey(id);
      attempts, waits := [], [];
      var i: nat := 0;
      while i < MaxRetry
        invariant i <= MaxRetry
        invariant |attempts| == i && forall j :: 0 <= j < i ==> attempts[j] == Held
        invariant |waits| == i && forall j :: 0 <= j < i ==> waits[j] == j
        invariant store.data == old(store.data)
        invariant store.log == old(store.log) + Issued(key, attempts)
        invariant i > 0 ==> key in store.data
      {
        var reply := store.SetNX(key, Sentinel, LockTtl);
        if reply.Failure? {
          IssuedStep(old(store.log), key, attempts, Broken);
          attempts := attempts + [Broken];
          return Some(LockTransportError), attempts, waits;
        }
        if reply.value {
          IssuedStep(old(store.log), key, attempts, Acquired);
          attempts := attempts + [Acquired];
          return None, attempts, waits;
        }
        IssuedStep(old(store.log), key, attempts, Held);
        attempts := attempts + [Held];
        waits := waits + [i];
        var cancelled: bool :| true;
        if cancelled {
          return Some(ContextDone), attempts, waits;
        }
        i := i + 1;
      }
      err := Some(Locked);
    }

    /** Deletes `products:locks:<id>` whoever set it. */
    method Unlock(id: ID) returns (err: Option<Error>)
      modifies store`data, store`log
      ensures err.None? || err == Some(Wrapped("unlock", StoreFailure))
      ensures store.log == old(store.log) + [DelCmd([LockKey(id)], err.Some?)]
      ensures store.data == if err.None? then old(store.data) - {LockKey(id)} else old(store.data)
    {
      var ok := store.Del([LockKey(id)]);
      assert (set k | k in [LockKey(id)]) == {LockKey(id)};
      err := if ok then None else Some(Wrapped("unlock", StoreFailure));
    }
  }

  /** Two Lock calls on the same product with no Unlock in between: at
      most one of them succeeds. */
  method LockTwice(l: RedisLock, id: ID) returns (first: Option<Error>, second: Option<Error>)
    modifies l.store`data, l.store`log
    ensures first.None? ==> second.Some?
  {
    ghost var a1, w1, a2, w2;
    first, a1, w1 := l.Lock(id);
    second, a2, w2 := l.Lock(id);
  }

  /** Lock, Unlock, Lock: the release makes the lock available again, so
      the second Lock can only fail for a reason other than its being held
      by the first. */
  method RelockAfterUnlock(l: RedisLock, id: ID)
    returns (first: Option<Error>, release: Option<Error>, second: Option<Error>, ghost attempts: seq<Attempt>)
    modifies l.store`data, l.store`log
    ensures |attempts| >= 1
    ensures first.None? && release.None? ==> attempts[0] != Held && second != Some(Locked)
  {
    ghost var a1, w1, w2;
    first, a1, w1 := l.Lock(id);
    release := l.Unlock(id);
    second, attempts, w2 := l.Lock(id);
  }
}
