/** The volatile key/value store that the cache and the lock share (a
    Redis client).  Only the commands the catalog issues are modelled:
    GET, SET with expiry, SET NX with expiry, DEL and SCAN with a MATCH
    pattern and a COUNT.

    Any command may fail in transport; whether it does is a
    nondeterministic choice, and a failed command has no effect on the
    store.  Expiry of entries is not modelled: an entry keeps the ttl it
    was written with. */
module Redis {
  import opened Model
  import opened Glob

  /** What a key holds, by how it was written. */
  datatype Value =
    | Text(text: string)                    // a plain string such as the lock sentinel "1"
    | FloatText(number: Float32)            // a float32 as the client formats it
    | ReviewJson(review: Review)            // json.Marshal of a *model.Review
    | ReviewListJson(reviews: seq<Review>)  // json.Marshal of a []*model.Review

  /** A stored value and the expiry, in seconds, it was written with. */
  datatype Entry = Entry(value: Value, ttl: nat)

  /** The outcome of a command: a value, redis.Nil, or a transport error. */
  datatype Reply<+T> = Reply(value: T) | Nil | Failure

  /** One command the store received, with whether it failed in transport
      (for SETNX, its whole reply). */
  datatype Command =
    | GetCmd(key: string, failed: bool)
    | SetCmd(key: string, failed: bool)
    | SetNXCmd(key: string, outcome: Reply<bool>)
    | DelCmd(keys: seq<string>, failed: bool)
    | ScanCmd(cursor: nat, pattern: string, count: nat, failed: bool)
  {
    predicate Failed() {
      if SetNXCmd? then outcome.Failure? else failed
    }
  }

  /** No command of the sequence failed. */
  predicate AllSucceeded(commands: seq<Command>) {
    forall i :: 0 <= i < |commands| ==> !commands[i].Failed()
  }

  /** Only the last command of the sequence may have failed: whoever sent
      them stopped at the first failure. */
  predicate StopsAtFirstFailure(commands: seq<Command>) {
    forall i :: 0 <= i < |commands| - 1 ==> !commands[i].Failed()
  }

  /** The keys of one SCAN batch that still exist and match the pattern. */
  function Selected(batch: seq<string>, pattern: string, data: map<string, Entry>): (r: seq<string>)
    ensures forall k :: k in r <==> k in batch && k in data && Match(pattern, k)
    decreases |batch|
  {
    if batch == [] then []
    else
      var rest := Selected(batch[1..], pattern, data);
      if batch[0] in data && Match(pattern, batch[0]) then [batch[0]] + rest else rest
  }

  /** The positions of the snapshot that one SCAN call with this cursor
      and COUNT walks. */
  function Window(snapshot: seq<string>, cursor: nat, count: nat): (w: seq<string>)
    ensures |w| <= count
    ensures forall i :: cursor <= i < cursor + count && i < |snapshot| ==> snapshot[i] in w
  {
    var lo := if cursor < |snapshot| then cursor else |snapshot|;
    var hi := if cursor + count < |snapshot| then cursor + count else |snapshot|;
    assert forall i :: cursor <= i < cursor + count && i < |snapshot| ==> snapshot[lo..hi][i - lo] == snapshot[i];
    snapshot[lo..hi]
  }

  /** The cursor SCAN returns: 0 once the walk reaches the end, and
      otherwise a position inside the keyspace `count` past the given one. */
  function NextCursor(length: nat, cursor: nat, count: nat): (next: nat)
    ensures next == 0 || (next < length && next == cursor + count)
    ensures cursor + count >= length ==> next == 0
  {
    if cursor + count < length then cursor + count else 0
  }

  /** Lists a set of keys in some order. */
  method Enumerate(keys: set<string>) returns (order: seq<string>)
    ensures forall k :: k in order <==> k in keys
  {
    var rest := keys;
    order := [];
    while rest != {}
      invariant rest <= keys
      invariant forall k :: k in keys <==> k in order || k in rest
      decreases rest
    {
      var k :| k in rest;
      order := order + [k];
      rest := rest - {k};
    }
  }

  class Store {
    var data: map<string, Entry>
    /** The listing of the keyspace that SCAN walks, taken when a scan
        starts at cursor 0. */
    var snapshot: seq<string>
    /** Every command received so far, in order. */
    ghost var log: seq<Command>

    constructor ()
      ensures data == map[] && snapshot == [] && log == []
    {
      data := map[];
      snapshot := [];
      log := [];
    }

    /** GET key */
    method Get(key: string) returns (r: Reply<Value>)
      modifies this`log
      ensures r.Failure? || r == (if key in data then Reply(data[key].value) else Nil)
      ensures log == old(log) + [GetCmd(key, r.Failure?)]
    {
      var failed: bool :| true;
      if failed {
        r := Failure;
      } else if key in data {
        r := Reply(data[key].value);
      } else {
        r := Nil;
      }
      log := log + [GetCmd(key, failed)];
    }

    /** SET key value EX ttl */
    method Set(key: string, v: Value, ttl: nat) returns (ok: bool)
      modifies this`data, this`log
      ensures data == if ok then old(data)[key := Entry(v, ttl)] else old(data)
      ensures log == old(log) + [SetCmd(key, !ok)]
    {
      ok :| true;
      log := log + [SetCmd(key, !ok)];
      if ok {
        data := data[key := Entry(v, ttl)];
      }
    }

    /** SET key value NX EX ttl: writes only when the key is absent and
        says whether it wrote. */
    method SetNX(key: string, v: Value, ttl: nat) returns (r: Reply<bool>)
      modifies this`data, this`log
      ensures r.Reply? || r.Failure?
      ensures log == old(log) + [SetNXCmd(key, r)]
      ensures r.Reply? ==> r.value == (key !in old(data))
      ensures data == if r == Reply(true) then old(data)[key := Entry(v, ttl)] else old(data)
    {
      var failed: bool :| true;
      if failed {
        r := Failure;
      } else if key in data {
        r := Reply(false);
      } else {
        data := data[key := Entry(v, ttl)];
        r := Reply(true);
      }
      log := log + [SetNXCmd(key, r)];
    }

    /** DEL key [key ...] */
    method Del(keys: seq<string>) returns (ok: bool)
      modifies this`data, this`log
      ensures data == if ok then old(data) - (set k | k in keys) else old(data)
      ensures log == old(log) + [DelCmd(keys, !ok)]
    {
      ok :| true;
      log := log + [DelCmd(keys, !ok)];
      if ok {
        data := data - (set k | k in keys);
      }
    }

    /** SCAN cursor MATCH pattern COUNT count.  A scan starting at cursor 0
        lists the keyspace; each call walks `count` positions of that
        listing from the cursor and returns the keys there that still
        exist and match. */
    method Scan(cursor: nat, pattern: string, count: nat) returns (keys: seq<string>, next: nat, ok: bool)
      requires count > 0
      modifies this`snapshot, this`log
      ensures log == old(log) + [ScanCmd(cursor, pattern, count, !ok)]
      ensures !ok ==> snapshot == old(snapshot) && keys == [] && next == 0
      ensures ok && cursor == 0 ==> forall k :: k in snapshot <==> k in data
      ensures ok && cursor != 0 ==> snapshot == old(snapshot)
      ensures ok ==> keys == Selected(Window(snapshot, cursor, count), pattern, data)
      ensures ok ==> next == NextCursor(|snapshot|, cursor, count)
    {
      ok :| true;
      log := log + [ScanCmd(cursor, pattern, count, !ok)];
      if !ok {
        keys, next := [], 0;
        return;
      }
      if cursor == 0 {
        snapshot := Enumerate(data.Keys);
      }
      keys := Selected(Window(snapshot, cursor, count), pattern, data);
      next := NextCursor(|snapshot|, cursor, count);
    }
  }
}
