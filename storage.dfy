/**
 * The LevelDB backend of the blockchain store: a key-value adapter over a
 * handle opened by Database.NewLevelDB under the metric name "blockchain".
 * Its one piece of logic is Get, which turns the engine's not-found
 * sentinel into an ordinary miss.
 */
module StorageLevelDB {
  import opened Wrappers
  import opened Engine
  import Database

  /** What levelDBKV.Get returns: the value (nil when absent), whether it was found, and an error. */
  datatype GetResult = GetResult(data: Option<Bytes>, found: bool, err: Option<Error>)

  /**
   * The translation levelDBKV.Get applies to a DB.Get outcome. The
   * sentinel is recognised by its message text, so any error carrying
   * that text is a miss; every other error is passed on.
   */
  function AdaptGet(r: Result<Bytes>): (g: GetResult)
    ensures g.found <==> r.Success?
    ensures g.found ==> g.data == Some(r.value)
    ensures !g.found ==> g.data == None
    ensures g.err.None? <==> r.Success? || r.error.message == ErrNotFound.message
    ensures g.err.Some? ==> g.err.value == r.error
  {
    match r
    case Success(data) => GetResult(Some(data), true, None)
    case Failure(e) =>
      if e.message == "leveldb: not found" then GetResult(None, false, None)
      else GetResult(None, false, Some(e))
  }

  /** levelDBKV: the storage's view of an open handle. */
  class LevelDBKV {
    const db: DB

    constructor (db: DB)
      ensures this.db == db
    {
      this.db := db;
    }

    /** Set: a pass-through to DB.Put. */
    method Set(p: Bytes, v: Bytes) returns (err: Option<Error>)
      modifies db
      ensures (db.Current(), err) == Store(old(db.Current()), p, v)
    {
      err := db.Put(p, v);
    }

    /** Get: DB.Get, with the not-found sentinel turned into (nil, false, nil). */
    method Get(p: Bytes) returns (r: GetResult)
      ensures r == AdaptGet(Lookup(db.Current(), p))
    {
      var res := db.Get(p);
      r := AdaptGet(res);
    }

    /** Close: a pass-through to DB.Close. */
    method Close() returns (err: Option<Error>)
      modifies db
      ensures (db.Current(), err) == Shutdown(old(db.Current()))
    {
      err := db.Close();
    }
  }

  /**
   * NewLevelDBStorage: open the database through NewLevelDB and wrap the
   * handle; any error from NewLevelDB is returned with no storage.
   */
  method NewLevelDBStorage(divisor: Option<Database.Int64>, cacheSizeMB: Option<Database.Int64>,
                           fdLimit: Result<Database.Uint64>, disk: Disk)
    returns (kv: LevelDBKV?, meter: Database.Meter?, err: Option<Error>)
    requires divisor.Some? && fdLimit.Success? ==> divisor.value != 0
    ensures kv == null <==> err.Some?
    ensures divisor.Some? && fdLimit.Failure? ==> err == Some(fdLimit.error)
    ensures divisor.None? || fdLimit.Success? ==> err == disk.openError
    ensures kv != null ==> fresh(kv) && fresh(kv.db) && Database.Tuned(kv.db.options, divisor, cacheSizeMB, fdLimit)
    ensures kv != null ==> kv.db.Current() == State(disk.contents, false, disk.fault)
    ensures meter != null <==> kv != null
    ensures meter != null ==> fresh(meter) && meter.Valid() && !meter.stopped && meter.tick == 1 && meter.State() == Database.MeterState(None, None)
  {
    var db;
    db, meter, err := Database.NewLevelDB(divisor, cacheSizeMB, fdLimit, disk);
    if err.Some? {
      return null, meter, err;
    }
    kv := new LevelDBKV(db);
  }

  // ---------------------------------------------------------------------
  // Properties of the adapter over the engine's state
  // ---------------------------------------------------------------------

  /** An open handle without a storage fault. */
  predicate Healthy(s: State)
  {
    !s.closed && s.fault.None?
  }

  /** A Set on a healthy handle succeeds and a Get of the same key returns the value. */
  lemma SetThenGet(s: State, k: Bytes, v: Bytes)
    requires Healthy(s)
    ensures var (s', err) := Store(s, k, v);
      err == None && AdaptGet(Lookup(s', k)) == GetResult(Some(v), true, None)
  {
  }

  /** A Set leaves every other key as it was. */
  lemma SetLeavesOthers(s: State, k: Bytes, v: Bytes, other: Bytes)
    requires k != other
    ensures Lookup(Store(s, k, v).0, other) == Lookup(s, other)
  {
  }

  /** Setting the same pair twice is the same as setting it once. */
  lemma SetIdempotent(s: State, k: Bytes, v: Bytes)
    ensures var (s1, e1) := Store(s, k, v);
      Store(s1, k, v) == (s1, e1)
  {
    var s1 := Store(s, k, v).0;
    if Healthy(s) {
      assert s1.contents[k := v] == s1.contents;
    }
  }

  /** On a healthy handle, Get finds exactly the stored keys, and a miss is not an error. */
  lemma FoundExactlyWhenStored(s: State, k: Bytes)
    requires Healthy(s)
    ensures AdaptGet(Lookup(s, k)).found <==> k in s.contents
    ensures AdaptGet(Lookup(s, k)).err == None
    ensures k !in s.contents ==> AdaptGet(Lookup(s, k)) == GetResult(None, false, None)
  {
  }

  /** A storage fault other than the sentinel reaches the caller of Get. */
  lemma FaultReported(s: State, k: Bytes)
    requires !s.closed && s.fault.Some? && s.fault.value.message != ErrNotFound.message
    ensures AdaptGet(Lookup(s, k)) == GetResult(None, false, s.fault)
  {
  }

  /**
   * After a successful Close, Get, Set and a second Close all report the
   * closed error and change nothing.
   */
  lemma ClosedStaysClosed(s: State, k: Bytes, v: Bytes)
    requires !s.closed
    ensures var (c, err) := Shutdown(s);
      && err == None
      && AdaptGet(Lookup(c, k)) == GetResult(None, false, Some(ErrClosed))
      && Store(c, k, v) == (c, Some(ErrClosed))
      && Shutdown(c) == (c, Some(ErrClosed))
  {
  }
}
