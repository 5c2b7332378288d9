/**
 * The embedded LSM engine (goleveldb) as the adaptation layer sees it.
 * Its internals are opaque: the model keeps only its options record, its
 * statistics snapshot, its two sentinel errors, and its observable
 * key-value behaviour as a map together with a closed flag and a fault
 * oracle.
 */
module Engine {
  import opened Wrappers

  type Bytes = seq<bv8>

  /** The engine's sentinel for an absent key. */
  const ErrNotFound: Error := Error("leveldb: not found")
  /** The engine's error for any operation on a closed handle. */
  const ErrClosed: Error := Error("leveldb: closed")

  /** opt.MiB */
  const MiB: int := 1048576

  /** The filter policy: none, or a bloom filter with this many bits per key. */
  datatype Filter = NoFilter | BloomFilter(bitsPerKey: int)

  /**
   * The fields of opt.Options that the adaptation layer sets. A zero
   * capacity or buffer tells the engine to use its own default.
   */
  datatype Options = Options(
    openFilesCacheCapacity: int,
    filter: Filter,
    disableSeeksCompaction: bool,
    blockCacheCapacity: int,
    writeBuffer: int)

  /** The zero value `opt.Options{}`: every tunable left at the engine default. */
  const DefaultOptions: Options := Options(0, NoFilter, false, 0, 0)

  /**
   * The fields of leveldb.DBStats that the metering loop reads. Durations
   * are in nanoseconds; all integers are unbounded here.
   */
  datatype DBStats = DBStats(
    writeDelayCount: int,
    writeDelayDuration: int,
    writePaused: bool,
    ioWrite: int,
    ioRead: int,
    levelSizes: seq<int>,
    levelTablesCounts: seq<int>,
    levelRead: seq<int>,
    levelWrite: seq<int>,
    levelDurations: seq<int>,
    memComp: int,
    level0Comp: int,
    nonLevel0Comp: int,
    seekComp: int)

  /**
   * What lies at the database path before it is opened: whether opening
   * fails (lock held, unwritable, incompatible format), the stored pairs,
   * and the storage fault (if any) that every later read and write reports.
   */
  datatype Disk = Disk(openError: Option<Error>, contents: map<Bytes, Bytes>, fault: Option<Error>)

  /** The observable state of an open handle. */
  datatype State = State(contents: map<Bytes, Bytes>, closed: bool, fault: Option<Error>)

  /** DB.Get: the stored value, the closed error, the disk fault, or the not-found sentinel. */
  function Lookup(s: State, key: Bytes): (r: Result<Bytes>)
  {
    if s.closed then Failure(ErrClosed)
    else if s.fault.Some? then Failure(s.fault.value)
    else if key in s.contents then Success(s.contents[key])
    else Failure(ErrNotFound)
  }

  /** DB.Put: the new state and the returned error. */
  function Store(s: State, key: Bytes, value: Bytes): (State, Option<Error>)
  {
    if s.closed then (s, Some(ErrClosed))
    else if s.fault.Some? then (s, s.fault)
    else (s.(contents := s.contents[key := value]), None)
  }

  /** DB.Close: closing twice reports the closed error. */
  function Shutdown(s: State): (State, Option<Error>)
  {
    if s.closed then (s, Some(ErrClosed)) else (s.(closed := true), None)
  }

  /** An open goleveldb handle. */
  class DB {
    const options: Options
    const fault: Option<Error>
    var contents: map<Bytes, Bytes>
    var closed: bool

    function Current(): State
      reads this
    {
      State(contents, closed, fault)
    }

    constructor FromDisk(options: Options, disk: Disk)
      requires disk.openError.None?
      ensures this.options == options
      ensures Current() == State(disk.contents, false, disk.fault)
    {
      this.options := options;
      fault := disk.fault;
      contents := disk.contents;
      closed := false;
    }

    method Get(key: Bytes) returns (r: Result<Bytes>)
      ensures r == Lookup(Current(), key)
    {
      r := Lookup(Current(), key);
    }

    method Put(key: Bytes, value: Bytes) returns (err: Option<Error>)
      modifies this
      ensures (Current(), err) == Store(old(Current()), key, value)
    {
      var (next, e) := Store(Current(), key, value);
      contents, closed, err := next.contents, next.closed, e;
    }

    method Close() returns (err: Option<Error>)
      modifies this
      ensures (Current(), err) == Shutdown(old(Current()))
    {
      var (next, e) := Shutdown(Current());
      closed, err := next.closed, e;
    }
  }

  /** leveldb.OpenFile: fails with the disk's open error, or yields a fresh open handle. */
  method OpenFile(options: Options, disk: Disk) returns (db: DB?, err: Option<Error>)
    ensures err == disk.openError
    ensures db == null <==> err.Some?
    ensures db != null ==> fresh(db) && db.options == options
    ensures db != null ==> db.Current() == State(disk.contents, false, disk.fault)
  {
    if disk.openError.Some? {
      return null, disk.openError;
    }
    db := new DB.FromDisk(options, disk);
    err := None;
  }
}
