/**
 * The LevelDB wrapper of the `database` package: resolving the engine's
 * options from two environment tunables, opening the engine, and the
 * per-tick state machine of the background metering loop.
 */
module Database {
  import opened Wrappers
  import opened Engine

  // ---------------------------------------------------------------------
  // Go's integer division
  // ---------------------------------------------------------------------

  function Abs(x: int): nat { if x < 0 then -x else x }

  /**
   * Go's `a / b`, which truncates toward zero: the remainder has the sign
   * of the dividend and is smaller in magnitude than the divisor. So
   * GoDiv(-7, 2) is -3, where Dafny's Euclidean -7 / 2 is -4.
   */
  function GoDiv(a: int, b: int): (q: int)
    requires b != 0
    ensures Abs(a - q * b) < Abs(b)
    ensures a >= 0 ==> a - q * b >= 0
    ensures a <= 0 ==> a - q * b <= 0
  {
    var n := Abs(a) / Abs(b);
    GoDivRemainder(a, b, n);
    if (a >= 0) == (b > 0) then n else -n
  }

  lemma GoDivRemainder(a: int, b: int, n: int)
    requires b != 0 && n == Abs(a) / Abs(b)
    ensures var q := if (a >= 0) == (b > 0) then n else -n;
      && Abs(a - q * b) < Abs(b)
      && (a >= 0 ==> a - q * b >= 0)
      && (a <= 0 ==> a - q * b <= 0)
  {
    var x: int, y: int := Abs(a), Abs(b);
    var m: int := x % y;
    assert x == n * y + m && 0 <= m < y;
    var q := if (a >= 0) == (b > 0) then n else -n;
    // q * b is n * y with the sign of a
    SignedProduct(q, b, n, y, (a >= 0) == (b > 0));
    assert q * b == (if a >= 0 then n * y else -(n * y));
  }

  /** A product of `n` and `y`, each up to sign: its sign is the product of the signs. */
  lemma SignedProduct(q: int, b: int, n: int, y: int, same: bool)
    requires q == (if same then n else -n)
    requires b == y || b == -y
    ensures q * b == (if same == (b == y) then n * y else -(n * y))
  {
    if b == y {
      if !same { assert q * b == -(n * y); }
    } else {
      if same { assert q * b == -(n * y); } else { assert q * b == n * y; }
    }
  }

  /** On a non-negative dividend and a positive divisor Go and Dafny agree. */
  lemma GoDivNatural(a: int, b: int)
    requires a >= 0 && b > 0
    ensures GoDiv(a, b) == a / b
  {
    var q := GoDiv(a, b);
    var r := a - q * b;
    assert 0 <= r < b;
    assert a == q * b + r;
  }

  // ---------------------------------------------------------------------
  // 64-bit integers
  // ---------------------------------------------------------------------

  const TwoTo63: int := 0x8000_0000_0000_0000
  const TwoTo64: int := 0x1_0000_0000_0000_0000

  /** Go's int and int64 on a 64-bit platform. */
  type Int64 = x: int | -TwoTo63 <= x < TwoTo63
  /** Go's uint64, the type of an rlimit. */
  type Uint64 = x: int | 0 <= x < TwoTo64

  /** The two's-complement reading of `x` in 64 bits: how Go wraps int arithmetic and int(u). */
  function Wrap64(x: int): (r: Int64)
    ensures (x - r) % TwoTo64 == 0
    ensures -TwoTo63 <= x < TwoTo63 ==> r == x
  {
    (x + TwoTo63) % TwoTo64 - TwoTo63
  }

  /** The unlimited rlimit, RLIM_INFINITY, is -1 once converted with int(limit). */
  lemma InfinityAsInt()
    ensures Wrap64(TwoTo64 - 1) == -1
  {
  }

  /** The one Go quotient of two ints that overflows: the most negative int divided by -1. */
  lemma MinIntByMinusOne()
    ensures Wrap64(GoDiv(-TwoTo63, -1)) == -TwoTo63
  {
    assert GoDiv(-TwoTo63, -1) == TwoTo63;
  }

  // ---------------------------------------------------------------------
  // Option resolution (NewLevelDB)
  // ---------------------------------------------------------------------

  /** `int(limit) / value`, wrapped as Go's int division is. */
  function OpenFilesCache(limit: Uint64, divisor: Int64): Int64
    requires divisor != 0
  {
    Wrap64(GoDiv(Wrap64(limit), divisor))
  }

  /**
   * What NewLevelDB promises of the options it opens with, given the parse
   * outcomes of LEVELDB_FORCE_FILE_DESCRIPTOR_DIVISOR and
   * LEVELDB_CACHE_SIZE_MB and the current file-descriptor limit.
   */
  ghost predicate Tuned(o: Options, divisor: Option<Int64>, cacheSizeMB: Option<Int64>, fdLimit: Result<Uint64>)
    requires divisor.Some? ==> fdLimit.Success? && divisor.value != 0
  {
    && o.filter == BloomFilter(10)
    && o.disableSeeksCompaction
    && o.openFilesCacheCapacity ==
       (if divisor.Some? then OpenFilesCache(fdLimit.value, divisor.value) else DefaultOptions.openFilesCacheCapacity)
    && o.blockCacheCapacity ==
       (if cacheSizeMB.Some? then Wrap64(GoDiv(cacheSizeMB.value, 2) * MiB) else DefaultOptions.blockCacheCapacity)
    && o.writeBuffer ==
       (if cacheSizeMB.Some? then Wrap64(GoDiv(cacheSizeMB.value, 4) * MiB) else DefaultOptions.writeBuffer)
  }

  /**
   * The option-building prefix of NewLevelDB. `fdLimit` stands for the
   * outcome raiseAndReturnFDLimit would have; it is consulted only when the
   * divisor parsed. A zero divisor with a readable limit is a division by
   * zero in Go, so callers must not supply one.
   */
  method NewLevelDBOptions(divisor: Option<Int64>, cacheSizeMB: Option<Int64>, fdLimit: Result<Uint64>)
    returns (r: Result<Options>)
    requires divisor.Some? && fdLimit.Success? ==> divisor.value != 0
    ensures r.Failure? <==> divisor.Some? && fdLimit.Failure?
    ensures r.Failure? ==> r.error == fdLimit.error
    ensures r.Success? ==> Tuned(r.value, divisor, cacheSizeMB, fdLimit)
  {
    var opts := DefaultOptions;
    if divisor.Some? {
      if fdLimit.Failure? {
        return Failure(fdLimit.error);
      }
      var limit := fdLimit.value;
      var openFilesCacheCapacity := Wrap64(GoDiv(Wrap64(limit), divisor.value));
      opts := opts.(openFilesCacheCapacity := openFilesCacheCapacity);
    }
    opts := opts.(filter := BloomFilter(10));
    opts := opts.(disableSeeksCompaction := true);
    if cacheSizeMB.Some? {
      var blockCacheCapacity := Wrap64(GoDiv(cacheSizeMB.value, 2));
      opts := opts.(blockCacheCapacity := Wrap64(blockCacheCapacity * MiB));
      var writeBuffer := Wrap64(GoDiv(cacheSizeMB.value, 4));
      opts := opts.(writeBuffer := Wrap64(writeBuffer * MiB));
    }
    r := Success(opts);
  }

  /** A cache size of 100 MiB gives a 50 MiB block cache and a 25 MiB write buffer. */
  lemma CacheSize100(o: Options, divisor: Option<Int64>, fdLimit: Result<Uint64>)
    requires divisor.Some? ==> fdLimit.Success? && divisor.value != 0
    requires Tuned(o, divisor, Some(100), fdLimit)
    ensures o.blockCacheCapacity == 50 * MiB && o.writeBuffer == 25 * MiB
  {
    GoDivNatural(100, 2);
    GoDivNatural(100, 4);
  }

  /** A divisor of 2 under a limit of 4096 gives an open-files cache of 2048. */
  lemma Divisor2Limit4096(o: Options, cacheSizeMB: Option<Int64>)
    requires Tuned(o, Some(2), cacheSizeMB, Success(4096))
    ensures o.openFilesCacheCapacity == 2048
  {
    GoDivNatural(4096, 2);
  }

  /**
   * When the soft limit is unlimited, int(limit) is -1, so the forced
   * open-files cache is -1 for a divisor of 1 and 0 (the engine default)
   * for any larger one.
   */
  lemma UnlimitedFDLimit(o: Options, divisor: Int64, cacheSizeMB: Option<Int64>)
    requires divisor > 0
    requires Tuned(o, Some(divisor), cacheSizeMB, Success(TwoTo64 - 1))
    ensures o.openFilesCacheCapacity == if divisor == 1 then -1 else 0
  {
    InfinityAsInt();
    var q := GoDiv(-1, divisor);
    assert -1 - q * divisor <= 0 && Abs(-1 - q * divisor) < divisor;
    if divisor > 1 {
      assert q == 0;
    }
  }

  /**
   * NewLevelDB: resolve the options, open the engine on `disk`, and on
   * success start the metering loop on the fresh handle.
   */
  method NewLevelDB(divisor: Option<Int64>, cacheSizeMB: Option<Int64>, fdLimit: Result<Uint64>, disk: Disk)
    returns (db: DB?, meter: Meter?, err: Option<Error>)
    requires divisor.Some? && fdLimit.Success? ==> divisor.value != 0
    ensures db == null <==> err.Some?
    ensures divisor.Some? && fdLimit.Failure? ==> err == Some(fdLimit.error)
    ensures divisor.None? || fdLimit.Success? ==> err == disk.openError
    ensures db != null ==> fresh(db) && Tuned(db.options, divisor, cacheSizeMB, fdLimit)
    ensures db != null ==> db.Current() == State(disk.contents, false, disk.fault)
    ensures meter != null <==> db != null
    ensures meter != null ==> fresh(meter) && meter.Valid() && !meter.stopped && meter.tick == 1 && meter.State() == MeterState(None, None)
  {
    var opts := NewLevelDBOptions(divisor, cacheSizeMB, fdLimit);
    if opts.Failure? {
      return null, null, Some(opts.error);
    }
    db, err := OpenFile(opts.value, disk);
    if err.Some? {
      return db, null, err;
    }
    meter := new Meter();
  }

  // ---------------------------------------------------------------------
  // Gauges
  // ---------------------------------------------------------------------

  /** The metric names meter publishes, each under {"leveldb", <name>, ...}. */
  datatype GaugeName =
    | DiskSize | CompactTime | CompactRead | CompactWrite
    | WriteDelayNMeter | WriteDelayMeter | DiskRead | DiskWrite
    | MemCompaction | Level0Compaction | NonLevel0Compaction | SeekCompaction
    | LevelTableCount(level: nat)
  {
    /** The metric name as text. */
    function Text(): string
    {
      match this
      case DiskSize => "diskSize"
      case CompactTime => "compactTime"
      case CompactRead => "compactRead"
      case CompactWrite => "compactWrite"
      case WriteDelayNMeter => "writeDelayNMeter"
      case WriteDelayMeter => "writeDelayMeter"
      case DiskRead => "diskRead"
      case DiskWrite => "diskWrite"
      case MemCompaction => "memCompaction"
      case Level0Compaction => "level0Compaction"
      case NonLevel0Compaction => "nonlevel0Compaction"
      case SeekCompaction => "seekCompaction"
      case LevelTableCount(level) => "level_" + Decimal(level) + "_tableCount"
    }
  }

  /** The decimal digits of `n`, as fmt's %d writes them. */
  function Decimal(n: nat): string
  {
    if n < 10 then [(48 + n) as char] else Decimal(n / 10) + [(48 + n % 10) as char]
  }

  lemma {:induction false} DecimalDigits(n: nat)
    ensures |Decimal(n)| >= 1
    ensures n >= 10 ==> |Decimal(n)| >= 2
    ensures forall i :: 0 <= i < |Decimal(n)| ==> '0' <= Decimal(n)[i] <= '9'
  {
    if n >= 10 {
      DecimalDigits(n / 10);
    }
  }

  /** Different levels are written as different digit strings. */
  lemma {:induction false} DecimalInjective(a: nat, b: nat)
    requires Decimal(a) == Decimal(b)
    ensures a == b
  {
    DecimalDigits(a);
    DecimalDigits(b);
    if a >= 10 && b >= 10 {
      var da, db := Decimal(a), Decimal(b);
      assert da[..|da| - 1] == Decimal(a / 10) && db[..|db| - 1] == Decimal(b / 10);
      DecimalInjective(a / 10, b / 10);
      assert a % 10 == b % 10 by {
        assert da[|da| - 1] == db[|db| - 1];
      }
    }
  }

  /** Only the per-level names have an underscore after their first five letters. */
  lemma NameMark(n: GaugeName)
    ensures |n.Text()| > 5 && (n.Text()[5] == '_' <==> n.LevelTableCount?)
  {
  }

  /**
   * No two gauges share a metric name, so the sink can be keyed by
   * GaugeName without two gauges overwriting each other.
   */
  lemma NamesDistinct(a: GaugeName, b: GaugeName)
    requires a.Text() == b.Text()
    ensures a == b
  {
    NameMark(a);
    NameMark(b);
    if a.LevelTableCount? && b.LevelTableCount? {
      var ta, tb := Decimal(a.level), Decimal(b.level);
      assert a.Text() == "level_" + ta + "_tableCount";
      assert |ta| == |tb|;
      assert ta == a.Text()[6..6 + |ta|];
      assert tb == b.Text()[6..6 + |tb|];
      DecimalInjective(a.level, b.level);
    }
  }

  /** One SetGauge call. */
  datatype Gauge = Gauge(name: GaugeName, value: int)

  /** The four gauges derived from the compaction double buffer. */
  predicate IsCompactionGauge(n: GaugeName)
  {
    n.DiskSize? || n.CompactTime? || n.CompactRead? || n.CompactWrite?
  }

  /** What the metrics sink holds for `n` after the SetGauge calls `gs`: the last value set wins. */
  function Latest(gs: seq<Gauge>, n: GaugeName): Option<int>
  {
    if |gs| == 0 then None
    else if gs[|gs| - 1].name == n then Some(gs[|gs| - 1].value)
    else Latest(gs[..|gs| - 1], n)
  }

  lemma {:induction false} LatestConcat(a: seq<Gauge>, b: seq<Gauge>, n: GaugeName)
    ensures Latest(a + b, n) == if Latest(b, n).Some? then Latest(b, n) else Latest(a, n)
    decreases |b|
  {
    if |b| == 0 {
      assert a + b == a;
    } else {
      assert (a + b)[..|a + b| - 1] == a + b[..|b| - 1];
      LatestConcat(a, b[..|b| - 1], n);
    }
  }

  /** The sink after four SetGauge calls. */
  lemma LatestFour(g: seq<Gauge>, n: GaugeName)
    requires |g| == 4
    ensures Latest(g, n) ==
      if g[3].name == n then Some(g[3].value)
      else if g[2].name == n then Some(g[2].value)
      else if g[1].name == n then Some(g[1].value)
      else if g[0].name == n then Some(g[0].value)
      else None
  {
    var g1, g2, g3 := g[..1], g[..2], g[..3];
    assert g1[..0] == [] && g2[..1] == g1 && g3[..2] == g2;
    assert Latest(g1, n) == if g[0].name == n then Some(g[0].value) else None;
    assert Latest(g2, n) == if g[1].name == n then Some(g[1].value) else Latest(g1, n);
    assert Latest(g3, n) == if g[2].name == n then Some(g[2].value) else Latest(g2, n);
  }


  // ---------------------------------------------------------------------
  // The specification of one metering tick
  // ---------------------------------------------------------------------

  /** Nanoseconds in time.Minute, the warning rate limit. */
  const Minute: int := 60_000_000_000

  function Sum(s: seq<int>): int
  {
    if |s| == 0 then 0 else Sum(s[..|s| - 1]) + s[|s| - 1]
  }

  /** The four values one tick writes into its compactions slot. */
  function CompactionSums(s: DBStats): (c: seq<int>)
    ensures |c| == 4
  {
    [Sum(s.levelSizes), Sum(s.levelDurations), Sum(s.levelRead), Sum(s.levelWrite)]
  }

  /** The single-slot tracker values: delaystats and iostats. */
  datatype Counters = Counters(delayN: int, delayDuration: int, ioRead: int, ioWrite: int)

  /**
   * The tracker values the previous tick recorded (`prev` is its snapshot),
   * all zero before the first tick.
   */
  function Recorded(prev: Option<DBStats>): Counters
  {
    match prev
    case None => Counters(0, 0, 0, 0)
    case Some(p) => Counters(p.writeDelayCount, p.writeDelayDuration, p.ioRead, p.ioWrite)
  }

  function CompactionGauges(prev: Option<DBStats>, s: DBStats): seq<Gauge>
  {
    match prev
    case None => []
    case Some(p) =>
      var cur, last := CompactionSums(s), CompactionSums(p);
      [Gauge(DiskSize, cur[0]),
       Gauge(CompactTime, cur[1] - last[1]),
       Gauge(CompactRead, cur[2] - last[2]),
       Gauge(CompactWrite, cur[3] - last[3])]
  }

  function DelayGauges(prev: Option<DBStats>, s: DBStats): seq<Gauge>
  {
    [Gauge(WriteDelayNMeter, s.writeDelayCount - Recorded(prev).delayN),
     Gauge(WriteDelayMeter, s.writeDelayDuration - Recorded(prev).delayDuration)]
  }

  function IOGauges(prev: Option<DBStats>, s: DBStats): seq<Gauge>
  {
    [Gauge(DiskRead, s.ioRead - Recorded(prev).ioRead),
     Gauge(DiskWrite, s.ioWrite - Recorded(prev).ioWrite)]
  }

  function TrackerGauges(prev: Option<DBStats>, s: DBStats): seq<Gauge>
  {
    DelayGauges(prev, s) + IOGauges(prev, s)
  }

  function InstantGauges(s: DBStats): seq<Gauge>
  {
    [Gauge(MemCompaction, s.memComp),
     Gauge(Level0Compaction, s.level0Comp),
     Gauge(NonLevel0Compaction, s.nonLevel0Comp),
     Gauge(SeekCompaction, s.seekComp)]
  }

  function TableCountGauges(counts: seq<int>): seq<Gauge>
  {
    seq(|counts|, j requires 0 <= j < |counts| => Gauge(LevelTableCount(j), counts[j]))
  }

  /**
   * The gauges one successful tick with snapshot `s` emits, in order; `prev`
   * is the snapshot of the tick before, None on the first tick.
   */
  function TickGauges(prev: Option<DBStats>, s: DBStats): (g: seq<Gauge>)
    ensures |g| == (if prev.Some? then 4 else 0) + 8 + |s.levelTablesCounts|
  {
    CompactionGauges(prev, s) + TrackerGauges(prev, s) + InstantGauges(s) + TableCountGauges(s.levelTablesCounts)
  }

  /** Whether the tick logs the degraded-performance warning. */
  predicate ShouldWarn(prev: Option<DBStats>, s: DBStats, lastWarned: Option<int>, now: int)
  {
    var rec := Recorded(prev);
    && s.writePaused
    && s.writeDelayCount - rec.delayN == 0
    && s.writeDelayDuration - rec.delayDuration == 0
    && (lastWarned.None? || now > lastWarned.value + Minute)
  }

  /**
   * What the meter carries from one tick to the next: the previous snapshot
   * (which the compactions slot, delaystats and iostats hold) and
   * lastWritePaused.
   */
  datatype MeterState = MeterState(previous: Option<DBStats>, lastWarned: Option<int>)

  /** The meter state after a successful tick with snapshot `s` at time `now`. */
  function Advance(m: MeterState, s: DBStats, now: int): (r: MeterState)
  {
    MeterState(Some(s), if ShouldWarn(m.previous, s, m.lastWarned, now) then Some(now) else m.lastWarned)
  }

  // ---------------------------------------------------------------------
  // Properties of one tick
  // ---------------------------------------------------------------------

  /** The table-count gauges set exactly one value per level of the snapshot. */
  lemma {:induction false} TableLatest(counts: seq<int>, n: GaugeName)
    ensures Latest(TableCountGauges(counts), n).Some? <==> n.LevelTableCount? && n.level < |counts|
    ensures n.LevelTableCount? && n.level < |counts| ==>
      Latest(TableCountGauges(counts), n) == Some(counts[n.level])
  {
    if |counts| > 0 {
      var init := counts[..|counts| - 1];
      assert TableCountGauges(counts)[..|counts| - 1] == TableCountGauges(init);
      TableLatest(init, n);
    }
  }

  /** The sink after one tick, in terms of its four groups of gauges. */
  lemma TickLatest(prev: Option<DBStats>, s: DBStats, n: GaugeName)
    ensures var c, t, i, l := CompactionGauges(prev, s), TrackerGauges(prev, s), InstantGauges(s),
                              TableCountGauges(s.levelTablesCounts);
      Latest(TickGauges(prev, s), n) ==
        if Latest(l, n).Some? then Latest(l, n)
        else if Latest(i, n).Some? then Latest(i, n)
        else if Latest(t, n).Some? then Latest(t, n)
        else Latest(c, n)
  {
    var c, t, i, l := CompactionGauges(prev, s), TrackerGauges(prev, s), InstantGauges(s), TableCountGauges(s.levelTablesCounts);
    LatestConcat(c + t + i, l, n);
    LatestConcat(c + t, i, n);
    LatestConcat(c, t, n);
  }

  /** The value a fixed-name gauge holds after one tick. */
  lemma FixedLatest(prev: Option<DBStats>, s: DBStats, n: GaugeName)
    requires !n.LevelTableCount?
    ensures Latest(TickGauges(prev, s), n) ==
      if Latest(InstantGauges(s), n).Some? then Latest(InstantGauges(s), n)
      else if Latest(TrackerGauges(prev, s), n).Some? then Latest(TrackerGauges(prev, s), n)
      else Latest(CompactionGauges(prev, s), n)
  {
    TickLatest(prev, s, n);
    TableLatest(s.levelTablesCounts, n);
  }

  /** Tick 1 only seeds the double buffer: no compaction gauge is set. */
  lemma SeedingTick(s: DBStats, n: GaugeName)
    requires IsCompactionGauge(n)
    ensures Latest(TickGauges(None, s), n) == None
  {
    CompactionLatest(None, s, n);
  }

  /**
   * From tick 2 on, diskSize is the current level-size sum and the other
   * three compaction gauges are the change since the previous tick.
   */
  lemma CompactionTick(prev: DBStats, s: DBStats)
    ensures var g := TickGauges(Some(prev), s);
      && Latest(g, DiskSize) == Some(Sum(s.levelSizes))
      && Latest(g, CompactTime) == Some(Sum(s.levelDurations) - Sum(prev.levelDurations))
      && Latest(g, CompactRead) == Some(Sum(s.levelRead) - Sum(prev.levelRead))
      && Latest(g, CompactWrite) == Some(Sum(s.levelWrite) - Sum(prev.levelWrite))
  {
    var p := Some(prev);
    CompactionLatest(p, s, DiskSize);
    CompactionLatest(p, s, CompactTime);
    CompactionLatest(p, s, CompactRead);
    CompactionLatest(p, s, CompactWrite);
    LatestFour(CompactionGauges(p, s), DiskSize);
    LatestFour(CompactionGauges(p, s), CompactTime);
    LatestFour(CompactionGauges(p, s), CompactRead);
    LatestFour(CompactionGauges(p, s), CompactWrite);
  }

  /** A compaction gauge after one tick holds what the compaction group set it to. */
  lemma CompactionLatest(prev: Option<DBStats>, s: DBStats, n: GaugeName)
    requires IsCompactionGauge(n)
    ensures Latest(TickGauges(prev, s), n) == Latest(CompactionGauges(prev, s), n)
  {
    FixedLatest(prev, s, n);
    LatestFour(TrackerGauges(prev, s), n);
    LatestFour(InstantGauges(s), n);
  }

  predicate IsTrackerGauge(n: GaugeName)
  {
    n.WriteDelayNMeter? || n.WriteDelayMeter? || n.DiskRead? || n.DiskWrite?
  }

  /**
   * On every tick, the four tracker gauges are the counter minus the value
   * recorded by the previous tick (zero on tick 1).
   */
  lemma TrackerTick(prev: Option<DBStats>, s: DBStats)
    ensures var g, rec := TickGauges(prev, s), Recorded(prev);
      && Latest(g, WriteDelayNMeter) == Some(s.writeDelayCount - rec.delayN)
      && Latest(g, WriteDelayMeter) == Some(s.writeDelayDuration - rec.delayDuration)
      && Latest(g, DiskRead) == Some(s.ioRead - rec.ioRead)
      && Latest(g, DiskWrite) == Some(s.ioWrite - rec.ioWrite)
  {
    forall n | IsTrackerGauge(n)
      ensures Latest(TickGauges(prev, s), n) == Latest(TrackerGauges(prev, s), n)
    {
      FixedLatest(prev, s, n);
      LatestFour(InstantGauges(s), n);
      LatestFour(TrackerGauges(prev, s), n);
    }
    LatestFour(TrackerGauges(prev, s), WriteDelayNMeter);
    LatestFour(TrackerGauges(prev, s), WriteDelayMeter);
    LatestFour(TrackerGauges(prev, s), DiskRead);
    LatestFour(TrackerGauges(prev, s), DiskWrite);
  }

  /** On every tick the four compaction counters are published as they are. */
  lemma InstantTick(prev: Option<DBStats>, s: DBStats)
    ensures var g := TickGauges(prev, s);
      && Latest(g, MemCompaction) == Some(s.memComp)
      && Latest(g, Level0Compaction) == Some(s.level0Comp)
      && Latest(g, NonLevel0Compaction) == Some(s.nonLevel0Comp)
      && Latest(g, SeekCompaction) == Some(s.seekComp)
  {
    FixedLatest(prev, s, MemCompaction);
    FixedLatest(prev, s, Level0Compaction);
    FixedLatest(prev, s, NonLevel0Compaction);
    FixedLatest(prev, s, SeekCompaction);
    LatestFour(InstantGauges(s), MemCompaction);
    LatestFour(InstantGauges(s), Level0Compaction);
    LatestFour(InstantGauges(s), NonLevel0Compaction);
    LatestFour(InstantGauges(s), SeekCompaction);
  }

  /** On every tick there is one table-count gauge per level of the snapshot, and no other. */
  lemma TableCountTick(prev: Option<DBStats>, s: DBStats, j: nat)
    ensures Latest(TickGauges(prev, s), LevelTableCount(j)) ==
      if j < |s.levelTablesCounts| then Some(s.levelTablesCounts[j]) else None
  {
    var n := LevelTableCount(j);
    TickLatest(prev, s, n);
    TableLatest(s.levelTablesCounts, n);
    if prev.Some? { LatestFour(CompactionGauges(prev, s), n); }
    LatestFour(TrackerGauges(prev, s), n);
    LatestFour(InstantGauges(s), n);
  }

  /**
   * The sink of a running meter keeps a level's table count from an earlier
   * tick when a later snapshot has fewer levels: the later tick does not set
   * that gauge again.
   */
  lemma StaleTableCount(earlier: seq<Gauge>, prev: Option<DBStats>, s: DBStats, j: nat)
    requires j >= |s.levelTablesCounts|
    ensures Latest(earlier + TickGauges(prev, s), LevelTableCount(j)) == Latest(earlier, LevelTableCount(j))
  {
    LatestConcat(earlier, TickGauges(prev, s), LevelTableCount(j));
    TableCountTick(prev, s, j);
  }

  /**
   * The warning fires exactly when the engine reports a write pause, both
   * write-delay gauges of this tick are zero, and the last warning (if any)
   * is more than a minute old.
   */
  lemma WarnExactlyWhenStalled(prev: Option<DBStats>, s: DBStats, lastWarned: Option<int>, now: int)
    ensures var g := TickGauges(prev, s);
      ShouldWarn(prev, s, lastWarned, now) <==>
        && s.writePaused
        && Latest(g, WriteDelayNMeter) == Some(0)
        && Latest(g, WriteDelayMeter) == Some(0)
        && (lastWarned.None? || now > lastWarned.value + Minute)
  {
    TrackerTick(prev, s);
  }

  // ---------------------------------------------------------------------
  // The metering loop
  // ---------------------------------------------------------------------

  /** The outcome of one db.Stats call and the time at which that tick runs. */
  datatype Poll = Poll(stats: Result<DBStats>, now: int)

  /** The number of polls before the first failed one: the ticks meter completes. */
  function FirstFailure(polls: seq<Poll>): (n: nat)
    ensures n <= |polls|
    ensures forall k :: 0 <= k < n ==> polls[k].stats.Success?
    ensures n < |polls| ==> polls[n].stats.Failure?
  {
    if |polls| == 0 || polls[0].stats.Failure? then 0 else 1 + FirstFailure(polls[1..])
  }

  /** Where a run of the meter loop ends: its state, one gauge list per tick, and the warnings. */
  datatype Outcome = Outcome(final: MeterState, gauges: seq<seq<Gauge>>, warnings: seq<int>)

  /**
   * The meter loop from state `m` over `polls`: tick on every successful
   * poll, and stop at the first failed one.
   */
  function Replay(m: MeterState, polls: seq<Poll>): Outcome
    decreases |polls|
  {
    if |polls| == 0 || polls[0].stats.Failure? then Outcome(m, [], [])
    else
      var s, now := polls[0].stats.value, polls[0].now;
      var rest := Replay(Advance(m, s, now), polls[1..]);
      Outcome(rest.final,
              [TickGauges(m.previous, s)] + rest.gauges,
              (if ShouldWarn(m.previous, s, m.lastWarned, now) then [now] else []) + rest.warnings)
  }

  /**
   * The loop invariant of Meter.Run, one step on: what remains to replay
   * from poll k, after `emitted` and `warnings`, is one more tick followed
   * by what remains from poll k + 1.
   */
  lemma ReplayStep(m: MeterState, polls: seq<Poll>, k: nat, emitted: seq<seq<Gauge>>, warnings: seq<int>)
    requires k < |polls| && polls[k].stats.Success?
    ensures var s, now := polls[k].stats.value, polls[k].now;
      var ws := if ShouldWarn(m.previous, s, m.lastWarned, now) then [now] else [];
      var done, rest := Replay(m, polls[k..]), Replay(Advance(m, s, now), polls[k + 1..]);
      Outcome(done.final, emitted + done.gauges, warnings + done.warnings) ==
        Outcome(rest.final, (emitted + [TickGauges(m.previous, s)]) + rest.gauges, (warnings + ws) + rest.warnings)
  {
    var s, now := polls[k].stats.value, polls[k].now;
    var ws := if ShouldWarn(m.previous, s, m.lastWarned, now) then [now] else [];
    var rest := Replay(Advance(m, s, now), polls[k + 1..]);
    ReplayFrom(m, polls, k);
    OutcomeShift(Replay(m, polls[k..]), rest, TickGauges(m.previous, s), ws, emitted, warnings);
  }

  /** Moving one tick from what remains to replay onto what has been emitted. */
  lemma OutcomeShift(done: Outcome, rest: Outcome, g: seq<Gauge>, ws: seq<int>,
                     emitted: seq<seq<Gauge>>, warnings: seq<int>)
    requires done == Outcome(rest.final, [g] + rest.gauges, ws + rest.warnings)
    ensures Outcome(done.final, emitted + done.gauges, warnings + done.warnings) ==
      Outcome(rest.final, (emitted + [g]) + rest.gauges, (warnings + ws) + rest.warnings)
  {
    assert emitted + ([g] + rest.gauges) == (emitted + [g]) + rest.gauges;
    assert warnings + (ws + rest.warnings) == (warnings + ws) + rest.warnings;
  }

  /** Replaying from a successful poll k is that tick followed by the replay of the rest. */
  lemma ReplayFrom(m: MeterState, polls: seq<Poll>, k: nat)
    requires k < |polls| && polls[k].stats.Success?
    ensures var s, now := polls[k].stats.value, polls[k].now;
      var rest := Replay(Advance(m, s, now), polls[k + 1..]);
      Replay(m, polls[k..]) ==
        Outcome(rest.final, [TickGauges(m.previous, s)] + rest.gauges,
                (if ShouldWarn(m.previous, s, m.lastWarned, now) then [now] else []) + rest.warnings)
  {
    assert polls[k..][1..] == polls[k + 1..];
  }

  /** The loop completes exactly the ticks before the first failed poll. */
  lemma {:induction false} ReplayLength(m: MeterState, polls: seq<Poll>)
    ensures |Replay(m, polls).gauges| == FirstFailure(polls)
    decreases |polls|
  {
    if |polls| > 0 && polls[0].stats.Success? {
      ReplayLength(Advance(m, polls[0].stats.value, polls[0].now), polls[1..]);
    }
  }

  /** A run warns at most once per completed tick. */
  lemma {:induction false} ReplayWarnsPerTick(m: MeterState, polls: seq<Poll>)
    ensures |Replay(m, polls).warnings| <= |Replay(m, polls).gauges|
    decreases |polls|
  {
    if |polls| > 0 && polls[0].stats.Success? {
      ReplayWarnsPerTick(Advance(m, polls[0].stats.value, polls[0].now), polls[1..]);
    }
  }

  /**
   * Tick k reports against the snapshot of tick k - 1, or against the
   * starting state for the first tick.
   */
  lemma {:induction false} ReplayAt(m: MeterState, polls: seq<Poll>, k: nat)
    requires k < FirstFailure(polls)
    ensures |Replay(m, polls).gauges| == FirstFailure(polls)
    ensures Replay(m, polls).gauges[k] ==
      TickGauges(if k == 0 then m.previous else Some(polls[k - 1].stats.value), polls[k].stats.value)
    decreases k
  {
    ReplayLength(m, polls);
    if k > 0 {
      var m' := Advance(m, polls[0].stats.value, polls[0].now);
      ReplayAt(m', polls[1..], k - 1);
    }
  }

  /** lastWritePaused after a run is the last warning of the run, or what it was before. */
  lemma {:induction false} ReplayLastWarned(m: MeterState, polls: seq<Poll>)
    ensures var o := Replay(m, polls);
      o.final.lastWarned == if |o.warnings| == 0 then m.lastWarned else Some(o.warnings[|o.warnings| - 1])
    decreases |polls|
  {
    if |polls| > 0 && polls[0].stats.Success? {
      var m' := Advance(m, polls[0].stats.value, polls[0].now);
      ReplayLastWarned(m', polls[1..]);
    }
  }

  /** Warning times each more than a minute after `t`. */
  predicate AllAfter(ws: seq<int>, t: int)
  {
    forall x :: 0 <= x < |ws| ==> ws[x] > t + Minute
  }

  /** Warning times pairwise more than a minute apart. */
  predicate Spaced(ws: seq<int>)
  {
    forall x, y :: 0 <= x < y < |ws| ==> ws[y] - ws[x] > Minute
  }

  /** Every warning of a run is more than a minute after the warning before the run. */
  lemma {:induction false} ReplayAfter(m: MeterState, polls: seq<Poll>)
    requires m.lastWarned.Some?
    ensures AllAfter(Replay(m, polls).warnings, m.lastWarned.value)
    decreases |polls|
  {
    if |polls| > 0 && polls[0].stats.Success? {
      var s, now := polls[0].stats.value, polls[0].now;
      var m' := Advance(m, s, now);
      ReplayAfter(m', polls[1..]);
      var rest := Replay(m', polls[1..]).warnings;
      if ShouldWarn(m.previous, s, m.lastWarned, now) {
        var ws := [now] + rest;
        assert Replay(m, polls).warnings == ws;
        forall x | 0 < x < |ws| ensures ws[x] > m.lastWarned.value + Minute {
          assert ws[x] == rest[x - 1];
        }
      } else {
        assert Replay(m, polls).warnings == rest && m'.lastWarned == m.lastWarned;
      }
    }
  }

  /** The warnings of a run are pairwise more than a minute apart. */
  lemma {:induction false} ReplaySpaced(m: MeterState, polls: seq<Poll>)
    ensures Spaced(Replay(m, polls).warnings)
    decreases |polls|
  {
    if |polls| > 0 && polls[0].stats.Success? {
      var s, now := polls[0].stats.value, polls[0].now;
      var m' := Advance(m, s, now);
      ReplaySpaced(m', polls[1..]);
      var rest := Replay(m', polls[1..]).warnings;
      if ShouldWarn(m.previous, s, m.lastWarned, now) {
        ReplayAfter(m', polls[1..]);
        assert m'.lastWarned == Some(now);
        assert Replay(m, polls).warnings == [now] + rest;
        SpacedCons(now, rest);
      } else {
        assert Replay(m, polls).warnings == rest;
      }
    }
  }

  /** A warning followed by spaced warnings, each more than a minute after it, are spaced. */
  lemma SpacedCons(now: int, rest: seq<int>)
    requires Spaced(rest) && AllAfter(rest, now)
    ensures Spaced([now] + rest)
  {
    var ws := [now] + rest;
    forall x, y | 0 <= x < y < |ws| ensures ws[y] - ws[x] > Minute {
      assert ws[y] == rest[y - 1];
      if x > 0 {
        assert ws[x] == rest[x - 1];
      }
    }
  }

  /** A stall that persists over three five-second ticks warns once; a minute later, again. */
  lemma PersistentStallWarnsOnce(prev: Option<DBStats>, s: DBStats, t: int)
    requires s.writePaused
    requires s.writeDelayCount == Recorded(prev).delayN && s.writeDelayDuration == Recorded(prev).delayDuration
    ensures var polls := [Poll(Success(s), t), Poll(Success(s), t + 5_000_000_000),
                          Poll(Success(s), t + 10_000_000_000), Poll(Success(s), t + Minute + 1)];
      Replay(MeterState(prev, None), polls).warnings == [t, t + Minute + 1]
  {
    var polls := [Poll(Success(s), t), Poll(Success(s), t + 5_000_000_000),
                  Poll(Success(s), t + 10_000_000_000), Poll(Success(s), t + Minute + 1)];
    var m1 := MeterState(Some(s), Some(t));
    var m4 := MeterState(Some(s), Some(t + Minute + 1));
    assert polls[1..][1..][1..][1..] == [];
    assert Replay(m4, []).warnings == [];
    assert Replay(m1, polls[1..][1..][1..]).warnings == [t + Minute + 1];
    assert Replay(m1, polls[1..][1..]).warnings == [t + Minute + 1];
    assert Replay(m1, polls[1..]).warnings == [t + Minute + 1];
  }

  function Slot(n: nat): (r: nat)
    ensures r < 2
  {
    n % 2
  }

  function Row(a: array2<int>, r: nat): seq<int>
    requires a.Length0 == 2 && a.Length1 == 4 && r < 2
    reads a
  {
    [a[r, 0], a[r, 1], a[r, 2], a[r, 3]]
  }

  /** The level_<j>_tableCount gauges, one per level, in level order. */
  method TableCounts(counts: seq<int>) returns (gauges: seq<Gauge>)
    ensures gauges == TableCountGauges(counts)
  {
    gauges := [];
    var j := 0;
    while j < |counts|
      invariant 0 <= j <= |counts|
      invariant gauges == TableCountGauges(counts[..j])
    {
      assert TableCountGauges(counts[..j + 1]) == TableCountGauges(counts[..j]) + [Gauge(LevelTableCount(j), counts[j])];
      gauges := gauges + [Gauge(LevelTableCount(j), counts[j])];
      j := j + 1;
    }
    assert counts[..j] == counts;
  }

  /** The state of one running meter goroutine. */
  class Meter {
    /** Current and previous compaction sums, slot tick % 2 being current. */
    const compactions: array2<int>
    const delaystats: array<int>
    const iostats: array<int>
    /** When the last warning was logged; None stands for the zero time.Time. */
    var lastWritePaused: Option<int>
    /** The 1-based number of the next tick (the `i` of the loop). */
    var tick: nat
    /** The snapshot of the last completed tick, None before the first. */
    ghost var previous: Option<DBStats>
    /** Whether the loop has ended at a failed db.Stats call; it never resumes. */
    var stopped: bool

    ghost function State(): MeterState
      reads this`previous, this`lastWritePaused
    {
      MeterState(previous, lastWritePaused)
    }

    ghost predicate Valid()
      reads this`tick, this`previous, compactions, delaystats, iostats
    {
      && compactions.Length0 == 2 && compactions.Length1 == 4
      && delaystats.Length == 2 && iostats.Length == 2 && delaystats != iostats
      && tick >= 1 && (tick == 1 <==> previous.None?)
      && (previous.Some? ==> Row(compactions, Slot(tick - 1)) == CompactionSums(previous.value))
      && delaystats[0] == Recorded(previous).delayN && delaystats[1] == Recorded(previous).delayDuration
      && iostats[0] == Recorded(previous).ioRead && iostats[1] == Recorded(previous).ioWrite
    }

    constructor ()
      ensures Valid() && fresh(compactions) && fresh(delaystats) && fresh(iostats)
      ensures forall r, c | 0 <= r < 2 && 0 <= c < 4 :: compactions[r, c] == 0
      ensures tick == 1 && State() == MeterState(None, None) && !stopped
    {
      compactions := new int[2, 4]((_, _) => 0);
      delaystats := new int[2](_ => 0);
      iostats := new int[2](_ => 0);
      lastWritePaused := None;
      tick := 1;
      previous := None;
      stopped := false;
    }

    /**
     * Zero the compactions slot `cur` and fill it with the snapshot's sums,
     * accumulating the level durations one by one.
     */
    method RefillSlot(s: DBStats, cur: nat)
      requires compactions.Length0 == 2 && compactions.Length1 == 4 && cur < 2
      modifies compactions
      ensures Row(compactions, cur) == CompactionSums(s)
      ensures Row(compactions, 1 - cur) == old(Row(compactions, 1 - cur))
    {
      ghost var other := Row(compactions, 1 - cur);
      var j := 0;
      while j < compactions.Length1
        invariant 0 <= j <= 4
        invariant forall k :: 0 <= k < j ==> compactions[cur, k] == 0
        invariant Row(compactions, 1 - cur) == other
      {
        compactions[cur, j] := 0;
        j := j + 1;
      }
      compactions[cur, 0] := Sum(s.levelSizes);
      var d := 0;
      while d < |s.levelDurations|
        invariant 0 <= d <= |s.levelDurations|
        invariant compactions[cur, 0] == Sum(s.levelSizes)
        invariant compactions[cur, 1] == Sum(s.levelDurations[..d])
        invariant Row(compactions, 1 - cur) == other
      {
        assert s.levelDurations[..d + 1][..d] == s.levelDurations[..d];
        compactions[cur, 1] := compactions[cur, 1] + s.levelDurations[d];
        d := d + 1;
      }
      assert s.levelDurations[..d] == s.levelDurations;
      compactions[cur, 2] := Sum(s.levelRead);
      compactions[cur, 3] := Sum(s.levelWrite);
    }

    /** The compaction gauges, from slot `cur` against slot `prevSlot` (which holds `prev`'s sums). */
    method CompactionReport(ghost prev: Option<DBStats>, s: DBStats, cur: nat, prevSlot: nat)
      returns (gauges: seq<Gauge>)
      requires compactions.Length0 == 2 && compactions.Length1 == 4 && cur < 2 && prevSlot < 2
      requires tick >= 1 && (tick == 1 <==> prev.None?) && Row(compactions, cur) == CompactionSums(s)
      requires prev.Some? ==> Row(compactions, prevSlot) == CompactionSums(prev.value)
      ensures gauges == CompactionGauges(prev, s)
    {
      gauges := [];
      if tick > 1 {
        ghost var cur', last := Row(compactions, cur), Row(compactions, prevSlot);
        assert CompactionGauges(prev, s) ==
          [Gauge(DiskSize, cur'[0]), Gauge(CompactTime, cur'[1] - last[1]),
           Gauge(CompactRead, cur'[2] - last[2]), Gauge(CompactWrite, cur'[3] - last[3])];
        gauges := [Gauge(DiskSize, compactions[cur, 0]),
                   Gauge(CompactTime, compactions[cur, 1] - compactions[prevSlot, 1]),
                   Gauge(CompactRead, compactions[cur, 2] - compactions[prevSlot, 2]),
                   Gauge(CompactWrite, compactions[cur, 3] - compactions[prevSlot, 3])];
      }
    }

    /** The write-delay gauges, the rate-limited stall warning, and the delaystats update. */
    method DelayReport(ghost prev: Option<DBStats>, s: DBStats, now: int) returns (gauges: seq<Gauge>, warned: bool)
      requires delaystats.Length == 2
      requires delaystats[0] == Recorded(prev).delayN && delaystats[1] == Recorded(prev).delayDuration
      modifies this`lastWritePaused, delaystats
      ensures gauges == DelayGauges(prev, s)
      ensures warned == ShouldWarn(prev, s, old(lastWritePaused), now)
      ensures lastWritePaused == if warned then Some(now) else old(lastWritePaused)
      ensures delaystats[0] == s.writeDelayCount && delaystats[1] == s.writeDelayDuration
    {
      var delayN, duration, paused := s.writeDelayCount, s.writeDelayDuration, s.writePaused;
      gauges := [Gauge(WriteDelayNMeter, delayN - delaystats[0]),
                 Gauge(WriteDelayMeter, duration - delaystats[1])];
      warned := paused && delayN - delaystats[0] == 0 && duration - delaystats[1] == 0
                && (lastWritePaused.None? || now > lastWritePaused.value + Minute);
      if warned {
        lastWritePaused := Some(now);
      }
      delaystats[0], delaystats[1] := delayN, duration;
    }

    /** The disk IO gauges and the iostats update. */
    method IOReport(ghost prev: Option<DBStats>, s: DBStats) returns (gauges: seq<Gauge>)
      requires iostats.Length == 2
      requires iostats[0] == Recorded(prev).ioRead && iostats[1] == Recorded(prev).ioWrite
      modifies iostats
      ensures gauges == IOGauges(prev, s)
      ensures iostats[0] == s.ioRead && iostats[1] == s.ioWrite
    {
      var nRead, nWrite := s.ioRead, s.ioWrite;
      gauges := [Gauge(DiskRead, nRead - iostats[0]), Gauge(DiskWrite, nWrite - iostats[1])];
      iostats[0], iostats[1] := nRead, nWrite;
    }

    /**
     * One pass of the loop body after a successful db.Stats: refill slot
     * tick % 2, publish the gauges, maybe warn, record the trackers and
     * advance the tick.
     */
    method Tick(s: DBStats, now: int) returns (gauges: seq<Gauge>, warned: bool)
      requires Valid() && !stopped
      modifies this`lastWritePaused, this`tick, this`previous, compactions, delaystats, iostats
      ensures Valid() && tick == old(tick) + 1
      ensures State() == Advance(old(State()), s, now)
      ensures gauges == TickGauges(old(previous), s)
      ensures warned == ShouldWarn(old(previous), s, old(lastWritePaused), now)
    {
      var cur, prevSlot := Slot(tick), Slot(tick - 1);
      assert prevSlot == 1 - cur;
      ghost var prev := previous;
      RefillSlot(s, cur);
      var compacts := CompactionReport(prev, s, cur, prevSlot);
      var delays, w := DelayReport(prev, s, now);
      var io := IOReport(prev, s);
      var tables := TableCounts(s.levelTablesCounts);
      assert Row(compactions, cur) == CompactionSums(s);
      gauges := compacts + (delays + io) + InstantGauges(s) + tables;
      warned := w;
      previous := Some(s);
      tick := tick + 1;
      assert Slot(tick - 1) == cur;
      assert Recorded(previous) == Counters(s.writeDelayCount, s.writeDelayDuration, s.ioRead, s.ioWrite);
    }

    /**
     * The ticks of the meter loop over a finite run of polls: tick on each
     * successful poll, up to the first failed one.
     */
    method Ticks(polls: seq<Poll>) returns (emitted: seq<seq<Gauge>>, warnings: seq<int>)
      requires Valid() && !stopped
      modifies this`lastWritePaused, this`tick, this`previous, compactions, delaystats, iostats
      ensures Valid() && tick == old(tick) + |emitted|
      ensures var o := Replay(old(State()), polls);
        State() == o.final && emitted == o.gauges && warnings == o.warnings
      ensures |emitted| == FirstFailure(polls)
      ensures forall x, y :: 0 <= x < y < |warnings| ==> warnings[y] - warnings[x] > Minute
    {
      ghost var start := State();
      emitted, warnings := [], [];
      var k := 0;
      while k < |polls| && polls[k].stats.Success?
        invariant 0 <= k <= |polls| && Valid() && tick == old(tick) + |emitted|
        invariant var rest := Replay(State(), polls[k..]);
          Replay(start, polls) == Outcome(rest.final, emitted + rest.gauges, warnings + rest.warnings)
      {
        ReplayStep(State(), polls, k, emitted, warnings);
        var g, w := Tick(polls[k].stats.value, polls[k].now);
        var ws := if w then [polls[k].now] else [];
        emitted := emitted + [g];
        warnings := warnings + ws;
        k := k + 1;
      }
      // nothing is left to replay after the last successful poll
      assert Replay(State(), polls[k..]) == Outcome(State(), [], []);
      assert emitted + [] == emitted && warnings + [] == warnings;
      ReplayLength(start, polls);
      ReplaySpaced(start, polls);
      ReplayLastWarned(start, polls);
    }

    /** The break out of the meter loop on a failed db.Stats call: the meter never polls again. */
    method Stop()
      modifies this`stopped
      ensures stopped
    {
      stopped := true;
    }

    /**
     * The meter loop over a finite run of polls: the ticks of the successful
     * polls, and the end of the loop at the first failed one.
     */
    method Run(polls: seq<Poll>) returns (emitted: seq<seq<Gauge>>, warnings: seq<int>)
      requires Valid() && !stopped
      modifies this, compactions, delaystats, iostats
      ensures Valid() && tick == old(tick) + |emitted|
      ensures stopped <==> FirstFailure(polls) < |polls|
      ensures var o := Replay(old(State()), polls);
        State() == o.final && emitted == o.gauges && warnings == o.warnings
      ensures |emitted| == FirstFailure(polls)
      ensures forall x, y :: 0 <= x < y < |warnings| ==> warnings[y] - warnings[x] > Minute
    {
      emitted, warnings := Ticks(polls);
      if |emitted| < |polls| {
        Stop();
      }
    }
  }
}
