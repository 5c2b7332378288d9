# LevelDB adaptation layer of polygon-edge, in Dafny

This project models the layer between polygon-edge's blockchain store and
the embedded goleveldb engine, and proves properties of that model. The
layer has three parts:

- **Option resolution in `NewLevelDB`** (`database/leveldb.go`).
  - Two environment tunables turn into the engine's `opt.Options`: a divisor
    of the file-descriptor limit and a cache size in MiB.
  - The bloom filter (10 bits per key) and the disabling of seek compaction
    are fixed.
  - A failing file-descriptor-limit call aborts the open.
  - Go's `/` truncates toward zero (`GoDiv`), and Go's `int` arithmetic wraps
    in 64 bits (`Wrap64`). Both are written out, because Dafny's `/` is
    Euclidean and its integers are unbounded.
- **The metering loop `meter`** (`database/leveldb.go`), the main part.
  `Database.Meter` is a class with the loop's own state:
  - the 2×4 `compactions` double buffer, as an `array2`;
  - the `delaystats` and `iostats` trackers, as arrays;
  - `lastWritePaused` and the tick counter `i`;
  - `stopped`, which records that the loop has ended at a failed `Stats`
    call (the `break` of `database/leveldb.go:116`).

  `Meter.Tick` is one pass of the loop body and `Meter.Run` is the loop over
  a finite sequence of polls. A failed poll stops the meter, and both methods
  require a meter that has not stopped, so it is never ticked again.
  - Each method is proved against pure specifications:
    - `TickGauges` gives the gauges a tick emits.
    - `ShouldWarn` decides whether it logs the degraded-performance warning.
    - `Advance` gives the state the meter carries to the next tick.
    - `Replay` is the whole loop, which stops at the first failed `Stats` call.
  - That carried state is only the previous tick's snapshot and the time of
    the last warning. The invariant `Meter.Valid` ties the arrays to it:
    - slot `(i-1) % 2` holds the previous tick's four sums;
    - the trackers hold the previous tick's counters.
- **The key-value adapter `levelDBKV`** (`blockchain/storage/leveldb/leveldb.go`).
  - `Get` maps the engine's `(data, err)` to `(value, found, err)`. The error
    whose text is `"leveldb: not found"` becomes an ordinary miss.
  - `Set` and `Close` pass straight through.

The engine is not part of this model. `Engine` gives it a small abstract
shape:
- a map of byte strings;
- a closed flag;
- a storage-fault oracle fixed when the handle is opened;
- its two sentinel errors, `leveldb: not found` and `leveldb: closed`.

The metrics sink is a sequence of `Gauge(name, value)` calls. `Latest` says
what the sink holds for a name afterwards: the last value set wins.
`NamesDistinct` proves that no two gauges share a metric name, so keying the
sink by `GaugeName` loses nothing.

Two details of `database/leveldb.go` shape the option model:
- Despite its name, `raiseAndReturnFDLimit` passes the limit it has just
  read back to `Setrlimit` unchanged (`database/leveldb.go:32`), so it raises
  nothing. The model only consumes its outcome.
- The cache-size tuning is applied when `LEVELDB_CACHE_SIZE_MB` parses
  (`database/leveldb.go:66`).

Under an unlimited descriptor limit, `int(limit)` is −1. The forced
open-files cache is then −1 for a divisor of 1, and 0 for any larger divisor
(`UnlimitedFDLimit`).

Each tick sets `level_<j>_tableCount` only for the levels of its own
snapshot (`database/leveldb.go:168-170`). Nothing clears a gauge, so in the
model's sink (`Latest`) a level reported by an earlier tick keeps that tick's
count once a later snapshot lists fewer levels (`StaleTableCount`). What the
configured metrics sinks retain is not modelled.

Files:
- `wrappers.dfy`: `Option`, `Error`, `Result`.
- `engine.dfy`: the abstract engine.
- `database.dfy`: option resolution, gauges, the tick and loop
  specifications, and `Meter`.
- `storage.dfy`: the adapter.

## Model

| member | source | states |
|---|---|---|
| Database.GoDiv | database/leveldb.go:52 | Go's truncating quotient: the remainder has the dividend's sign and is smaller in magnitude than the divisor (so −7/2 is −3, where Euclidean division gives −4) |
| Database.GoDivNatural | database/leveldb.go:67-70 | for a non-negative dividend and a positive divisor, Go's quotient is floor division |
| Database.Wrap64 | database/leveldb.go:52-71 | the 64-bit two's-complement value: in the int64 range, congruent mod 2^64, and the identity on values already in range |
| Database.InfinityAsInt | database/leveldb.go:52 | `int(limit)` of the unlimited rlimit (2^64−1) is −1 |
| Database.MinIntByMinusOne | database/leveldb.go:52 | the one overflowing quotient: the most negative int divided by −1 wraps to itself |
| Database.Tuned | database/leveldb.go:43-74 | the options NewLevelDB opens with: bloom filter of 10 bits per key, seek compaction disabled, open-files cache `int(limit)/d` (wrapped) only when the divisor parsed, block cache `(v/2)·MiB` and write buffer `(v/4)·MiB` (wrapped) only when the cache size parsed, the zero defaults otherwise |
| Database.NewLevelDBOptions | database/leveldb.go:43-74 | fails exactly when the divisor parsed and the FD-limit step failed, with that step's error; otherwise the options are Tuned: bloom filter 10, seek compaction off, open-files cache `int(limit)/d` only when the divisor parsed, block cache `(v/2)·MiB` and write buffer `(v/4)·MiB` only when the cache size parsed, the zero defaults otherwise |
| Database.CacheSize100 | database/leveldb.go:66-71 | a cache size of 100 gives a 50 MiB block cache and a 25 MiB write buffer |
| Database.Divisor2Limit4096 | database/leveldb.go:45-57 | a divisor of 2 under a limit of 4096 gives an open-files cache of 2048 |
| Database.UnlimitedFDLimit | database/leveldb.go:46-57 | under the unlimited rlimit, a positive divisor yields an open-files cache of −1 (divisor 1) or 0 |
| Database.NewLevelDB | database/leveldb.go:42-84 | returns the FD-limit error without opening; otherwise the engine's open error; on success a fresh handle, opened with Tuned options on the disk's contents, and a fresh metering state at tick 1 that has not stopped |
| Database.DecimalInjective | database/leveldb.go:169 | different levels are formatted as different `%d` strings |
| Database.NamesDistinct | database/leveldb.go:131-169 | two gauges with the same metric name are the same gauge |
| Database.LatestConcat | database/leveldb.go:87-89 | the sink after two batches of SetGauge calls holds the second batch's value for a name if it set one, else the first batch's |
| Database.TableLatest | database/leveldb.go:168-170 | the table-count loop sets `level_<j>_tableCount` to the j-th count for each level and sets no other name |
| Database.TickGauges | database/leveldb.go:129-170 | the ordered SetGauge calls of one successful tick: the four compaction gauges from tick 2 on, the two write-delay, two disk IO and four compaction-count gauges, then one table count per level; so 8 gauges plus one per entry of LevelTablesCounts, plus 4 from tick 2 on |
| Database.SeedingTick | database/leveldb.go:130-135 | the first tick sets none of diskSize, compactTime, compactRead, compactWrite |
| Database.CompactionTick | database/leveldb.go:119-135 | from tick 2 on, diskSize is the current level-size sum and compactTime/Read/Write are the current duration/read/write sums minus the previous tick's |
| Database.TrackerTick | database/leveldb.go:143-161 | on every tick the four tracker gauges are the counter minus the previous tick's counter, or minus 0 on tick 1 |
| Database.InstantTick | database/leveldb.go:163-166 | on every tick the four compaction counts are published as they are |
| Database.TableCountTick | database/leveldb.go:168-170 | a tick sets `level_<j>_tableCount` to the j-th table count when j is less than the number of entries in LevelTablesCounts and does not set it otherwise |
| Database.StaleTableCount | database/leveldb.go:168-170 | in a sink fed by successive ticks, a tick whose snapshot has no level j leaves `level_<j>_tableCount` at the value an earlier tick set |
| Database.ShouldWarn | database/leveldb.go:146-152 | the warning condition of lines 148-149: a write pause, no change in the delay count or duration since the previous tick, and no warning yet or the last one more than a minute before now (its gauge form is WarnExactlyWhenStalled) |
| Database.Advance | database/leveldb.go:143-161 | the state a successful tick carries on: its snapshot as the previous one (compactions slot, delaystats, iostats) and lastWritePaused set to now exactly when it warned (Meter.Tick is proved to reach it) |
| Database.WarnExactlyWhenStalled | database/leveldb.go:146-152 | the warning fires if and only if the engine reports a write pause, both write-delay gauges of the tick are 0, and no warning was issued yet or the last one is more than a minute old |
| Database.FirstFailure | database/leveldb.go:113-117 | the number of polls before the first failed one: all earlier polls succeeded and the one at that index failed |
| Database.Replay | database/leveldb.go:110-179 | the loop from a meter state over a finite run of polls: one tick per successful poll, in order, stopping at the first failed Stats call (Meter.Run is proved equal to it) |
| Database.ReplayLength | database/leveldb.go:110-117 | the loop completes exactly the ticks before the first failed Stats call; the tick that fails emits nothing |
| Database.ReplayAt | database/leveldb.go:119-172 | tick k of a run reports against the snapshot of tick k−1, and the first tick against the meter's starting state |
| Database.ReplayWarnsPerTick | database/leveldb.go:146-152 | a run logs at most one warning per completed tick |
| Database.ReplayLastWarned | database/leveldb.go:148-152 | after a run, lastWritePaused is the run's last warning time, or unchanged if it issued none |
| Database.ReplayAfter | database/leveldb.go:148-152 | every warning of a run is more than a minute after the warning before the run |
| Database.ReplaySpaced | database/leveldb.go:146-152 | any two warnings of a run are more than a minute apart, however long the stall lasts |
| Database.PersistentStallWarnsOnce | database/leveldb.go:146-152 | a write stall seen on ticks at t, t+5s, t+10s and t+60s+1ns warns at t and at t+60s+1ns only |
| Database.TableCounts | database/leveldb.go:168-170 | the loop over LevelTablesCounts emits one `level_<j>_tableCount` gauge per level, in level order |
| Database.Meter.constructor | database/leveldb.go:93-109 | a zeroed double buffer and zeroed trackers, no warning yet, tick 1, not stopped, satisfying Valid |
| Database.Meter.RefillSlot | database/leveldb.go:118-127 | slot `i % 2` ends up holding the snapshot's four sums (durations accumulated one by one) and the other slot is unchanged |
| Database.Meter.CompactionReport | database/leveldb.go:129-135 | the compaction gauges of the tick, read from slot `i % 2` against slot `(i-1) % 2` |
| Database.Meter.DelayReport | database/leveldb.go:137-153 | the write-delay gauges, the warning decision, lastWritePaused set to now exactly when warning, and delaystats set to the current counters |
| Database.Meter.IOReport | database/leveldb.go:155-161 | the disk IO gauges and iostats set to the current counters |
| Database.Meter.Tick | database/leveldb.go:110-172 | on a meter that has not stopped, keeps Valid and advances i by one; the gauges are TickGauges of the previous snapshot, the warning is ShouldWarn, and the carried state becomes Advance of the old one |
| Database.Meter.Ticks | database/leveldb.go:110-172 | the passes of the loop body over the successful polls before the first failed one: the gauges, warnings and final state of Replay, warnings pairwise more than a minute apart, i advanced by the number of ticks |
| Database.Meter.Run | database/leveldb.go:108-179 | on a meter that has not stopped: the emitted gauges, the warnings and the final state are those of Replay, one tick per poll up to the first failed one, warnings pairwise more than a minute apart, i advanced by the number of ticks; the meter is stopped afterwards exactly when a poll failed, and a stopped meter cannot be ticked or run again |
| Engine.OpenFile | database/leveldb.go:76-79 | returns the disk's open error, or a fresh open handle on the disk's contents with the given options |
| Engine.DB.Get | blockchain/storage/leveldb/leveldb.go:35 | the engine lookup: closed error, storage fault, the stored value, or the not-found sentinel |
| Engine.DB.Put | blockchain/storage/leveldb/leveldb.go:30 | the engine write: closed error or storage fault with no change, else the pair is stored |
| Engine.DB.Close | blockchain/storage/leveldb/leveldb.go:49 | closes an open handle; a second close reports the closed error |
| StorageLevelDB.AdaptGet | blockchain/storage/leveldb/leveldb.go:34-45 | found exactly when the engine succeeded, with its bytes unchanged; no error exactly on success or an error whose text is `leveldb: not found`; any other error passed on with nil data |
| StorageLevelDB.LevelDBKV.constructor | blockchain/storage/leveldb/leveldb.go:18 | wraps the given handle |
| StorageLevelDB.LevelDBKV.Get | blockchain/storage/leveldb/leveldb.go:34-45 | changes nothing and returns AdaptGet of the engine's lookup |
| StorageLevelDB.LevelDBKV.Set | blockchain/storage/leveldb/leveldb.go:29-31 | the engine's Put, its error returned unchanged |
| StorageLevelDB.LevelDBKV.Close | blockchain/storage/leveldb/leveldb.go:48-50 | the engine's Close, its error returned unchanged |
| StorageLevelDB.NewLevelDBStorage | blockchain/storage/leveldb/leveldb.go:11-21 | no storage and NewLevelDB's error when it fails; otherwise a fresh adapter over the fresh, tuned handle, and a fresh meter at tick 1 satisfying Valid and not stopped, ready to Run |
| StorageLevelDB.SetThenGet | blockchain/storage/leveldb/leveldb.go:29-45 | on a healthy handle Set succeeds and a following Get of the key returns (value, true, nil) |
| StorageLevelDB.SetLeavesOthers | blockchain/storage/leveldb/leveldb.go:29-31 | a Set does not change what Get sees for any other key |
| StorageLevelDB.SetIdempotent | blockchain/storage/leveldb/leveldb.go:29-31 | setting the same pair twice has the effect and result of setting it once |
| StorageLevelDB.FoundExactlyWhenStored | blockchain/storage/leveldb/leveldb.go:34-45 | on a healthy handle Get finds exactly the stored keys, never reports an error, and a missing key gives (nil, false, nil) |
| StorageLevelDB.FaultReported | blockchain/storage/leveldb/leveldb.go:40-42 | a storage fault other than the sentinel reaches the caller as (nil, false, err) |
| StorageLevelDB.ClosedStaysClosed | blockchain/storage/leveldb/leveldb.go:48-50 | after a successful Close, Get, Set and Close all report the closed error and change nothing |

## Left out

- `raiseAndReturnFDLimit` (database/leveldb.go:25-40) is three rlimit system calls. The model takes its outcome as a `Result<Uint64>` input.
- `getEnvInt` (database/leveldb.go:21-23) reads the environment and parses it with `strconv.Atoi`. The model takes each parse outcome as an `Option<Int64>` input; `None` stands for any parse error.
- A zero divisor with a readable limit is a runtime panic in Go (division by zero). It is excluded by a precondition instead of being modelled as an error.
- goleveldb is not part of this model. Its `OpenFile`, `Get`, `Put` and `Close` are reduced to the abstract `Engine`. `Stats` has no model of its own: each of its outcomes is a `Poll.stats` in the `polls` input of `Meter.Run`. A storage fault is fixed when the handle is opened; faults that appear later are not modelled.
- The `go meter(...)` launch (database/leveldb.go:81) becomes a fresh `Meter` returned by `NewLevelDB`. Concurrency with the engine is not modelled.
- The timer, `select` and five-second refresh (database/leveldb.go:105-106, 174-178) are not modelled. Time enters as the `now` of each poll.
- The two `time.Now()` calls (database/leveldb.go:149, 151) are one value per tick.
- The zero `time.Time` before the first warning is `None`, meaning "never warned".
- The loop is infinite in Go. `Meter.Run` covers any finite prefix of polls.
- `metrics.SetGauge` and the `{"leveldb", name, ...}` key prefix (database/leveldb.go:87-89) are not modelled. A gauge is a `(name, value)` pair in a sequence, and the sink's contents are `Latest`. The sinks the server installs (an in-memory sink with a ten-second interval and a Prometheus sink, server/server_metrics.go) and what they retain are not modelled.
- Database.TickGauges: its values are unbounded integers. It does not model the `float32` conversion of the sink, int64 wrap-around of the deltas, or the int64 conversions of the snapshot counters (database/leveldb.go:138, 156-157, 163-169).
- hclog messages are not modelled; only whether the warning is issued (`warned`) is.
- `storage.NewKeyValueStorage` (blockchain/storage/leveldb/leveldb.go:20) is not part of this model. `NewLevelDBStorage` returns the adapter it would wrap.
- The logger names and the database path are not modelled. The path is replaced by the `Disk` it designates.
- server/server_metrics.go and profiling/profiling.go are set-up glue over external metrics and profiling SDKs. They are not part of this model.
