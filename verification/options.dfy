/** The tuning constants the engine reads (src/options.rs). */
module EngineOptions {
  import opened Builder
  import WriteAheadLog

  datatype Options = Options(
    memtableBytes: nat,
    fmt: Format,
    fsync: WriteAheadLog.FsyncMode,
    l0Trigger: nat,
    levelRatio: nat,
    baseLevelBytes: nat,
    targetFileSize: nat,
    cacheCapacity: nat,
    maxLevels: nat)
  {
    /** With one level `pick_compaction` indexes out of bounds; with trigger 0 every write stalls. */
    predicate Usable() {
      maxLevels >= 2 && l0Trigger >= 1
    }
  }

  function Pow(b: nat, e: nat): nat {
    if e == 0 then 1 else b * Pow(b, e - 1)
  }

  /** The size limit of level `level >= 1`: `base * ratio^(level - 1)`. */
  function LevelLimit(o: Options, level: nat): nat
    requires level >= 1
  {
    o.baseLevelBytes * Pow(o.levelRatio, level - 1)
  }

  /** The base for L1, and the ratio times more for every level below. */
  lemma LimitIs(o: Options, level: nat)
    requires level >= 1
    ensures LevelLimit(o, 1) == o.baseLevelBytes
    ensures LevelLimit(o, level + 1) == o.levelRatio * LevelLimit(o, level)
  {
    var b, r, p := o.baseLevelBytes, o.levelRatio, Pow(o.levelRatio, level - 1);
    assert b * (r * p) == r * (b * p);
  }
}
