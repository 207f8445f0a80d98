/**
 LogFile's rolling.  Times are seconds since the epoch; append_unlocked reads the clock for its
 periodic check and rollFile reads it again, so a call carries both readings.
 */
module LogRolling {
  import opened Bytes

  const SECONDS_PER_DAY: int := 60 * 60 * 24

  type Record = seq<Byte>

  datatype Config = Config(rollSize: int, flushInterval: int, checkEveryN: int)

  datatype File = File(created: int, records: seq<Record>)

  /** The last file is the open one.  `clock` is the last time read and `appended` all records. */
  datatype State = State(files: seq<File>, count: int, startOfPeriod: int, lastRoll: int, lastFlush: int,
                         clock: int, appended: seq<Record>)

  datatype Call = Call(line: Record, checkTime: int, rollTime: int)

  function StartOfDay(time: int): int {
    time / SECONDS_PER_DAY * SECONDS_PER_DAY
  }

  function Written(file: File): nat {
    |Concat(file.records)|
  }

  /** rollFile: a new file, unless the last one was created in the same second. */
  function RollFile(s: State, now: int): State {
    var t := s.(clock := now);
    if now > s.lastRoll then
      t.(lastRoll := now, lastFlush := now, startOfPeriod := StartOfDay(now), files := s.files + [File(now, [])])
    else t
  }

  function Write(s: State, line: Record): State
    requires s.files != []
  {
    var n := |s.files| - 1;
    s.(files := s.files[n := s.files[n].(records := s.files[n].records + [line])], appended := s.appended + [line])
  }

  /** append_unlocked. */
  function AppendLine(cfg: Config, s: State, call: Call): State
    requires s.files != []
  {
    var t := Write(s, call.line);
    if Written(t.files[|t.files| - 1]) > cfg.rollSize then RollFile(t, call.rollTime)
    else if s.count + 1 < cfg.checkEveryN then t.(count := s.count + 1)
    else
      var u := t.(count := 0, clock := call.checkTime);
      if StartOfDay(call.checkTime) > s.startOfPeriod then RollFile(u, call.rollTime)
      else if call.checkTime - s.lastFlush > cfg.flushInterval then u.(lastFlush := call.checkTime)
      else u
  }

  /** The constructor, which rolls the first file. */
  function Open(now: int): State {
    RollFile(State([], 0, 0, 0, 0, 0, []), now)
  }

  /** The clock never goes back. */
  ghost predicate Legal(cfg: Config, now: int, calls: seq<Call>)
    decreases |calls|, 0
  {
    if calls == [] then now > 0
    else
      var before := calls[..|calls| - 1];
      var call := calls[|calls| - 1];
      && Legal(cfg, now, before) && Run(cfg, now, before).files != []
      && Run(cfg, now, before).clock <= call.checkTime <= call.rollTime
  }

  ghost function Run(cfg: Config, now: int, calls: seq<Call>): State
    requires Legal(cfg, now, calls)
    decreases |calls|, 1
  {
    if calls == [] then Open(now)
    else AppendLine(cfg, Run(cfg, now, calls[..|calls| - 1]), calls[|calls| - 1])
  }

  // ---------------------------------------------------------------- the invariant

  /** The records of the files, in creation order. */
  function AllRecords(files: seq<File>): seq<Record> {
    if files == [] then [] else AllRecords(files[..|files| - 1]) + files[|files| - 1].records
  }

  /** Why the file after `f` was begun. */
  predicate Justified(cfg: Config, f: File, next: File) {
    f.created < next.created && (Written(f) > cfg.rollSize || StartOfDay(f.created) < StartOfDay(next.created))
  }

  predicate Inv(cfg: Config, s: State) {
    && s.files != [] && 0 < s.lastRoll <= s.clock
    && s.files[|s.files| - 1].created == s.lastRoll && s.startOfPeriod == StartOfDay(s.lastRoll)
    && AllRecords(s.files) == s.appended
    && (forall i :: 0 <= i < |s.files| - 1 ==> Justified(cfg, s.files[i], s.files[i + 1]))
    && (Written(s.files[|s.files| - 1]) > cfg.rollSize && s.files[|s.files| - 1].records != [] ==> s.clock == s.lastRoll)
  }

  lemma DayOrder(a: int, b: int)
    requires 0 <= a && StartOfDay(a) < StartOfDay(b)
    ensures a < b
  {
  }

  /** When the check sees a later day, the second has changed as well. */
  lemma LaterDay(cfg: Config, s: State, call: Call)
    requires Inv(cfg, s) && s.clock <= call.checkTime <= call.rollTime
    requires StartOfDay(call.checkTime) > s.startOfPeriod
    ensures call.rollTime > s.lastRoll && StartOfDay(call.rollTime) > StartOfDay(s.lastRoll)
  {
    DayOrder(s.lastRoll, call.checkTime);
  }

  lemma WriteRecords(s: State, line: Record)
    requires s.files != [] && AllRecords(s.files) == s.appended
    ensures AllRecords(Write(s, line).files) == Write(s, line).appended
  {
    var n := |s.files| - 1;
    var t := Write(s, line);
    assert t.files[..n] == s.files[..n];
    assert AllRecords(s.files[..n]) + (s.files[n].records + [line]) == (AllRecords(s.files[..n]) + s.files[n].records) + [line];
  }

  lemma RollRecords(files: seq<File>, now: int)
    ensures AllRecords(files + [File(now, [])]) == AllRecords(files)
  {
    assert (files + [File(now, [])])[..|files|] == files;
    assert AllRecords(files) + [] == AllRecords(files);
  }

  lemma RollKeeps(cfg: Config, s: State, now: int)
    requires s.files != [] && 0 < s.lastRoll <= s.clock <= now
    requires s.files[|s.files| - 1].created == s.lastRoll && s.startOfPeriod == StartOfDay(s.lastRoll)
    requires AllRecords(s.files) == s.appended
    requires forall i :: 0 <= i < |s.files| - 1 ==> Justified(cfg, s.files[i], s.files[i + 1])
    requires Written(s.files[|s.files| - 1]) > cfg.rollSize || StartOfDay(now) > StartOfDay(s.lastRoll)
    ensures Inv(cfg, RollFile(s, now))
  {
    var t := RollFile(s, now);
    if now > s.lastRoll {
      RollRecords(s.files, now);
      forall i | 0 <= i < |t.files| - 1 ensures Justified(cfg, t.files[i], t.files[i + 1]) {
        if i < |s.files| - 1 {
          assert Justified(cfg, s.files[i], s.files[i + 1]);
        }
      }
    }
  }

  lemma AppendKeeps(cfg: Config, s: State, call: Call)
    requires Inv(cfg, s) && s.clock <= call.checkTime <= call.rollTime
    ensures Inv(cfg, AppendLine(cfg, s, call))
  {
    var t := Write(s, call.line);
    WriteRecords(s, call.line);
    forall i | 0 <= i < |t.files| - 1 ensures Justified(cfg, t.files[i], t.files[i + 1]) {
      assert Justified(cfg, s.files[i], s.files[i + 1]);
    }
    if Written(t.files[|t.files| - 1]) > cfg.rollSize {
      RollKeeps(cfg, t, call.rollTime);
    } else if s.count + 1 >= cfg.checkEveryN && StartOfDay(call.checkTime) > s.startOfPeriod {
      LaterDay(cfg, s, call);
      RollKeeps(cfg, t.(count := 0, clock := call.checkTime), call.rollTime);
    }
  }

  lemma {:induction false} InvRun(cfg: Config, now: int, calls: seq<Call>)
    requires Legal(cfg, now, calls)
    ensures Inv(cfg, Run(cfg, now, calls))
    decreases |calls|
  {
    if calls == [] {
      RollRecords([], now);
    } else {
      InvRun(cfg, now, calls[..|calls| - 1]);
      AppendKeeps(cfg, Run(cfg, now, calls[..|calls| - 1]), calls[|calls| - 1]);
    }
  }

  // ---------------------------------------------------------------- statements over every run

  function Lines(calls: seq<Call>): seq<Record> {
    seq(|calls|, i requires 0 <= i < |calls| => calls[i].line)
  }

  lemma {:induction false} AppendedLines(cfg: Config, now: int, calls: seq<Call>)
    requires Legal(cfg, now, calls)
    ensures Run(cfg, now, calls).appended == Lines(calls)
    decreases |calls|
  {
    if calls != [] {
      var before := calls[..|calls| - 1];
      AppendedLines(cfg, now, before);
      assert Lines(calls) == Lines(before) + [calls[|calls| - 1].line];
    }
  }

  /** The files in creation order hold exactly the appended records, none split across two files. */
  lemma FilesHoldAll(cfg: Config, now: int, calls: seq<Call>)
    requires Legal(cfg, now, calls)
    ensures AllRecords(Run(cfg, now, calls).files) == Lines(calls)
  {
    InvRun(cfg, now, calls);
    AppendedLines(cfg, now, calls);
  }

  lemma {:induction false} Chain(cfg: Config, s: State, i: nat, j: nat)
    requires Inv(cfg, s) && i < j < |s.files|
    ensures s.files[i].created < s.files[j].created
    decreases j
  {
    assert Justified(cfg, s.files[j - 1], s.files[j]);
    if i < j - 1 {
      Chain(cfg, s, i, j - 1);
    }
  }

  /** Creation seconds strictly increase, so no two files share a name; each file but the last was
      full or is followed by a file of a later day; and the open file is past `rollSize_` only
      within the second in which it was created. */
  lemma RollsAreJustified(cfg: Config, now: int, calls: seq<Call>)
    requires Legal(cfg, now, calls)
    ensures var s := Run(cfg, now, calls);
            && (forall i, j :: 0 <= i < j < |s.files| ==> s.files[i].created < s.files[j].created)
            && (forall i :: 0 <= i < |s.files| - 1 ==> Justified(cfg, s.files[i], s.files[i + 1]))
            && s.files != []
            && var last := s.files[|s.files| - 1];
               Written(last) > cfg.rollSize && last.records != [] ==> s.clock == last.created
  {
    InvRun(cfg, now, calls);
    var s := Run(cfg, now, calls);
    forall i, j | 0 <= i < j < |s.files| ensures s.files[i].created < s.files[j].created {
      Chain(cfg, s, i, j);
    }
  }

  // ---------------------------------------------------------------- exactly when a file is begun

  /** The line fits: the open file does not pass `rollSize_` with it. */
  predicate Small(cfg: Config, s: State, line: Record) {
    s.files != [] && Written(s.files[|s.files| - 1]) + |line| <= cfg.rollSize
  }

  /** How many of the calls so far fitted. */
  ghost function Smalls(cfg: Config, now: int, calls: seq<Call>): nat
    requires Legal(cfg, now, calls)
  {
    if calls == [] then 0
    else
      var before, last := calls[..|calls| - 1], calls[|calls| - 1];
      Smalls(cfg, now, before) + if Small(cfg, Run(cfg, now, before), last.line) then 1 else 0
  }

  /** The next call that fits is the checkEveryN-th since the last check. */
  ghost predicate CheckDue(cfg: Config, now: int, calls: seq<Call>)
    requires Legal(cfg, now, calls)
  {
    cfg.checkEveryN <= 1 || (Smalls(cfg, now, calls) + 1) % cfg.checkEveryN == 0
  }

  lemma WrittenLine(file: File, line: Record)
    ensures Written(file.(records := file.records + [line])) == Written(file) + |line|
  {
    ConcatSnoc(file.records, line);
  }

  lemma NextCount(smalls: nat, n: int)
    requires n > 1
    ensures (smalls + 1) % n == if smalls % n + 1 < n then smalls % n + 1 else 0
  {
    var q, r := smalls / n, smalls % n;
    assert smalls == q * n + r;
    if r + 1 < n {
      Remainder(smalls + 1, q, r + 1, n);
    } else {
      assert (q + 1) * n == q * n + n;
      Remainder(smalls + 1, q + 1, 0, n);
    }
  }

  lemma Remainder(x: int, q: int, r: int, n: int)
    requires x == q * n + r && 0 <= r < n
    ensures x % n == r
  {
    var p := x / n;
    assert (q - p) * n == x % n - r;
    if q > p {
      assert (q - p) * n == (q - p - 1) * n + n;
      AtLeast(q - p - 1, n);
    } else if q < p {
      assert (p - q) * n == (p - q - 1) * n + n;
      assert (p - q) * n == r - x % n;
      AtLeast(p - q - 1, n);
    }
  }

  lemma AtLeast(k: int, n: int)
    requires k >= 0 && n > 0
    ensures k * n >= 0
  {
  }

  lemma CountStep(cfg: Config, s: State, call: Call)
    requires s.files != []
    ensures AppendLine(cfg, s, call).count
            == if !Small(cfg, s, call.line) then s.count
               else if s.count + 1 < cfg.checkEveryN then s.count + 1 else 0
  {
    WrittenLine(s.files[|s.files| - 1], call.line);
  }

  lemma {:induction false} CountExactly(cfg: Config, now: int, calls: seq<Call>)
    requires Legal(cfg, now, calls)
    ensures Run(cfg, now, calls).count == if cfg.checkEveryN <= 1 then 0 else Smalls(cfg, now, calls) % cfg.checkEveryN
    decreases |calls|
  {
    if calls != [] {
      var before, last := calls[..|calls| - 1], calls[|calls| - 1];
      CountExactly(cfg, now, before);
      CountStep(cfg, Run(cfg, now, before), last);
      if cfg.checkEveryN > 1 {
        NextCount(Smalls(cfg, now, before), cfg.checkEveryN);
      }
    }
  }

  /** The files after a line was written to the open one. */
  function WithLine(files: seq<File>, line: Record): seq<File>
    requires files != []
  {
    var n := |files| - 1;
    files[n := files[n].(records := files[n].records + [line])]
  }

  /** What an append does, from what is on disk: the line goes to the open file, and a new file is begun, in
      the second the roll reads, exactly if the open file is now too large and was begun in an earlier
      second, or the call reaches its periodic check and that sees a later day. */
  predicate Begins(cfg: Config, last: File, line: Record, due: bool, call: Call) {
    if Written(last) + |line| > cfg.rollSize then call.rollTime > last.created
    else due && StartOfDay(call.checkTime) > StartOfDay(last.created)
  }

  lemma AppendStep(cfg: Config, s: State, call: Call, due: bool)
    requires Inv(cfg, s) && s.clock <= call.checkTime <= call.rollTime && (due <==> s.count + 1 >= cfg.checkEveryN)
    ensures var t := AppendLine(cfg, s, call);
            var begins := Begins(cfg, s.files[|s.files| - 1], call.line, due, call);
            && t.files == WithLine(s.files, call.line) + (if begins then [File(call.rollTime, [])] else [])
            && t.lastFlush == if begins then call.rollTime
                              else if Small(cfg, s, call.line) && due && call.checkTime - s.lastFlush > cfg.flushInterval
                              then call.checkTime else s.lastFlush
  {
    WrittenLine(s.files[|s.files| - 1], call.line);
    if StartOfDay(call.checkTime) > s.startOfPeriod {
      LaterDay(cfg, s, call);
    }
  }

  lemma AppendExactly(cfg: Config, now: int, calls: seq<Call>, call: Call)
    requires Legal(cfg, now, calls) && Legal(cfg, now, calls + [call])
    ensures var s, t := Run(cfg, now, calls), Run(cfg, now, calls + [call]);
            && s.files != []
            && var last := s.files[|s.files| - 1];
               t.files == WithLine(s.files, call.line)
                          + (if Begins(cfg, last, call.line, CheckDue(cfg, now, calls), call) then [File(call.rollTime, [])]
                             else [])
  {
    RunSnoc(cfg, now, calls, call);
    InvRun(cfg, now, calls);
    DueExactly(cfg, now, calls);
    AppendStep(cfg, Run(cfg, now, calls), call, CheckDue(cfg, now, calls));
  }

  lemma RunSnoc(cfg: Config, now: int, calls: seq<Call>, call: Call)
    requires Legal(cfg, now, calls) && Legal(cfg, now, calls + [call])
    ensures var s := Run(cfg, now, calls);
            && s.files != [] && s.clock <= call.checkTime <= call.rollTime
            && Run(cfg, now, calls + [call]) == AppendLine(cfg, s, call)
  {
    assert (calls + [call])[..|calls|] == calls;
  }

  lemma DueExactly(cfg: Config, now: int, calls: seq<Call>)
    requires Legal(cfg, now, calls)
    ensures CheckDue(cfg, now, calls) <==> Run(cfg, now, calls).count + 1 >= cfg.checkEveryN
  {
    CountExactly(cfg, now, calls);
    if cfg.checkEveryN > 1 {
      NextCount(Smalls(cfg, now, calls), cfg.checkEveryN);
    }
  }

  /** In particular, a day change seen by the periodic check always succeeds in rolling. */
  lemma DayChangeRolls(cfg: Config, now: int, calls: seq<Call>, call: Call)
    requires Legal(cfg, now, calls) && Legal(cfg, now, calls + [call])
    requires CheckDue(cfg, now, calls) && Small(cfg, Run(cfg, now, calls), call.line)
    requires var files := Run(cfg, now, calls).files;
             files != [] && StartOfDay(call.checkTime) > StartOfDay(files[|files| - 1].created)
    ensures var before, after := Run(cfg, now, calls).files, Run(cfg, now, calls + [call]).files;
            |after| == |before| + 1 && after[|before|] == File(call.rollTime, [])
  {
    AppendExactly(cfg, now, calls, call);
  }

  // ---------------------------------------------------------------- the class

  class LogFile {
    const cfg: Config
    var files: seq<File>
    var count: int
    var startOfPeriod: int
    var lastRoll: int
    var lastFlush: int
    ghost var clock: int
    ghost var appended: seq<Record>

    ghost function Snapshot(): State
      reads this
    {
      State(files, count, startOfPeriod, lastRoll, lastFlush, clock, appended)
    }

    constructor (cfg: Config, now: int)
      requires now > 0
      ensures this.cfg == cfg && Snapshot() == Open(now) && files == [File(now, [])]
    {
      this.cfg := cfg;
      files, count, startOfPeriod, lastRoll, lastFlush := [], 0, 0, 0, 0;
      clock, appended := 0, [];
      new;
      var _ := Roll(now);
    }

    method Roll(now: int) returns (rolled: bool)
      modifies `files, `startOfPeriod, `lastRoll, `lastFlush, `clock
      ensures Snapshot() == RollFile(old(Snapshot()), now) && rolled == (now > old(lastRoll))
    {
      var start := now / SECONDS_PER_DAY * SECONDS_PER_DAY;
      clock := now;
      if now > lastRoll {
        lastRoll := now;
        lastFlush := now;
        startOfPeriod := start;
        files := files + [File(now, [])];
        return true;
      }
      return false;
    }

    method AppendUnlocked(call: Call)
      requires Inv(cfg, Snapshot()) && clock <= call.checkTime <= call.rollTime
      modifies this
      ensures Snapshot() == AppendLine(cfg, old(Snapshot()), call) && Inv(cfg, Snapshot())
    {
      AppendKeeps(cfg, Snapshot(), call);
      var n := |files| - 1;
      files := files[n := files[n].(records := files[n].records + [call.line])];
      appended := appended + [call.line];
      if Written(files[n]) > cfg.rollSize {
        var _ := Roll(call.rollTime);
      } else {
        count := count + 1;
        if count >= cfg.checkEveryN {
          count := 0;
          clock := call.checkTime;
          var thisPeriod := call.checkTime / SECONDS_PER_DAY * SECONDS_PER_DAY;
          if thisPeriod > startOfPeriod {
            var _ := Roll(call.rollTime);
          } else if call.checkTime - lastFlush > cfg.flushInterval {
            lastFlush := call.checkTime;
          }
        }
      }
    }
  }
}

/** AsyncLogging above LogFile. */
module LogPipeline {
  import opened Bytes
  import AsyncLog
  import LogRolling

  lemma {:induction false} AllRecordsBytes(files: seq<LogRolling.File>)
    ensures Concat(LogRolling.AllRecords(files)) == Concat(FileBytes(files))
  {
    if files != [] {
      var n := |files| - 1;
      AllRecordsBytes(files[..n]);
      ConcatAppend(LogRolling.AllRecords(files[..n]), files[n].records);
      ConcatSnoc(FileBytes(files[..n]), Concat(files[n].records));
      assert FileBytes(files) == FileBytes(files[..n]) + [Concat(files[n].records)];
    }
  }

  /** The bytes of each file. */
  function FileBytes(files: seq<LogRolling.File>): seq<seq<Byte>> {
    seq(|files|, i requires 0 <= i < |files| => Concat(files[i].records))
  }

  /** End to end: when the back end is between rounds, the files on disk, in creation order, are the
      records accepted before its last swap; only what the front end still holds is missing. */
  lemma FilesArePrefixOfLog(steps: seq<AsyncLog.Step>, cfg: LogRolling.Config, now: int, calls: seq<LogRolling.Call>)
    requires !AsyncLog.Run(steps).pc.Writing?
    requires LogRolling.Legal(cfg, now, calls) && LogRolling.Lines(calls) == AsyncLog.Run(steps).output
    ensures var log := AsyncLog.Run(steps);
            var files := LogRolling.Run(cfg, now, calls).files;
            && log.current.Some?
            && Concat(FileBytes(files)) == Concat(log.sealed)
            && Concat(log.accepted) == Concat(FileBytes(files)) + (Concat(log.buffers) + log.current.value)
  {
    AsyncLog.RoundWritesAll(steps);
    LogRolling.FilesHoldAll(cfg, now, calls);
    AllRecordsBytes(LogRolling.Run(cfg, now, calls).files);
  }
}
