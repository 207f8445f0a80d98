/**
 AsyncLogging's double buffering: front-end appends from any thread interleave with the back-end
 thread's swap, write and recycle steps.

 Buffers are their contents.  `fault` records a null buffer dereferenced or installed, or an element
 taken from an empty vector; it is shown never to happen.
 */
module AsyncLog {
  import opened Bytes
  import opened Wrappers

  const LARGE_BUFFER: nat := 4096 * 1024

  type Buffer = seq<Byte>
  type Record = seq<Byte>

  /** Where the back-end thread is.  `Waiting` is inside wait_for, with the mutex released. */
  datatype Pc = AtTest | AtLock | Waiting | Writing(next: nat) | AtTrim | AtReturn1 | AtReturn2 | AtClear | Exited

  /** `accepted` is the history of appended records shorter than a buffer, in lock order; `sealed` is
      what `accepted` was at the last swap; `output` is what LogFile::append was given. */
  datatype State = State(current: Option<Buffer>, spare: Option<Buffer>, buffers: seq<Buffer>,
                         pc: Pc, running: bool, new1: Option<Buffer>, new2: Option<Buffer>,
                         toWrite: seq<Buffer>, output: seq<Buffer>,
                         accepted: seq<Record>, sealed: seq<Record>, fault: bool)

  datatype Step = Append(line: Record) | Stop | BackEnd

  /** FixedBuffer::append: nothing happens unless a byte stays free. */
  function Put(buffer: Buffer, line: Record): Buffer {
    if LARGE_BUFFER - |buffer| > |line| then buffer + line else buffer
  }

  /** The whole critical section of append. */
  function AppendLine(s: State, line: Record): State {
    var t := s.(accepted := if |line| < LARGE_BUFFER then s.accepted + [line] else s.accepted);
    if s.current.None? then t.(fault := true)
    else if LARGE_BUFFER - |s.current.value| > |line| then t.(current := Some(Put(s.current.value, line)))
    else
      var blank := if s.spare.Some? then s.spare.value else [];
      t.(buffers := s.buffers + [s.current.value], spare := None, current := Some(Put(blank, line)))
  }

  /** The back end's critical section, once it no longer waits. */
  function SwapBuffers(s: State): State {
    if s.current.None? || s.new1.None? then s.(fault := true)
    else
      s.(current := s.new1, new1 := None, toWrite := s.buffers + [s.current.value], buffers := s.toWrite,
         spare := if s.spare.Some? then s.spare else s.new2,
         new2 := if s.spare.Some? then s.new2 else None,
         sealed := s.accepted, pc := Writing(0))
  }

  function Trim(s: State): State {
    s.(toWrite := if |s.toWrite| > 2 then s.toWrite[..2] else s.toWrite, pc := AtReturn1)
  }

  function Return1(s: State): State {
    var t := s.(pc := AtReturn2);
    if s.new1.Some? then t
    else if s.toWrite == [] then t.(fault := true)
    else t.(new1 := Some([]), toWrite := s.toWrite[..|s.toWrite| - 1])
  }

  function Return2(s: State): State {
    var t := s.(pc := AtClear);
    if s.new2.Some? then t
    else if s.toWrite == [] then t.(fault := true)
    else t.(new2 := Some([]), toWrite := s.toWrite[..|s.toWrite| - 1])
  }

  /** One step of threadFunc. */
  function BackEndStep(s: State): State {
    match s.pc
    case AtTest => s.(pc := if s.running then AtLock else Exited)
    case AtLock => if s.buffers == [] then s.(pc := Waiting) else SwapBuffers(s)
    case Waiting => SwapBuffers(s)
    case Writing(i) =>
      if i < |s.toWrite| then s.(output := s.output + [s.toWrite[i]], pc := Writing(i + 1)) else s.(pc := AtTrim)
    case AtTrim => Trim(s)
    case AtReturn1 => Return1(s)
    case AtReturn2 => Return2(s)
    case AtClear => s.(toWrite := [], pc := AtTest)
    case Exited => s
  }

  function Apply(s: State, step: Step): State {
    match step
    case Append(line) => AppendLine(s, line)
    case Stop => s.(running := false)
    case BackEnd => BackEndStep(s)
  }

  function Initial(): State {
    State(Some([]), Some([]), [], AtTest, true, Some([]), Some([]), [], [], [], [], false)
  }

  function Run(steps: seq<Step>): State {
    if steps == [] then Initial() else Apply(Run(steps[..|steps| - 1]), steps[|steps| - 1])
  }

  // ---------------------------------------------------------------- the invariant

  /** The swapped-out buffers not yet written. */
  function Unwritten(s: State): seq<Buffer> {
    if s.pc.Writing? && s.pc.next <= |s.toWrite| then s.toWrite[s.pc.next..] else []
  }

  /** What holds of the front end whenever the mutex is free. */
  predicate FrontOk(s: State) {
    && s.current.Some? && |s.current.value| < LARGE_BUFFER
    && (s.spare.Some? ==> s.spare.value == [])
    && (s.spare.None? ==> s.buffers != [])
  }

  predicate Empty(buffer: Option<Buffer>) {
    buffer == Some([])
  }

  /** What the back end owns at each point of its round. */
  predicate BackOk(s: State) {
    && (s.new1.Some? ==> Empty(s.new1)) && (s.new2.Some? ==> Empty(s.new2))
    && match s.pc
       case Writing(i) => s.new1.None? && i <= |s.toWrite| && |s.toWrite| >= if s.new2.None? then 2 else 1
       case AtTrim => s.new1.None? && |s.toWrite| >= if s.new2.None? then 2 else 1
       case AtReturn1 => s.new1.None? && |s.toWrite| >= if s.new2.None? then 2 else 1
       case AtReturn2 => s.new1.Some? && |s.toWrite| >= if s.new2.None? then 1 else 0
       case AtClear => s.new1.Some? && s.new2.Some?
       case _ => s.new1.Some? && s.new2.Some? && s.toWrite == []
  }

  /** What has been written or is out for writing. */
  function Gone(s: State): seq<Buffer> {
    s.output + Unwritten(s)
  }

  /** What lies before the buffer being filled. */
  function Full(s: State): seq<Buffer> {
    Gone(s) + s.buffers
  }

  predicate BytesOk(s: State) {
    && s.current.Some? && Concat(Full(s) + [s.current.value]) == Concat(s.accepted)
    && Concat(Gone(s)) == Concat(s.sealed)
    && s.sealed <= s.accepted
  }

  predicate Inv(s: State) {
    !s.fault && FrontOk(s) && BackOk(s) && BytesOk(s)
  }

  lemma AppendBytes(s: State, line: Record)
    requires FrontOk(s) && BytesOk(s)
    ensures BytesOk(AppendLine(s, line))
  {
    var t := AppendLine(s, line);
    var current := s.current.value;
    assert Unwritten(t) == Unwritten(s);
    ConcatSnoc(s.accepted, line);
    assert Gone(t) == Gone(s);
    if LARGE_BUFFER - |current| > |line| {
      assert Full(t) == Full(s) && t.current == Some(current + line);
      ConcatSnoc(Full(s), current);
      ConcatSnoc(Full(s), current + line);
      Assoc(Concat(Full(s)), current, line);
    } else {
      assert Full(t) == Full(s) + [current];
      ConcatSnoc(Full(t), Put([], line));
      assert [] + line == line && t.current == Some(Put([], line));
      assert Concat(Full(t)) + [] == Concat(Full(t));
    }
  }

  lemma AppendFront(s: State, line: Record)
    requires FrontOk(s) && BackOk(s)
    ensures FrontOk(AppendLine(s, line)) && BackOk(AppendLine(s, line))
  {
  }

  lemma AppendKeeps(s: State, line: Record)
    requires Inv(s)
    ensures Inv(AppendLine(s, line))
  {
    AppendBytes(s, line);
    AppendFront(s, line);
  }

  lemma SwapGone(s: State)
    requires BackOk(s) && (s.pc.AtLock? || s.pc.Waiting?) && s.current.Some?
    ensures var t := SwapBuffers(s);
            Gone(t) == Full(s) + [s.current.value] && Full(t) == Gone(t) && t.current == Some([]) && t.sealed == t.accepted
  {
    var t := SwapBuffers(s);
    assert Unwritten(t) == t.toWrite && Unwritten(s) == [];
    assert Gone(t) == Full(s) + [s.current.value];
    assert t.buffers == [];
  }

  lemma SwapBytes(s: State)
    requires BytesOk(s) && BackOk(s) && (s.pc.AtLock? || s.pc.Waiting?)
    ensures BytesOk(SwapBuffers(s))
  {
    var t := SwapBuffers(s);
    SwapGone(s);
    ConcatSnoc(Full(t), []);
    assert Concat(Full(t)) + [] == Concat(Full(t));
  }

  lemma SwapKeeps(s: State)
    requires Inv(s) && (s.pc.AtLock? || s.pc.Waiting?)
    ensures Inv(SwapBuffers(s))
  {
    SwapBytes(s);
  }

  lemma MoveOne(output: seq<Buffer>, toWrite: seq<Buffer>, i: nat)
    requires i < |toWrite|
    ensures (output + [toWrite[i]]) + toWrite[i + 1..] == output + toWrite[i..]
  {
  }

  lemma WriteGone(s: State)
    requires BackOk(s) && s.pc.Writing?
    ensures Gone(BackEndStep(s)) == Gone(s)
  {
    if s.pc.next < |s.toWrite| {
      MoveOne(s.output, s.toWrite, s.pc.next);
    }
  }

  lemma WriteKeeps(s: State)
    requires Inv(s) && s.pc.Writing?
    ensures Inv(BackEndStep(s))
  {
    WriteGone(s);
  }

  lemma InvStep(s: State, step: Step)
    requires Inv(s)
    ensures Inv(Apply(s, step))
  {
    match step
    case Append(line) => AppendKeeps(s, line);
    case Stop =>
      assert Unwritten(Apply(s, step)) == Unwritten(s);
    case BackEnd =>
      match s.pc {
        case AtLock => if s.buffers != [] { SwapKeeps(s); } else { assert Unwritten(Apply(s, step)) == Unwritten(s); }
        case Waiting => SwapKeeps(s);
        case Writing(_) => WriteKeeps(s);
        case _ => assert Unwritten(Apply(s, step)) == Unwritten(s);
      }
  }

  lemma {:induction false} InvRun(steps: seq<Step>)
    ensures Inv(Run(steps))
  {
    if steps == [] {
      ConcatSnoc([], []);
      assert Full(Initial()) == [];
    } else {
      InvRun(steps[..|steps| - 1]);
      InvStep(Run(steps[..|steps| - 1]), steps[|steps| - 1]);
    }
  }

  // ---------------------------------------------------------------- statements over every run

  /** The records given to append, in lock order, without those that fill a whole buffer. */
  function Offered(steps: seq<Step>): seq<Record> {
    if steps == [] then []
    else
      var last := steps[|steps| - 1];
      Offered(steps[..|steps| - 1]) + if last.Append? && |last.line| < LARGE_BUFFER then [last.line] else []
  }

  lemma AcceptedStep(s: State, step: Step)
    ensures Apply(s, step).accepted
            == s.accepted + if step.Append? && |step.line| < LARGE_BUFFER then [step.line] else []
  {
  }

  lemma {:induction false} AcceptedExactly(steps: seq<Step>)
    ensures Run(steps).accepted == Offered(steps)
  {
    if steps != [] {
      AcceptedExactly(steps[..|steps| - 1]);
      AcceptedStep(Run(steps[..|steps| - 1]), steps[|steps| - 1]);
    }
  }

  /** Conservation and order, at every step of every interleaving. */
  lemma LogConserved(steps: seq<Step>)
    ensures var s := Run(steps);
            && s.current.Some? && s.accepted == Offered(steps)
            && Concat(s.output) + Concat(Unwritten(s)) + Concat(s.buffers) + s.current.value == Concat(Offered(steps))
  {
    InvRun(steps);
    AcceptedExactly(steps);
    var s := Run(steps);
    ConcatSnoc(Full(s), s.current.value);
    ConcatAppend(Gone(s), s.buffers);
    ConcatAppend(s.output, Unwritten(s));
  }

  /** Recycling never takes from an empty vector and never installs a null or non-empty buffer. */
  lemma RecyclingSafe(steps: seq<Step>)
    ensures var s := Run(steps);
            && !s.fault && s.current.Some?
            && (s.spare.None? ==> s.buffers != [])
            && (s.spare.Some? ==> Empty(s.spare)) && (s.new1.Some? ==> Empty(s.new1)) && (s.new2.Some? ==> Empty(s.new2))
  {
    InvRun(steps);
  }

  /** After its trimming the back end keeps at most two buffers for recycling. */
  lemma {:induction false} KeepsTwo(steps: seq<Step>)
    ensures var s := Run(steps);
            s.pc.AtReturn1? || s.pc.AtReturn2? || s.pc.AtClear? || s.pc.AtTest? ==> |s.toWrite| <= 2
  {
    if steps != [] {
      KeepsTwo(steps[..|steps| - 1]);
      KeepsTwoStep(Run(steps[..|steps| - 1]), steps[|steps| - 1]);
    }
  }

  lemma KeepsTwoStep(s: State, step: Step)
    requires s.pc.AtReturn1? || s.pc.AtReturn2? || s.pc.AtClear? || s.pc.AtTest? ==> |s.toWrite| <= 2
    ensures var t := Apply(s, step);
            t.pc.AtReturn1? || t.pc.AtReturn2? || t.pc.AtClear? || t.pc.AtTest? ==> |t.toWrite| <= 2
  {
  }

  /** A finished round has written everything appended before its swap; at exit the output is a
      prefix whose missing tail is exactly what the front end still holds. */
  lemma RoundWritesAll(steps: seq<Step>)
    requires !Run(steps).pc.Writing?
    ensures var s := Run(steps);
            && s.sealed <= s.accepted && Concat(s.output) == Concat(s.sealed)
            && s.current.Some?
            && Concat(s.accepted) == Concat(s.output) + (Concat(s.buffers) + s.current.value)
  {
    InvRun(steps);
    var s := Run(steps);
    assert Gone(s) == s.output;
    ConcatSnoc(Full(s), s.current.value);
    ConcatAppend(Gone(s), s.buffers);
    Assoc(Concat(s.output), Concat(s.buffers), s.current.value);
  }

  // ---------------------------------------------------------------- progress

  predicate Stopped(steps: seq<Step>) {
    Stop in steps
  }

  lemma {:induction false} RunningExactly(steps: seq<Step>)
    ensures Run(steps).running <==> !Stopped(steps)
  {
    if steps != [] {
      var before, last := steps[..|steps| - 1], steps[|steps| - 1];
      RunningExactly(before);
      assert steps == before + [last];
      RunningStep(Run(before), last);
    }
  }

  lemma RunningStep(s: State, step: Step)
    ensures Apply(s, step).running <==> s.running && step != Stop
  {
  }

  /** Some step was the back end's test at the head of its loop, after stop() was called. */
  predicate TestedAfterStop(steps: seq<Step>) {
    if steps == [] then false
    else
      var before := steps[..|steps| - 1];
      || TestedAfterStop(before)
      || (steps[|steps| - 1] == BackEnd && Run(before).pc.AtTest? && Stopped(before))
  }

  lemma ExitStep(s: State, step: Step)
    ensures Apply(s, step).pc.Exited? <==> s.pc.Exited? || (step == BackEnd && s.pc.AtTest? && !s.running)
  {
  }

  /** The back end leaves its loop if and only if a test came after stop(). */
  lemma {:induction false} ExitsExactly(steps: seq<Step>)
    ensures Run(steps).pc.Exited? <==> TestedAfterStop(steps)
  {
    if steps != [] {
      var before := steps[..|steps| - 1];
      ExitsExactly(before);
      RunningExactly(before);
      ExitStep(Run(before), steps[|steps| - 1]);
    }
  }

  lemma {:induction false} RunAppend(a: seq<Step>, b: seq<Step>, step: Step)
    ensures Run(a + (b + [step])) == Apply(Run(a + b), step)
  {
    var all := a + (b + [step]);
    assert all[..|all| - 1] == a + b;
  }

  /** The back end has passed the swap of the round it began, and what was accepted before is in it. */
  predicate Under(accepted: seq<Record>, s: State) {
    accepted <= s.accepted && (s.pc.AtLock? || s.pc.Waiting? || accepted <= s.sealed)
  }

  lemma UnderStep(accepted: seq<Record>, s: State, step: Step)
    requires Inv(s) && Under(accepted, s) && (s.pc.AtTest? ==> accepted <= s.sealed)
    ensures Under(accepted, Apply(s, step))
  {
    AcceptedStep(s, step);
    if step == BackEnd {
      SealedStep(s);
    }
  }

  lemma SealedStep(s: State)
    requires FrontOk(s) && BackOk(s)
    ensures var t := BackEndStep(s);
            && (t.sealed == s.sealed || t.sealed == s.accepted)
            && ((s.pc.AtLock? || s.pc.Waiting?) ==> t.pc.Waiting? || t.sealed == s.accepted)
            && (t.pc.AtLock? ==> s.pc.AtTest?) && (t.pc.Waiting? ==> s.pc.AtLock?)
  {
  }

  /** The run whose last step is a test that lets the back end go on. */
  predicate GoesOn(steps: seq<Step>) {
    Run(steps).pc.AtTest? && !Stopped(steps)
  }

  lemma GoesOnStep(steps: seq<Step>)
    requires GoesOn(steps)
    ensures Run(steps + [BackEnd]) == Run(steps).(pc := AtLock)
  {
    RunningExactly(steps);
    assert (steps + [BackEnd])[..|steps|] == steps;
  }

  lemma {:induction false} UnderRun(steps: seq<Step>, more: seq<Step>)
    requires GoesOn(steps)
    ensures Under(Run(steps).accepted, Run((steps + [BackEnd]) + more))
    decreases |more|
  {
    var start := steps + [BackEnd];
    GoesOnStep(steps);
    if more == [] {
      assert start + more == start;
    } else {
      var before, last := more[..|more| - 1], more[|more| - 1];
      assert more == before + [last];
      UnderRun(steps, before);
      InvRun(start + before);
      UnderStep(Run(steps).accepted, Run(start + before), last);
      RunAppend(start, before, last);
    }
  }

  /** An upper bound on how many steps of its own bring the back end to its next test. */
  function Left(s: State): int {
    match s.pc
    case AtLock => |s.buffers| + 8
    case Waiting => |s.buffers| + 7
    case Writing(i) => |s.toWrite| - i + 5
    case AtTrim => 4
    case AtReturn1 => 3
    case AtReturn2 => 2
    case AtClear => 1
    case _ => 0
  }

  predicate InRound(pc: Pc) {
    pc.Writing? || pc.AtTrim? || pc.AtReturn1? || pc.AtReturn2? || pc.AtClear?
  }

  predicate InRoundOrLock(pc: Pc) {
    pc.AtLock? || pc.Waiting? || InRound(pc)
  }

  function Turns(steps: seq<Step>): nat {
    if steps == [] then 0 else Turns(steps[..|steps| - 1]) + if steps[|steps| - 1] == BackEnd then 1 else 0
  }

  function Appends(steps: seq<Step>): nat {
    if steps == [] then 0 else Appends(steps[..|steps| - 1]) + if steps[|steps| - 1].Append? then 1 else 0
  }

  lemma LeftBackEnd(s: State)
    requires FrontOk(s) && BackOk(s) && InRoundOrLock(s.pc)
    ensures var t := BackEndStep(s); (InRoundOrLock(t.pc) || t.pc.AtTest?) && Left(t) + 1 <= Left(s)
  {
  }

  lemma LeftAppend(s: State, line: Record)
    ensures var t := AppendLine(s, line); t.pc == s.pc && Left(t) <= Left(s) + 1
  {
  }

  lemma LeftStep(s: State, step: Step)
    requires Inv(s) && InRoundOrLock(s.pc)
    ensures var t := Apply(s, step);
            && (InRoundOrLock(t.pc) || t.pc.AtTest?)
            && Left(t) + (if step == BackEnd then 1 else 0) <= Left(s) + if step.Append? then 1 else 0
  {
    match step
    case Append(line) => LeftAppend(s, line);
    case BackEnd => LeftBackEnd(s);
    case Stop =>
  }

  /** Some prefix of `more` brings the back end from `start` to a test. */
  ghost predicate TestedWithin(start: seq<Step>, more: seq<Step>) {
    exists n :: TestedAt(start, more, n)
  }

  predicate TestedAt(start: seq<Step>, more: seq<Step>, n: int) {
    0 <= n <= |more| && Run(start + more[..n]).pc.AtTest?
  }

  lemma {:induction false} LeftRun(start: seq<Step>, more: seq<Step>)
    requires InRoundOrLock(Run(start).pc)
    ensures TestedWithin(start, more)
            || (InRoundOrLock(Run(start + more).pc)
                && Left(Run(start + more)) + Turns(more) <= Left(Run(start)) + Appends(more))
    decreases |more|
  {
    if more == [] {
      assert start + more == start;
    } else {
      var before, last := more[..|more| - 1], more[|more| - 1];
      assert more == before + [last];
      LeftRun(start, before);
      if TestedWithin(start, before) {
        var n :| TestedAt(start, before, n);
        assert more[..n] == before[..n] && TestedAt(start, more, n);
      } else {
        InvRun(start + before);
        LeftStep(Run(start + before), last);
        RunAppend(start, before, last);
        assert more[..|more|] == more && (Run(start + more).pc.AtTest? ==> TestedAt(start, more, |more|));
      }
    }
  }

  /** A round ends: after a test that lets the back end go on, whatever is appended, it is at a test again
      after at most as many steps of its own as there are full buffers and appends, plus eight. */
  lemma RoundEnds(steps: seq<Step>, more: seq<Step>)
    requires GoesOn(steps) && Turns(more) >= |Run(steps).buffers| + 8 + Appends(more)
    ensures TestedWithin(steps + [BackEnd], more)
  {
    var start := steps + [BackEnd];
    GoesOnStep(steps);
    LeftRun(start, more);
    if InRoundOrLock(Run(start + more).pc) {
      LeftPositive(start + more);
    }
  }

  lemma LeftPositive(steps: seq<Step>)
    requires InRoundOrLock(Run(steps).pc)
    ensures Left(Run(steps)) >= 1
  {
    InvRun(steps);
  }

  lemma {:induction false} OutputGrows(a: seq<Step>, b: seq<Step>)
    ensures Run(a).output <= Run(a + b).output
    decreases |b|
  {
    if b == [] {
      assert a + b == a;
    } else {
      var before, last := b[..|b| - 1], b[|b| - 1];
      assert b == before + [last];
      OutputGrows(a, before);
      RunAppend(a, before, last);
      OutputStep(Run(a + before), last);
    }
  }

  lemma OutputStep(s: State, step: Step)
    ensures s.output <= Apply(s, step).output
  {
  }

  lemma ConcatPrefix(a: seq<seq<Byte>>, b: seq<seq<Byte>>)
    requires a <= b
    ensures Concat(a) <= Concat(b)
  {
    assert b == a + b[|a|..];
    ConcatAppend(a, b[|a|..]);
  }

  /** No record is left lying: after a test that lets the back end go on, with any appends in between and
      enough steps of the back end, everything appended before that test is in the output. */
  lemma EveryRecordWritten(steps: seq<Step>, more: seq<Step>)
    requires GoesOn(steps) && Turns(more) >= |Run(steps).buffers| + 8 + Appends(more)
    ensures Concat(Offered(steps)) <= Concat(Run((steps + [BackEnd]) + more).output)
  {
    var start := steps + [BackEnd];
    RoundEnds(steps, more);
    var n :| TestedAt(start, more, n);
    RoundWrites(steps, more[..n]);
    WrittenLater(start, more, n);
  }

  lemma WrittenLater(start: seq<Step>, more: seq<Step>, n: nat)
    requires n <= |more|
    ensures Concat(Run(start + more[..n]).output) <= Concat(Run(start + more).output)
  {
    var a, b := start + more[..n], more[n..];
    assert start + more == a + b;
    OutputGrows(a, b);
    ConcatPrefix(Run(a).output, Run(a + b).output);
  }

  /** What a round that is over has written includes everything accepted before its first test. */
  lemma RoundWrites(steps: seq<Step>, more: seq<Step>)
    requires GoesOn(steps) && Run((steps + [BackEnd]) + more).pc.AtTest?
    ensures Concat(Offered(steps)) <= Concat(Run((steps + [BackEnd]) + more).output)
  {
    UnderRun(steps, more);
    AcceptedExactly(steps);
    RoundWritesAll((steps + [BackEnd]) + more);
    ConcatPrefix(Offered(steps), Run((steps + [BackEnd]) + more).sealed);
  }

  // ---------------------------------------------------------------- the class

  /** The state at the end of a round that began writing in `s`. */
  function RoundEnd(s: State): State {
    s.(output := s.output + s.toWrite, toWrite := [], new1 := Some([]), new2 := Some([]), pc := AtTest)
  }

  lemma RoundKeeps(s: State)
    requires Inv(s) && s.pc == Writing(0)
    ensures Inv(RoundEnd(s))
  {
    var t := RoundEnd(s);
    assert Gone(t) == Gone(s);
    assert Full(t) == Full(s) && t.current == s.current;
  }

  /** `n` steps of the back end in a row. */
  function BackEndSteps(s: State, n: nat): State
    decreases n
  {
    if n == 0 then s else BackEndSteps(BackEndStep(s), n - 1)
  }

  lemma {:induction false} WriteSteps(s: State, n: nat)
    requires s.pc.Writing? && s.pc.next + n == |s.toWrite|
    ensures BackEndSteps(s, n + 5)
            == BackEndSteps(s.(output := s.output + s.toWrite[s.pc.next..], pc := Writing(|s.toWrite|)), 5)
    decreases n
  {
    if n == 0 {
      assert s.output + s.toWrite[s.pc.next..] == s.output;
    } else {
      var t := BackEndStep(s);
      MoveOne(s.output, s.toWrite, s.pc.next);
      WriteSteps(t, n - 1);
    }
  }

  /** Trim, return both buffers and clear. */
  lemma TailSteps(s: State)
    requires BackOk(s) && s.pc == Writing(|s.toWrite|)
    ensures BackEndSteps(s, 5) == s.(toWrite := [], new1 := Some([]), new2 := Some([]), pc := AtTest)
  {
    var t1 := BackEndStep(s);
    var t2 := BackEndStep(t1);
    var t3 := BackEndStep(t2);
    assert t3.pc == AtReturn2 && t3.new1 == Some([]);
    var t4 := BackEndStep(t3);
    assert t4.pc == AtClear && t4.new2 == Some([]);
    assert BackEndSteps(s, 5) == BackEndSteps(t1, 4) == BackEndSteps(t2, 3) == BackEndSteps(t3, 2)
           == BackEndSteps(t4, 1) == BackEndSteps(BackEndStep(t4), 0);
  }

  /** A round is what threadFunc does between a swap and its next test, step by step. */
  lemma RoundBySteps(s: State)
    requires BackOk(s) && s.pc == Writing(0)
    ensures BackEndSteps(s, |s.toWrite| + 5) == RoundEnd(s)
  {
    WriteSteps(s, |s.toWrite|);
    assert s.toWrite[0..] == s.toWrite;
    TailSteps(s.(output := s.output + s.toWrite, pc := Writing(|s.toWrite|)));
  }

  // ---------------------------------------------------------------- appends during a round

  function AppendAll(s: State, lines: seq<Record>): State {
    if lines == [] then s else AppendLine(AppendAll(s, lines[..|lines| - 1]), lines[|lines| - 1])
  }

  lemma {:induction false} AppendAllTwice(s: State, a: seq<Record>, b: seq<Record>)
    ensures AppendAll(AppendAll(s, a), b) == AppendAll(s, a + b)
    decreases |b|
  {
    if b == [] {
      assert a + b == a;
    } else {
      assert (a + b)[..|a + b| - 1] == a + b[..|b| - 1];
      AppendAllTwice(s, a, b[..|b| - 1]);
    }
  }

  /** During a round an append and a step of the back end do not meet: they can be exchanged. */
  lemma AppendCommutes(s: State, line: Record)
    requires InRound(s.pc) && s.current.Some?
    ensures BackEndStep(AppendLine(s, line)) == AppendLine(BackEndStep(s), line)
  {
    AppendBack(s, line);
    BackEndFront(s, AppendLine(s, line));
    AppendFrontOnly(s, BackEndStep(s), line);
  }

  /** A step of the back end during a round reads and writes its own buffers only. */
  lemma BackEndFront(s: State, t: State)
    requires InRound(s.pc) && SameBack(s, t)
    ensures BackEndStep(t) == BackEndStep(s).(current := t.current, spare := t.spare, buffers := t.buffers,
                                              accepted := t.accepted, sealed := t.sealed, running := t.running)
    ensures var u := BackEndStep(s);
            && u.current == s.current && u.spare == s.spare && u.buffers == s.buffers && u.accepted == s.accepted
            && u.sealed == s.sealed && u.running == s.running
  {
  }

  /** What an append does depends on the front end only. */
  lemma AppendFrontOnly(s: State, t: State, line: Record)
    requires t.current == s.current && t.spare == s.spare && t.buffers == s.buffers && t.accepted == s.accepted
    requires s.current.Some?
    ensures var u, w := AppendLine(s, line), AppendLine(t, line);
            w == t.(current := u.current, spare := u.spare, buffers := u.buffers, accepted := u.accepted)
  {
  }

  predicate SameBack(s: State, t: State) {
    && t.pc == s.pc && t.new1 == s.new1 && t.new2 == s.new2 && t.toWrite == s.toWrite && t.output == s.output
    && t.fault == s.fault
  }

  lemma AppendBack(s: State, line: Record)
    ensures var t := AppendLine(s, line);
            && t.pc == s.pc && t.new1 == s.new1 && t.new2 == s.new2 && t.toWrite == s.toWrite && t.output == s.output
            && t.sealed == s.sealed && t.running == s.running && (s.current.Some? ==> t.fault == s.fault)
  {
  }

  /** What the back end owns does not change what appends do. */
  lemma {:induction false} AppendAllBack(s: State, t: State, lines: seq<Record>)
    requires t == s.(output := t.output, toWrite := t.toWrite, new1 := t.new1, new2 := t.new2, pc := t.pc)
    ensures AppendAll(t, lines)
            == AppendAll(s, lines).(output := t.output, toWrite := t.toWrite, new1 := t.new1, new2 := t.new2, pc := t.pc)
  {
    if lines != [] {
      AppendAllBack(s, t, lines[..|lines| - 1]);
    }
  }

  lemma {:induction false} AppendAllKeeps(s: State, lines: seq<Record>)
    requires Inv(s)
    ensures Inv(AppendAll(s, lines))
  {
    if lines != [] {
      AppendAllKeeps(s, lines[..|lines| - 1]);
      InvStep(AppendAll(s, lines[..|lines| - 1]), Append(lines[|lines| - 1]));
    }
  }

  function Flat(lines: seq<seq<Record>>): seq<Record> {
    if lines == [] then [] else Flat(lines[..|lines| - 1]) + lines[|lines| - 1]
  }

  /** A round that has written `i` buffers, `between[k]` having been appended before buffer `k`. */
  function Written(s: State, between: seq<seq<Record>>, i: nat): State
    requires i <= |between| && i <= |s.toWrite|
  {
    AppendAll(s, Flat(between[..i])).(output := s.output + s.toWrite[..i], pc := Writing(i))
  }

  lemma WrittenStep(s: State, between: seq<seq<Record>>, i: nat)
    requires i < |between| && i < |s.toWrite|
    ensures AppendAll(Written(s, between, i), between[i])
              .(output := Written(s, between, i).output + [s.toWrite[i]], pc := Writing(i + 1))
            == Written(s, between, i + 1)
  {
    assert between[..i + 1][..i] == between[..i];
    assert s.output + s.toWrite[..i + 1] == (s.output + s.toWrite[..i]) + [s.toWrite[i]];
    var front, w := AppendAll(s, Flat(between[..i])), Written(s, between, i);
    assert Flat(between[..i + 1]) == Flat(between[..i]) + between[i];
    AppendAllTwice(s, Flat(between[..i]), between[i]);
    AppendAllBack(front, w, between[i]);
    AppendAllOwn(front, between[i]);
    assert AppendAll(w, between[i]) == AppendAll(front, between[i]).(output := w.output, pc := w.pc);
  }

  lemma {:induction false} AppendAllOwn(s: State, lines: seq<Record>)
    ensures var t := AppendAll(s, lines);
            t.toWrite == s.toWrite && t.output == s.output && t.new1 == s.new1 && t.new2 == s.new2 && t.pc == s.pc
  {
    if lines != [] {
      AppendAllOwn(s, lines[..|lines| - 1]);
      AppendBack(AppendAll(s, lines[..|lines| - 1]), lines[|lines| - 1]);
    }
  }

  /** A whole round, the front end having appended `between` and then `last`. */
  lemma RoundWith(s: State, between: seq<seq<Record>>, last: seq<Record>)
    requires |between| == |s.toWrite|
    ensures AppendAll(Written(s, between, |between|), last).(toWrite := [], new1 := Some([]), new2 := Some([]), pc := AtTest)
            == RoundEnd(AppendAll(s, Flat(between) + last))
  {
    var t := Written(s, between, |between|);
    assert between[..|between|] == between && s.toWrite[..|s.toWrite|] == s.toWrite;
    AppendAllTwice(s, Flat(between), last);
    AppendAllBack(AppendAll(s, Flat(between)), t, last);
    AppendAllOwn(s, Flat(between) + last);
  }

  lemma {:induction false} AppendAllAccepts(s: State, lines: seq<Record>)
    ensures s.accepted <= AppendAll(s, lines).accepted && AppendAll(s, lines).sealed == s.sealed
  {
    if lines != [] {
      AppendAllAccepts(s, lines[..|lines| - 1]);
      AcceptedStep(AppendAll(s, lines[..|lines| - 1]), Append(lines[|lines| - 1]));
      AppendBack(AppendAll(s, lines[..|lines| - 1]), lines[|lines| - 1]);
    }
  }

  /** As many lists as there are buffers. */
  function Padded(between: seq<seq<Record>>, n: nat): (r: seq<seq<Record>>)
    ensures |r| == n
  {
    seq(n, i => if 0 <= i < |between| then between[i] else [])
  }

  lemma SwapFacts(s: State)
    requires Inv(s) && (s.pc.AtLock? || s.pc.Waiting?)
    ensures var t := SwapBuffers(s); Inv(t) && t.pc == Writing(0) && t.sealed == s.accepted
  {
    SwapKeeps(s);
  }

  lemma RoundOutput(s: State, accepted: seq<Record>)
    requires Inv(s) && s.pc.AtTest? && accepted <= s.sealed
    ensures Concat(accepted) <= Concat(s.output)
  {
    assert Gone(s) == s.output;
    ConcatPrefix(accepted, s.sealed);
  }

  class AsyncLogging {
    var current: Option<Buffer>
    var spare: Option<Buffer>
    var buffers: seq<Buffer>
    var running: bool
    var new1: Option<Buffer>
    var new2: Option<Buffer>
    var toWrite: seq<Buffer>
    var output: seq<Buffer>
    ghost var pc: Pc
    ghost var accepted: seq<Record>
    ghost var sealed: seq<Record>

    ghost function Snapshot(): State
      reads this
    {
      State(current, spare, buffers, pc, running, new1, new2, toWrite, output, accepted, sealed, false)
    }

    constructor ()
      ensures Snapshot() == Initial()
    {
      current, spare, buffers, running := Some([]), Some([]), [], true;
      new1, new2, toWrite, output := Some([]), Some([]), [], [];
      pc, accepted, sealed := AtTest, [], [];
    }

    method AppendRecord(line: Record)
      requires current.Some?
      modifies `current, `spare, `buffers, `accepted
      ensures Snapshot() == AppendLine(old(Snapshot()), line)
    {
      if |line| < LARGE_BUFFER {
        accepted := accepted + [line];
      }
      if LARGE_BUFFER - |current.value| > |line| {
        current := Some(Put(current.value, line));
      } else {
        buffers := buffers + [current.value];
        if spare.Some? {
          current := spare;
          spare := None;
        } else {
          current := Some([]);
        }
        current := Some(Put(current.value, line));
      }
    }

    /** The back end's critical section after its wait. */
    method Swap()
      requires Inv(Snapshot()) && (pc.AtLock? || pc.Waiting?)
      modifies `buffers, `current, `new1, `new2, `toWrite, `spare, `sealed, `pc
      ensures Snapshot() == SwapBuffers(old(Snapshot()))
    {
      buffers := buffers + [current.value];
      current := new1;
      new1 := None;
      toWrite, buffers := buffers, toWrite;
      if spare.None? {
        spare := new2;
        new2 := None;
      }
      sealed := accepted;
      pc := Writing(0);
    }

    method AppendMany(lines: seq<Record>)
      requires current.Some?
      modifies `current, `spare, `buffers, `accepted
      ensures current.Some? && Snapshot() == AppendAll(old(Snapshot()), lines)
    {
      ghost var s := Snapshot();
      for i := 0 to |lines|
        invariant current.Some? && Snapshot() == AppendAll(s, lines[..i])
      {
        assert lines[..i + 1][..i] == lines[..i];
        AppendRecord(lines[i]);
      }
      assert lines[..|lines|] == lines;
    }

    /** One buffer is written, after the front end appended `lines`. */
    method WriteOne(i: nat, lines: seq<Record>)
      requires current.Some? && pc == Writing(i) && i < |toWrite|
      modifies `current, `spare, `buffers, `accepted, `output, `pc
      ensures current.Some?
      ensures Snapshot() == AppendAll(old(Snapshot()), lines).(output := old(output) + [toWrite[i]], pc := Writing(i + 1))
    {
      AppendAllOwn(Snapshot(), lines);
      AppendMany(lines);
      output := output + [toWrite[i]];
      pc := Writing(i + 1);
    }

    /** Writing, with the front end appending `between[i]` before buffer `i`. */
    method WriteBuffers(between: seq<seq<Record>>)
      requires current.Some? && pc == Writing(0) && |between| == |toWrite|
      modifies `current, `spare, `buffers, `accepted, `output, `pc
      ensures current.Some? && Snapshot() == Written(old(Snapshot()), between, |between|)
    {
      ghost var s := Snapshot();
      var i := 0;
      assert s.output + s.toWrite[..0] == s.output;
      while i < |toWrite|
        invariant i <= |toWrite| && toWrite == s.toWrite && current.Some? && Snapshot() == Written(s, between, i)
      {
        WrittenStep(s, between, i);
        WriteOne(i, between[i]);
        i := i + 1;
      }
    }

    /** Trimming, returning both buffers and clearing. */
    method Recycle()
      requires BackOk(Snapshot()) && pc == Writing(|toWrite|)
      modifies `new1, `new2, `toWrite, `pc
      ensures Snapshot() == old(Snapshot()).(toWrite := [], new1 := Some([]), new2 := Some([]), pc := AtTest)
    {
      if |toWrite| > 2 {
        toWrite := toWrite[..2];
      }
      if new1.None? {
        new1 := Some([]);
        toWrite := toWrite[..|toWrite| - 1];
      }
      if new2.None? {
        new2 := Some([]);
        toWrite := toWrite[..|toWrite| - 1];
      }
      toWrite := [];
      pc := AtTest;
    }

    /** A round with whatever the front end appends meanwhile: it writes every swapped-out buffer in order,
        ends with both returned buffers empty and none left over, and the appends are all there. */
    method FinishRound(between: seq<seq<Record>>, last: seq<Record>)
      requires Inv(Snapshot()) && pc == Writing(0) && |between| == |toWrite|
      modifies `current, `spare, `buffers, `accepted, `new1, `new2, `toWrite, `output, `pc
      ensures Snapshot() == RoundEnd(AppendAll(old(Snapshot()), Flat(between) + last)) && Inv(Snapshot())
    {
      ghost var s := Snapshot();
      WriteBuffers(between);
      AppendMany(last);
      RoundWith(s, between, last);
      AppendAllOwn(Written(s, between, |between|), last);
      AppendAllOwn(s, Flat(between));
      Recycle();
      AppendAllKeeps(s, Flat(between) + last);
      AppendAllOwn(s, Flat(between) + last);
      RoundKeeps(AppendAll(s, Flat(between) + last));
    }

    /** One turn of threadFunc's loop: the test, the wait while nothing is queued, the swap and the round,
        with `waiting`, `between` and `last` appended meanwhile.  It is left exactly when the logger was
        stopped; otherwise everything accepted before it is in the output. */
    method Turn(waiting: seq<Record>, between: seq<seq<Record>>, last: seq<Record>) returns (left: bool)
      requires Inv(Snapshot()) && pc == AtTest
      modifies `current, `spare, `buffers, `accepted, `new1, `new2, `toWrite, `output, `sealed, `pc
      ensures Inv(Snapshot()) && left == !old(running)
      ensures left ==> Snapshot() == old(Snapshot()).(pc := Exited)
      ensures !left ==> pc == AtTest && Concat(old(accepted)) <= Concat(output)
    {
      left := !running;
      InvStep(Snapshot(), BackEnd);
      if left {
        pc := Exited;
      } else {
        pc := AtLock;
        WaitAndSwap(waiting);
        FinishRound(Padded(between, |toWrite|), last);
        RoundOutput(Snapshot(), old(accepted));
      }
    }

    /** wait_for, if nothing is queued, and the critical section after it. */
    method WaitAndSwap(waiting: seq<Record>)
      requires Inv(Snapshot()) && pc == AtLock
      modifies `current, `spare, `buffers, `accepted, `new1, `new2, `toWrite, `sealed, `pc
      ensures Inv(Snapshot()) && pc == Writing(0) && old(accepted) <= sealed
    {
      Wait(waiting);
      ghost var t := Snapshot();
      SwapFacts(t);
      Swap();
    }

    method Wait(waiting: seq<Record>)
      requires Inv(Snapshot()) && pc == AtLock
      modifies `current, `spare, `buffers, `accepted, `pc
      ensures Inv(Snapshot()) && (pc == AtLock || pc == Waiting) && old(accepted) <= accepted
    {
      ghost var s := Snapshot();
      if |buffers| == 0 {
        InvStep(s, BackEnd);
        pc := Waiting;
      }
      AppendAllAccepts(Snapshot(), waiting);
      AppendAllOwn(Snapshot(), waiting);
      AppendAllKeeps(Snapshot(), waiting);
      AppendMany(waiting);
    }
  }
}
