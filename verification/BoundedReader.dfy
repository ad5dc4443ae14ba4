/** The bounded local command runner: two reader threads drain the child's two pipes into
    two buffers that share one byte budget under one lock, while the main thread waits for
    the child and then joins the readers.  Every atomic action of every thread is one Step;
    a run is any legal sequence of steps, so a statement about all runs is a statement about
    every interleaving, every chunk size and every placement of a failure. */
module BoundedReader {
  import opened Prelude

  const MAX_EXEC_OUTPUT_BYTES: nat := 65536
  const READ_SIZE: nat := 8192

  datatype Side = Stdout | Stderr

  function Other(side: Side): Side {
    if side == Stdout then Stderr else Stdout
  }

  /** One value for each side. */
  datatype Both<T> = Both(out: T, err: T) {
    function At(side: Side): T {
      if side == Stdout then out else err
    }

    function With(side: Side, value: T): Both<T> {
      if side == Stdout then Both(value, err) else Both(out, value)
    }
  }

  /** Where a reader thread stands.  Locked, Measured and Extended lie inside the critical section. */
  datatype Phase =
    | Reading
    | Holding(chunk: seq<Byte>)
    | Locked(chunk: seq<Byte>)
    | Measured(chunk: seq<Byte>, remaining: int)
    | Extended
    | Overflowed
    | Killing
    | Failing
    | Finished

  /** A reader's thread, its buffer, and (as history) the bytes it has taken from its pipe. */
  datatype Reader = Reader(phase: Phase, buffer: seq<Byte>, consumed: seq<Byte>)

  /** Everything ever written into a pipe, and whether its last write end is closed. */
  datatype Pipe = Pipe(written: seq<Byte>, ended: bool)

  datatype Fault = TimeoutExpired | ReaderStuck | ReaderFailed | OutputExceeded

  datatype Main =
    | Waiting
    | Joining(timedOut: bool)
    | Raised(fault: Fault)
    | Returned(stdout: seq<Byte>, stderr: seq<Byte>)

  datatype State = State(
    readers: Both<Reader>,
    pipes: Both<Pipe>,
    lock: Option<Side>,
    exceeded: bool,
    errors: nat,
    killed: bool,
    main: Main)

  datatype Step =
    | ChildWrites(side: Side, data: seq<Byte>)
    | ChildCloses(side: Side)
    | Read(side: Side, size: nat)
    | ReadEof(side: Side)
    | Throws(side: Side)
    | Acquire(side: Side)
    | Measure(side: Side)
    | Extend(side: Side)
    | Test(side: Side)
    | SetExceeded(side: Side)
    | Kill(side: Side)
    | Record(side: Side)
    | ChildExits
    | WaitExpires
    | JoinGivesUp
    | Conclude

  function Init(): State {
    var reader := Reader(Reading, [], []);
    State(Both(reader, reader), Both(Pipe([], false), Pipe([], false)), None, false, 0, false, Waiting)
  }

  function Total(s: State): nat {
    |s.readers.out.buffer| + |s.readers.err.buffer|
  }

  function Available(s: State, side: Side): int {
    |s.pipes.At(side).written| - |s.readers.At(side).consumed|
  }

  predicate Joined(s: State) {
    s.readers.out.phase == Finished && s.readers.err.phase == Finished
  }

  predicate Enabled(s: State, step: Step) {
    match step
    case ChildWrites(side, data) => !s.pipes.At(side).ended
    case ChildCloses(side) => !s.pipes.At(side).ended
    case Read(side, size) =>
      s.readers.At(side).phase == Reading && 1 <= size <= READ_SIZE && size <= Available(s, side)
    case ReadEof(side) =>
      s.readers.At(side).phase == Reading && Available(s, side) == 0 && s.pipes.At(side).ended
    case Throws(side) =>
      var phase := s.readers.At(side).phase;
      phase == Reading || phase.Holding? || phase.Locked? || phase.Measured? || phase == Extended
    case Acquire(side) => s.readers.At(side).phase.Holding? && s.lock == None
    case Measure(side) => s.readers.At(side).phase.Locked?
    case Extend(side) => s.readers.At(side).phase.Measured?
    case Test(side) => s.readers.At(side).phase == Extended
    case SetExceeded(side) => s.readers.At(side).phase == Overflowed
    case Kill(side) => s.readers.At(side).phase == Killing
    case Record(side) => s.readers.At(side).phase == Failing
    case ChildExits => s.main == Waiting
    case WaitExpires => s.main == Waiting
    case JoinGivesUp => s.main.Joining? && !Joined(s)
    case Conclude => s.main.Joining? && Joined(s)
  }

  function SetPhase(s: State, side: Side, phase: Phase): State {
    s.(readers := s.readers.With(side, s.readers.At(side).(phase := phase)))
  }

  function Release(s: State, side: Side): State {
    if s.lock == Some(side) then s.(lock := None) else s
  }

  function Apply(s: State, step: Step): State
    requires Enabled(s, step)
  {
    match step
    case ChildWrites(side, data) =>
      var pipe := s.pipes.At(side);
      s.(pipes := s.pipes.With(side, pipe.(written := pipe.written + data)))
    case ChildCloses(side) =>
      s.(pipes := s.pipes.With(side, s.pipes.At(side).(ended := true)))
    case Read(side, size) =>
      var reader := s.readers.At(side);
      var start := |reader.consumed|;
      var chunk := s.pipes.At(side).written[start..start + size];
      s.(readers := s.readers.With(side, Reader(Holding(chunk), reader.buffer, reader.consumed + chunk)))
    case ReadEof(side) => SetPhase(s, side, Finished)
    case Throws(side) => SetPhase(Release(s, side), side, Failing)
    case Acquire(side) =>
      SetPhase(s, side, Locked(s.readers.At(side).phase.chunk)).(lock := Some(side))
    case Measure(side) =>
      SetPhase(s, side, Measured(s.readers.At(side).phase.chunk, MAX_EXEC_OUTPUT_BYTES + 1 - Total(s)))
    case Extend(side) =>
      var reader := s.readers.At(side);
      var room := reader.phase.remaining;
      var chunk := reader.phase.chunk;
      var kept := if room <= 0 then [] else if room < |chunk| then chunk[..room] else chunk;
      s.(readers := s.readers.With(side, Reader(Extended, reader.buffer + kept, reader.consumed)))
    case Test(side) =>
      SetPhase(Release(s, side), side, if Total(s) > MAX_EXEC_OUTPUT_BYTES then Overflowed else Reading)
    case SetExceeded(side) => SetPhase(s, side, Killing).(exceeded := true)
    case Kill(side) => SetPhase(s, side, Finished).(killed := true)
    case Record(side) => SetPhase(s, side, Finished).(errors := s.errors + 1, killed := true)
    case ChildExits => s.(main := Joining(false))
    case WaitExpires => s.(main := Joining(true), killed := true)
    case JoinGivesUp => s.(main := Raised(ReaderStuck))
    case Conclude =>
      s.(main :=
        if s.main.timedOut then Raised(TimeoutExpired)
        else if s.errors > 0 then Raised(ReaderFailed)
        else if s.exceeded then Raised(OutputExceeded)
        else Returned(s.readers.out.buffer, s.readers.err.buffer))
  }

  /** A run: each step is enabled where it is taken. */
  predicate Legal(s: State, steps: seq<Step>)
    decreases |steps|
  {
    steps == [] || (Enabled(s, steps[0]) && Legal(Apply(s, steps[0]), steps[1..]))
  }

  function After(s: State, steps: seq<Step>): State
    requires Legal(s, steps)
    decreases |steps|
  {
    if steps == [] then s else After(Apply(s, steps[0]), steps[1..])
  }

  // ----- The invariant -----

  predicate InCriticalSection(phase: Phase) {
    phase.Locked? || phase.Measured? || phase.Extended?
  }

  /** One reader against its pipe: owns says whether it holds the lock, total is the size of both buffers. */
  predicate ReaderInv(reader: Reader, pipe: Pipe, owns: bool, total: nat, exceeded: bool, errors: nat) {
    && reader.consumed <= pipe.written
    && |reader.buffer| <= |reader.consumed|
    && (owns <==> InCriticalSection(reader.phase))
    && match reader.phase
       case Reading => reader.buffer == reader.consumed
       case Holding(chunk) => reader.buffer + chunk == reader.consumed
       case Locked(chunk) => reader.buffer + chunk == reader.consumed
       case Measured(chunk, remaining) =>
         reader.buffer + chunk == reader.consumed && remaining == MAX_EXEC_OUTPUT_BYTES + 1 - total
       case Extended => total <= MAX_EXEC_OUTPUT_BYTES ==> reader.buffer == reader.consumed
       case Overflowed => total > MAX_EXEC_OUTPUT_BYTES
       case Killing => exceeded
       case Failing => true
       case Finished =>
         errors > 0 || exceeded || (reader.buffer == reader.consumed == pipe.written && pipe.ended)
  }

  predicate SideInv(s: State, side: Side) {
    ReaderInv(s.readers.At(side), s.pipes.At(side), s.lock == Some(side), Total(s), s.exceeded, s.errors)
  }

  /** A reader that still owes the others an overflow report or an error report. */
  predicate Reporting(phase: Phase) {
    phase == Extended || phase == Overflowed || phase == Failing
  }

  predicate Inv(s: State) {
    && SideInv(s, Stdout)
    && SideInv(s, Stderr)
    && Total(s) <= MAX_EXEC_OUTPUT_BYTES + 1
    && (s.exceeded ==> Total(s) > MAX_EXEC_OUTPUT_BYTES)
    && (s.exceeded ==> s.killed || s.readers.out.phase == Killing || s.readers.err.phase == Killing)
    && (s.errors > 0 ==> s.killed)
    && (Total(s) > MAX_EXEC_OUTPUT_BYTES ==>
          s.exceeded || s.errors > 0 || Reporting(s.readers.out.phase) || Reporting(s.readers.err.phase))
    && MainInv(s)
  }

  predicate MainInv(s: State) {
    match s.main
    case Waiting => true
    case Joining(timedOut) => timedOut ==> s.killed
    case Raised(OutputExceeded) => Joined(s) && s.errors == 0 && s.exceeded
    case Raised(ReaderFailed) => Joined(s) && s.errors > 0
    case Raised(TimeoutExpired) => Joined(s) && s.killed
    case Raised(ReaderStuck) => true
    case Returned(stdout, stderr) =>
      && Joined(s) && s.errors == 0 && !s.exceeded
      && stdout == s.readers.out.buffer && stderr == s.readers.err.buffer
  }

  lemma InitSatisfiesInv()
    ensures Inv(Init())
  {
  }

  /** The child and the pipes: nothing a reader has done is disturbed. */
  lemma ChildStepKeepsInv(s: State, step: Step)
    requires Inv(s) && Enabled(s, step) && (step.ChildWrites? || step.ChildCloses?)
    ensures Inv(Apply(s, step))
  {
  }

  /** Taking bytes from a pipe: the chunk is the next stretch of the stream. */
  lemma ReaderReads(
      reader: Reader, pipe: Pipe, size: nat, owns: bool, total: nat, exceeded: bool, errors: nat)
    requires ReaderInv(reader, pipe, owns, total, exceeded, errors) && reader.phase == Reading
    requires |reader.consumed| + size <= |pipe.written|
    ensures var start := |reader.consumed|;
            var chunk := pipe.written[start..start + size];
            var after := Reader(Holding(chunk), reader.buffer, reader.consumed + chunk);
            ReaderInv(after, pipe, owns, total, exceeded, errors)
  {
    var start := |reader.consumed|;
    assert reader.consumed + pipe.written[start..start + size] == pipe.written[..start + size];
  }

  lemma ReadKeepsInv(s: State, side: Side, size: nat)
    requires Inv(s) && Enabled(s, Read(side, size))
    ensures Inv(Apply(s, Read(side, size)))
  {
    var s' := Apply(s, Read(side, size));
    ReaderReads(
      s.readers.At(side), s.pipes.At(side), size, s.lock == Some(side), Total(s), s.exceeded, s.errors);
    assert s'.readers.At(Other(side)) == s.readers.At(Other(side));
    assert SideInv(s', side);
    assert SideInv(s', Other(side));
  }

  lemma EofKeepsInv(s: State, side: Side)
    requires Inv(s) && Enabled(s, ReadEof(side))
    ensures Inv(Apply(s, ReadEof(side)))
  {
    var s' := Apply(s, ReadEof(side));
    assert SideInv(s', side);
    assert SideInv(s', Other(side));
  }

  lemma ThrowOutsideKeepsInv(s: State, side: Side)
    requires Inv(s) && Enabled(s, Throws(side)) && !InCriticalSection(s.readers.At(side).phase)
    ensures Inv(Apply(s, Throws(side)))
  {
    var s' := Apply(s, Throws(side));
    assert s' == SetPhase(s, side, Failing);
    assert SideInv(s', side);
    assert SideInv(s', Other(side));
  }

  /** An exception inside the critical section gives the lock back. */
  lemma ThrowInsideKeepsInv(s: State, side: Side)
    requires Inv(s) && Enabled(s, Throws(side)) && InCriticalSection(s.readers.At(side).phase)
    ensures Inv(Apply(s, Throws(side)))
  {
    var s' := Apply(s, Throws(side));
    assert SideInv(s, Other(side));
    assert s' == SetPhase(s, side, Failing).(lock := None);
    assert SideInv(s', side);
    assert SideInv(s', Other(side));
  }

  lemma AcquireKeepsInv(s: State, side: Side)
    requires Inv(s) && Enabled(s, Acquire(side))
    ensures Inv(Apply(s, Acquire(side)))
  {
    var s' := Apply(s, Acquire(side));
    assert SideInv(s', side);
    assert SideInv(s', Other(side));
  }

  lemma MeasureKeepsInv(s: State, side: Side)
    requires Inv(s) && Enabled(s, Measure(side))
    ensures Inv(Apply(s, Measure(side)))
  {
    var s' := Apply(s, Measure(side));
    assert SideInv(s', side);
    assert SideInv(s', Other(side));
  }

  /** The append itself: the measurement is still true, because only the lock's owner appends. */
  lemma ExtendKeepsInv(s: State, side: Side)
    requires Inv(s) && Enabled(s, Extend(side))
    ensures Inv(Apply(s, Extend(side)))
  {
    var reader := s.readers.At(side);
    var other := s.readers.At(Other(side));
    assert s.lock == Some(side);
    assert !InCriticalSection(other.phase);
    var s' := Apply(s, Extend(side));
    assert Total(s') <= MAX_EXEC_OUTPUT_BYTES + 1;
    assert SideInv(s', side);
    assert SideInv(s', Other(side));
  }

  lemma TestKeepsInv(s: State, side: Side)
    requires Inv(s) && Enabled(s, Test(side))
    ensures Inv(Apply(s, Test(side)))
  {
    var s' := Apply(s, Test(side));
    assert s.lock == Some(side);
    assert s'.readers.At(Other(side)) == s.readers.At(Other(side));
    assert SideInv(s', side);
    assert SideInv(s', Other(side));
  }

  lemma SetExceededKeepsInv(s: State, side: Side)
    requires Inv(s) && Enabled(s, SetExceeded(side))
    ensures Inv(Apply(s, SetExceeded(side)))
  {
    var s' := Apply(s, SetExceeded(side));
    assert SideInv(s', side);
    assert SideInv(s', Other(side));
  }

  lemma KillKeepsInv(s: State, side: Side)
    requires Inv(s) && Enabled(s, Kill(side))
    ensures Inv(Apply(s, Kill(side)))
  {
    var s' := Apply(s, Kill(side));
    assert SideInv(s', side);
    assert SideInv(s', Other(side));
  }

  lemma RecordKeepsInv(s: State, side: Side)
    requires Inv(s) && Enabled(s, Record(side))
    ensures Inv(Apply(s, Record(side)))
  {
    var s' := Apply(s, Record(side));
    assert SideInv(s', side);
    assert SideInv(s', Other(side));
  }

  lemma MainStepKeepsInv(s: State, step: Step)
    requires Inv(s) && Enabled(s, step)
    requires step.ChildExits? || step.WaitExpires? || step.JoinGivesUp? || step.Conclude?
    ensures Inv(Apply(s, step))
  {
  }

  /** Every atomic action of every thread keeps the invariant, whatever the other thread is doing. */
  lemma StepKeepsInv(s: State, step: Step)
    requires Inv(s) && Enabled(s, step)
    ensures Inv(Apply(s, step))
  {
    match step
    case ChildWrites(_, _) => ChildStepKeepsInv(s, step);
    case ChildCloses(_) => ChildStepKeepsInv(s, step);
    case Read(side, size) => ReadKeepsInv(s, side, size);
    case ReadEof(side) => EofKeepsInv(s, side);
    case Throws(side) =>
      if InCriticalSection(s.readers.At(side).phase) {
        ThrowInsideKeepsInv(s, side);
      } else {
        ThrowOutsideKeepsInv(s, side);
      }
    case Acquire(side) => AcquireKeepsInv(s, side);
    case Measure(side) => MeasureKeepsInv(s, side);
    case Extend(side) => ExtendKeepsInv(s, side);
    case Test(side) => TestKeepsInv(s, side);
    case SetExceeded(side) => SetExceededKeepsInv(s, side);
    case Kill(side) => KillKeepsInv(s, side);
    case Record(side) => RecordKeepsInv(s, side);
    case _ => MainStepKeepsInv(s, step);
  }

  lemma {:induction false} RunKeepsInv(s: State, steps: seq<Step>)
    requires Inv(s) && Legal(s, steps)
    ensures Inv(After(s, steps))
    decreases |steps|
  {
    if steps != [] {
      StepKeepsInv(s, steps[0]);
      RunKeepsInv(Apply(s, steps[0]), steps[1..]);
    }
  }

  // ----- What every run guarantees -----

  /** In every state of every run the two buffers together hold at most MAX + 1 bytes, and the two
      readers are never inside the critical section together. */
  lemma BudgetAndExclusionInEveryRun(steps: seq<Step>)
    requires Legal(Init(), steps)
    ensures Total(After(Init(), steps)) <= MAX_EXEC_OUTPUT_BYTES + 1
    ensures var s := After(Init(), steps);
            !(InCriticalSection(s.readers.out.phase) && InCriticalSection(s.readers.err.phase))
  {
    InitSatisfiesInv();
    RunKeepsInv(Init(), steps);
  }

  /** A normal return hands over both streams in full: nothing the child wrote is missing, and the
      whole output fits the budget. */
  lemma NormalReturnIsComplete(steps: seq<Step>)
    requires Legal(Init(), steps)
    requires After(Init(), steps).main.Returned?
    ensures var s := After(Init(), steps);
            && s.main.stdout == s.pipes.out.written && s.pipes.out.ended
            && s.main.stderr == s.pipes.err.written && s.pipes.err.ended
            && |s.pipes.out.written| + |s.pipes.err.written| <= MAX_EXEC_OUTPUT_BYTES
  {
    InitSatisfiesInv();
    RunKeepsInv(Init(), steps);
  }

  /** The overflow error is never a false alarm, and the child has been killed by then. */
  lemma OverflowIsReal(steps: seq<Step>)
    requires Legal(Init(), steps)
    requires After(Init(), steps).main == Raised(OutputExceeded)
    ensures var s := After(Init(), steps);
            |s.pipes.out.written| + |s.pipes.err.written| > MAX_EXEC_OUTPUT_BYTES && s.killed
  {
    InitSatisfiesInv();
    RunKeepsInv(Init(), steps);
  }

  /** When the child exits in time and no reader fails, the verdict is decided by how much the child wrote,
      never by the interleaving. */
  lemma VerdictIsExact(steps: seq<Step>)
    requires Legal(Init(), steps)
    requires var s := After(Init(), steps); s.main == Joining(false) && Joined(s) && s.errors == 0
    ensures var s := After(Init(), steps);
            var written := |s.pipes.out.written| + |s.pipes.err.written|;
            Apply(s, Conclude).main.Returned? <==> written <= MAX_EXEC_OUTPUT_BYTES
  {
    InitSatisfiesInv();
    RunKeepsInv(Init(), steps);
  }

  // ----- Termination and absence of deadlock once the pipes have ended -----

  predicate PipesEnded(s: State) {
    s.pipes.out.ended && s.pipes.err.ended
  }

  function PhaseRank(phase: Phase): nat {
    match phase
    case Holding(_) => 7
    case Locked(_) => 6
    case Measured(_, _) => 5
    case Extended => 4
    case Overflowed => 3
    case Reading => 3
    case Killing => 2
    case Failing => 1
    case Finished => 0
  }

  function MainRank(main: Main): nat {
    match main
    case Waiting => 2
    case Joining(_) => 1
    case _ => 0
  }

  function SideRank(s: State, side: Side): int {
    PhaseRank(s.readers.At(side).phase) + 5 * Available(s, side)
  }

  function Rank(s: State): int {
    SideRank(s, Stdout) + SideRank(s, Stderr) + MainRank(s.main)
  }

  /** Once both pipes have ended, every step of every thread lowers the rank. */
  lemma StepLowersRank(s: State, step: Step)
    requires PipesEnded(s) && Enabled(s, step)
    ensures PipesEnded(Apply(s, step))
    ensures Rank(Apply(s, step)) < Rank(s)
  {
    if step.ChildExits? || step.WaitExpires? || step.JoinGivesUp? || step.Conclude? {
      MainStepLowersRank(s, step);
    } else {
      ReaderStepLowersRank(s, step);
      assert step.side == Stdout || step.side == Stderr;
    }
  }

  /** A step of the main thread, or the child's exit, only moves the main thread on. */
  lemma MainStepLowersRank(s: State, step: Step)
    requires Enabled(s, step) && (step.ChildExits? || step.WaitExpires? || step.JoinGivesUp? || step.Conclude?)
    ensures var s' := Apply(s, step);
            s'.readers == s.readers && s'.pipes == s.pipes && MainRank(s'.main) < MainRank(s.main)
  {
  }

  /** A reader's step lowers its own side of the rank and leaves the rest alone. */
  lemma ReaderStepLowersRank(s: State, step: Step)
    requires PipesEnded(s) && Enabled(s, step)
    requires !(step.ChildExits? || step.WaitExpires? || step.JoinGivesUp? || step.Conclude?)
    ensures var s' := Apply(s, step);
            && s'.readers.At(Other(step.side)) == s.readers.At(Other(step.side))
            && s'.pipes == s.pipes && s'.main == s.main
            && SideRank(s', step.side) < SideRank(s, step.side)
  {
    ReaderStepIsLocal(s, step);
    if step.Read? {
      assert Available(Apply(s, step), step.side) == Available(s, step.side) - step.size;
    } else {
      assert Available(Apply(s, step), step.side) == Available(s, step.side);
    }
  }

  lemma ReaderStepIsLocal(s: State, step: Step)
    requires PipesEnded(s) && Enabled(s, step)
    requires !(step.ChildExits? || step.WaitExpires? || step.JoinGivesUp? || step.Conclude?)
    ensures var s' := Apply(s, step);
            && s'.readers.At(Other(step.side)) == s.readers.At(Other(step.side))
            && s'.pipes == s.pipes && s'.main == s.main
  {
  }

  /** So every run from there is finite: it has at most Rank many steps. */
  lemma {:induction false} RunsAreBounded(s: State, steps: seq<Step>)
    requires Inv(s) && PipesEnded(s) && Legal(s, steps)
    ensures |steps| <= Rank(s)
    decreases |steps|
  {
    assert Available(s, Stdout) >= 0 && Available(s, Stderr) >= 0;
    if steps != [] {
      StepLowersRank(s, steps[0]);
      StepKeepsInv(s, steps[0]);
      RunsAreBounded(Apply(s, steps[0]), steps[1..]);
    }
  }

  /** The step a reader takes next when nothing goes wrong. */
  function NextStep(s: State, side: Side): Step {
    match s.readers.At(side).phase
    case Reading => if Available(s, side) > 0 then Read(side, 1) else ReadEof(side)
    case Holding(_) => Acquire(side)
    case Locked(_) => Measure(side)
    case Measured(_, _) => Extend(side)
    case Extended => Test(side)
    case Overflowed => SetExceeded(side)
    case Killing => Kill(side)
    case Failing => Record(side)
    case Finished => Conclude
  }

  /** No deadlock: while a reader is unfinished, it or the lock's owner can move without a failure. */
  lemma ReadersNeverDeadlock(s: State, side: Side)
    requires Inv(s) && PipesEnded(s) && s.readers.At(side).phase != Finished
    ensures Enabled(s, NextStep(s, side)) || Enabled(s, NextStep(s, Other(side)))
    ensures !Enabled(s, NextStep(s, side)) ==> s.lock == Some(Other(side))
  {
    if s.lock.Some? {
      assert s.lock.value == side || s.lock.value == Other(side);
    }
    assert SideInv(s, side) && SideInv(s, Other(side));
    assert |s.readers.At(side).consumed| <= |s.pipes.At(side).written|;
    assert s.pipes.At(side).ended;
  }
}
