/** gate13_download_artifact: download a wrapper, take its one member out, and give it its name without
    ever replacing what is there.  Other actors may create files at free names at any moment; every call
    may fail, or be interrupted before or after its effect. */
module Download {
  import opened Prelude

  datatype Name = Wrapper | Partial | Target

  /** A file by its identity; two names with one identity are two links to it. */
  datatype File = File(id: nat, bytes: seq<Byte>, mine: bool, regular: bool)

  datatype Outcome = Works | Fails | Interrupts(effect: bool)

  datatype Fault = Failure | Interrupt

  /** Before a call others may have created files; a read gives at most `size` bytes. */
  datatype Event = Event(arrivals: set<Name>, regular: bool, outcome: Outcome, size: nat)

  const CHUNK: nat := 1024 * 1024

  /** A call that works, with nobody else about. */
  const CALM := Event({}, false, Works, CHUNK)

  function FaultOf(o: Outcome): Option<Fault> {
    match o
    case Works => None
    case Fails => Some(Failure)
    case Interrupts(_) => Some(Interrupt)
  }

  predicate Done(o: Outcome) {
    o.Works? || (o.Interrupts? && o.effect)
  }

  /** What is there stays as it is; what has come is not ours. */
  ghost predicate Others(before: map<Name, File>, after: map<Name, File>) {
    && (forall n | n in before :: n in after && after[n] == before[n])
    && (forall n | n in after && n !in before :: !after[n].mine)
  }

  // ----- What the calls of a download did -----

  /** A call that makes a name, if the name is free. */
  datatype Making = Making(free: bool, outcome: Outcome) {
    predicate Returned() {
      free && outcome.Works?
    }

    predicate Took() {
      free && Done(outcome)
    }
  }

  predicate Made(call: Option<Making>) {
    call.Some? && call.value.Took()
  }

  predicate Took(call: Option<Outcome>) {
    call.Some? && Done(call.value)
  }

  predicate Broken(call: Option<Outcome>) {
    call.Some? && call.value.Interrupts?
  }

  /** The calls of _commit_no_replace that were made: lstat of the partial file, link, unlink of the
      partial name, sync of the directory, and the handler's lstat and unlink of the target. */
  datatype CommitCalls = CommitCalls(
    looked: Option<Outcome>,
    link: Option<Making>,
    drop: Option<Outcome>,
    sync: Option<Outcome>,
    check: Option<Outcome>,
    undo: Option<Outcome>)
  {
    /** The handler is entered after the link, by an error and not by an interrupt. */
    predicate Caught() {
      drop == Some(Fails) || sync == Some(Fails)
    }

    /** Which calls are made follows from how the earlier ones went. */
    predicate InOrder(posix: bool) {
      && (link.Some? <==> looked == Some(Works))
      && (drop.Some? <==> link.Some? && link.value.Returned())
      && (sync.Some? <==> posix && drop == Some(Works))
      && (check.Some? <==> Caught())
      && (undo.Some? <==> check == Some(Works))
    }

    predicate Returned(posix: bool) {
      && looked == Some(Works) && link.Some? && link.value.Returned()
      && drop == Some(Works) && (posix ==> sync == Some(Works))
    }

    predicate Interrupted() {
      || Broken(looked) || (link.Some? && link.value.outcome.Interrupts?)
      || Broken(drop) || Broken(sync) || Broken(check) || Broken(undo)
    }

    function Failures(): nat {
      (if looked == Some(Fails) then 1 else 0)
      + (if link.Some? && !link.value.Returned() then 1 else 0)
      + (if drop == Some(Fails) then 1 else 0)
      + (if sync == Some(Fails) then 1 else 0)
      + (if check == Some(Fails) then 1 else 0)
      + (if undo == Some(Fails) then 1 else 0)
    }

    predicate TargetLeft() {
      Made(link) && !Took(undo)
    }

    function Count(): nat {
      (if looked.Some? then 1 else 0) + (if link.Some? then 1 else 0) + (if drop.Some? then 1 else 0)
      + (if sync.Some? then 1 else 0) + (if check.Some? then 1 else 0) + (if undo.Some? then 1 else 0)
    }
  }

  const NO_COMMIT := CommitCalls(None, None, None, None, None, None)

  /** A commit that raises leaves the target exactly when the link was made and then: the link itself or
      a call right after it was interrupted, or one of those failed and the handler's lstat did not work
      or its unlink did not take effect. */
  lemma LeftAfterRaising(c: CommitCalls, posix: bool)
    requires c.InOrder(posix) && !c.Returned(posix)
    ensures c.TargetLeft() <==>
            || c.link == Some(Making(true, Interrupts(true)))
            || Broken(c.drop) || Broken(c.sync)
            || (c.Caught() && (c.check != Some(Works) || !Took(c.undo)))
  {
    if c.Caught() {
      assert Made(c.link);
    }
  }

  /** One failed call, none interrupted: as if nothing had been committed. */
  lemma OneFailureIsUndone(c: CommitCalls, posix: bool)
    requires c.InOrder(posix) && !c.Interrupted() && c.Failures() <= 1 && !c.Returned(posix)
    ensures !c.TargetLeft()
  {
    LeftAfterRaising(c, posix);
  }

  /** The calls of download that make or remove a name. */
  datatype Calls = Calls(
    wrapper: Option<Making>,
    partial: Option<Making>,
    removal: Option<Outcome>,
    commit: CommitCalls,
    lastWrapper: Option<Outcome>,
    lastPartial: Option<Outcome>)
  {
    predicate Begun(posix: bool) {
      && (partial.Some? ==> wrapper.Some? && wrapper.value.Returned())
      && (removal.Some? ==> partial.Some? && partial.value.Returned())
      && (commit.looked.Some? <==> removal == Some(Works))
      && commit.InOrder(posix)
    }

    predicate InOrder(posix: bool) {
      && Begun(posix)
      && (wrapper.Some? ==> lastWrapper.Some?)
      && (lastPartial.Some? <==> lastWrapper == Some(Works))
    }

    predicate Returned(posix: bool) {
      commit.Returned(posix) && lastWrapper == Some(Works) && lastPartial == Some(Works)
    }

    predicate WrapperLeft() {
      Made(wrapper) && !Took(removal) && !Took(lastWrapper)
    }

    predicate PartialLeft() {
      Made(partial) && !Took(commit.drop) && !Took(lastPartial)
    }

    predicate TargetLeft() {
      commit.TargetLeft()
    }
  }

  const NO_CALLS := Calls(None, None, None, NO_COMMIT, None, None)

  /** How the i-th call of all goes. */
  function OutcomeAt(script: seq<Event>, i: nat): Outcome {
    if i < |script| then script[i].outcome else Interrupts(false)
  }

  predicate NobodyAt(script: seq<Event>, i: nat) {
    i < |script| ==> script[i].arrivals == {}
  }

  /** What a call is. */
  datatype Op = Looks | Opens(name: Name) | Reads | Writes | Links | Removes(name: Name)

  /** This call was made at that place, and went so. */
  predicate Did(script: seq<Event>, made: seq<Op>, place: nat, op: Op, outcome: Outcome) {
    place < |made| && made[place] == op && outcome == OutcomeAt(script, place)
  }

  // ----- The directory -----

  class Disk {
    const script: seq<Event>
    var made: seq<Op>                // the calls made so far
    var dir: map<Name, File>
    var next: nat
    ghost var guests: seq<File>      // what others have put at the target

    constructor (dir: map<Name, File>, script: seq<Event>)
      requires forall n | n in dir :: dir[n].id == 0 && !dir[n].mine
      requires forall n, m | n in dir && m in dir :: dir[n] == dir[m]
      ensures this.dir == dir && this.script == script && made == [] && Valid()
    {
      this.script, made, this.dir, next, guests := script, [], dir, 1, [];
    }

    ghost predicate Valid()
      reads this`dir, this`next, this`guests
    {
      && (forall n | n in dir :: dir[n].id < next)
      && (forall n, m | n in dir && m in dir :: dir[n].id == dir[m].id ==> dir[n] == dir[m])
      && (forall g | g in guests :: Target in dir && dir[Target] == g && !g.mine)
    }

    /** How many calls have been made. */
    function Used(): nat
      reads this`made
    {
      |made|
    }

    ghost predicate Mine(n: Name)
      reads this`dir
    {
      n in dir && dir[n].mine
    }

    /** The next n calls work, with nobody else about. */
    ghost predicate Calm(n: nat)
      reads this`made
    {
      Used() + n <= |script| && forall i | Used() <= i < Used() + n :: script[i] == CALM
    }

    /** What has come is no link to anything that was there. */
    twostate predicate NewFiles()
      reads this`dir, this`next, this`guests, this`made
    {
      Booked() && old(next) <= next && forall n | n in dir && n !in old(dir) :: old(next) <= dir[n].id
    }

    /** The books only grow. */
    twostate predicate Booked()
      reads this`guests, this`made
    {
      old(guests) <= guests && old(made) <= made
    }

    method Arrive(n: Name, regular: bool)
      requires Valid()
      modifies this`dir, this`next, this`guests
      ensures Valid() && Others(old(dir), dir) && NewFiles() && dir.Keys == old(dir).Keys + {n}
    {
      if n !in dir {
        dir, next := dir[n := File(next, [], false, regular)], next + 1;
        if n == Target {
          guests := guests + [dir[n]];
        }
      }
    }

    method ArriveAll(arrivals: set<Name>, regular: bool)
      requires Valid()
      modifies this`dir, this`next, this`guests
      ensures Valid() && Others(old(dir), dir) && NewFiles()
      ensures arrivals == {} ==> dir == old(dir)
      ensures arrivals <= dir.Keys
    {
      if Wrapper in arrivals {
        Arrive(Wrapper, regular);
      }
      if Partial in arrivals {
        Arrive(Partial, regular);
      }
      if Target in arrivals {
        Arrive(Target, regular);
      }
      forall n | n in arrivals ensures n in dir {
        match n
        case Wrapper =>
        case Partial =>
        case Target =>
      }
    }

    /** Time passes until the next call, and how that call goes. */
    method Step(op: Op) returns (outcome: Outcome, size: nat)
      requires Valid()
      modifies this
      ensures Valid() && Others(old(dir), dir) && NewFiles()
      ensures outcome == OutcomeAt(script, old(Used())) && made == old(made) + [op]
      ensures outcome.Works? ==> old(Used()) < |script|
      ensures old(Used()) < |script| ==> size == script[old(Used())].size
      ensures NobodyAt(script, old(Used())) ==> dir == old(dir)
    {
      var place := Used();
      made := made + [op];
      if place >= |script| {
        return Interrupts(false), 0;
      }
      ArriveAll(script[place].arrivals, script[place].regular);
      outcome, size := script[place].outcome, script[place].size;
    }

    method AssertAbsent(n: Name) returns (raised: Option<Fault>)
      requires Valid()
      modifies this
      ensures Valid() && Others(old(dir), dir) && Booked()
      ensures raised.None? ==> n !in old(dir)
      ensures old(Calm(1)) && n !in old(dir) ==> raised.None? && Used() == old(Used()) + 1 && dir == old(dir)
    {
      var outcome, size := Step(Looks);
      raised := FaultOf(outcome);
      if raised.None? && n in dir {
        raised := Some(Failure);
      }
    }

    /** O_EXCL: a new file of ours at a free name, or nothing. */
    method OpenExclusive(n: Name) returns (raised: Option<Fault>, ghost call: Making)
      requires Valid()
      modifies this
      ensures Valid() && Apart(n)
      ensures raised.None? <==> call.Returned()
      ensures if call.Took() then Mine(n) && dir[n].bytes == [] && dir[n].regular && Alone(n) else Undisturbed(n)
      ensures n in old(dir) ==> !call.free
      ensures call.outcome == OutcomeAt(script, old(Used())) && made == old(made) + [Opens(n)]
      ensures old(Calm(1)) && n !in old(dir) ==> raised.None? && Still(n)
    {
      var outcome, size := Step(Opens(n));
      raised, call := FaultOf(outcome), Making(n !in dir, outcome);
      if n in dir {
        raised := if raised.None? then Some(Failure) else raised;
      } else if Done(outcome) {
        Create(n);
      }
    }

    method Create(n: Name)
      requires Valid() && n !in dir
      modifies this`dir, this`next
      ensures Valid() && Alone(n) && dir == old(dir)[n := File(old(next), [], true, true)] && next == old(next) + 1
    {
      dir, next := dir[n := File(next, [], true, true)], next + 1;
    }

    /** At this name nothing has gone or changed, and nothing of ours has come. */
    twostate predicate Undisturbed(m: Name)
      reads this`dir
    {
      && (m in old(dir) ==> m in dir && dir[m] == old(dir)[m])
      && (m in dir && m !in old(dir) ==> !dir[m].mine)
    }

    /** Only this name may have been touched by us. */
    twostate predicate Apart(n: Name)
      reads this`dir, this`guests, this`made
    {
      && Booked()
      && (n != Wrapper ==> Undisturbed(Wrapper))
      && (n != Partial ==> Undisturbed(Partial))
      && (n != Target ==> Undisturbed(Target))
    }

    /** Nothing has come or gone but at this name. */
    twostate predicate Still(n: Name)
      reads this`dir
    {
      && (n != Wrapper ==> (Wrapper in dir <==> Wrapper in old(dir)))
      && (n != Partial ==> (Partial in dir <==> Partial in old(dir)))
      && (n != Target ==> (Target in dir <==> Target in old(dir)))
    }

    /** No other name is a link to this file. */
    ghost predicate Alone(n: Name)
      reads this`dir
    {
      n in dir && forall m | m in dir && m != n :: dir[m].id != dir[n].id
    }

    /** Reading from a stream with that many bytes left: at least one byte while there are any. */
    method Read(left: nat, request: nat) returns (raised: Option<Fault>, given: nat)
      requires Valid() && 0 < request <= CHUNK
      modifies this
      ensures Valid() && Others(old(dir), dir) && NewFiles()
      ensures raised.None? ==> given <= left && given <= request && (given == 0 <==> left == 0)
      ensures made == old(made) + [Reads] && (raised.None? ==> old(Used()) < |script|)
      ensures old(Calm(1)) ==> raised.None? && Used() == old(Used()) + 1 && dir == old(dir)
      ensures old(Calm(1)) ==> given == if left < request then left else request
    {
      var outcome, size := Step(Reads);
      raised := FaultOf(outcome);
      given := if size == 0 then 1 else size;
      given := if given > request then request else given;
      given := if given > left then left else given;
    }

    method Append(n: Name, chunk: seq<Byte>)
      requires Valid() && Mine(n) && Alone(n)
      modifies this`dir
      ensures Valid() && Mine(n) && Alone(n) && Apart(n) && Still(n)
      ensures dir[n] == old(dir)[n].(bytes := old(dir)[n].bytes + chunk)
    {
      dir := dir[n := dir[n].(bytes := dir[n].bytes + chunk)];
    }

    /** Appending to an open file of ours, or nothing. */
    method Write(n: Name, chunk: seq<Byte>) returns (raised: Option<Fault>)
      requires Valid() && Mine(n) && Alone(n)
      modifies this
      ensures Valid() && Mine(n) && Alone(n) && Apart(n)
      ensures dir[n] == if raised.Some? then old(dir)[n] else old(dir)[n].(bytes := old(dir)[n].bytes + chunk)
      ensures old(Calm(1)) ==> raised.None? && Used() == old(Used()) + 1 && Still(n)
    {
      var outcome, size := Step(Writes);
      raised := FaultOf(outcome);
      if raised.None? {
        Append(n, chunk);
      }
    }

    /** _remove: gone, or was not there, or the error. */
    method Remove(n: Name) returns (raised: Option<Fault>, ghost outcome: Outcome)
      requires Valid() && (n == Target ==> Mine(Target))
      modifies this
      ensures Valid() && Apart(n)
      ensures raised == FaultOf(outcome)
      ensures if Done(outcome) then n !in dir else Undisturbed(n)
      ensures outcome == OutcomeAt(script, old(Used())) && made == old(made) + [Removes(n)]
      ensures old(Calm(1)) ==> Still(n)
    {
      var went, size := Step(Removes(n));
      raised, outcome := FaultOf(went), went;
      if Done(went) {
        dir := map m | m in dir && m != n :: dir[m];
      }
    }

    /** os.link: a second name for the partial file, never over an existing one. */
    method Link() returns (raised: Option<Fault>, ghost call: Making)
      requires Valid() && Partial in dir
      modifies this
      ensures Valid() && Apart(Target)
      ensures raised == if call.free || call.outcome.Interrupts? then FaultOf(call.outcome) else Some(Failure)
      ensures if call.Took() then Target in dir && dir[Target] == old(dir)[Partial] else Undisturbed(Target)
      ensures Target in old(dir) ==> !call.free
      ensures call.outcome == OutcomeAt(script, old(Used())) && made == old(made) + [Links]
      ensures NobodyAt(script, old(Used())) ==> call.free == (Target !in old(dir))
    {
      var outcome, size := Step(Links);
      raised, call := FaultOf(outcome), Making(Target !in dir, outcome);
      if Target in dir {
        raised := if raised.None? then Some(Failure) else raised;
      } else if Done(outcome) {
        dir := dir[Target := dir[Partial]];
      }
    }
  }

  // ----- Copying -----

  lemma TakeMore(source: seq<Byte>, total: nat, given: nat)
    requires total + given <= |source|
    ensures source[..total] + source[total..total + given] == source[..total + given]
  {
  }

  /** One turn of the loop: read at most one byte more than is still expected, refuse what is too much,
      and write the rest. */
  method CopyChunk(disk: Disk, n: Name, source: seq<Byte>, total: nat, expected: nat)
    returns (raised: Option<Fault>, given: nat, ghost faulted: bool)
    requires disk.Valid() && disk.Mine(n) && disk.Alone(n)
    requires total <= expected && total <= |source| && disk.dir[n].bytes == source[..total]
    modifies disk
    ensures disk.Valid() && disk.Apart(n) && disk.Mine(n) && disk.Alone(n)
    ensures disk.dir[n].regular == old(disk.dir[n]).regular
    ensures raised.None? ==> old(disk.Used()) < disk.Used() && old(disk.Used()) < |disk.script|
    ensures raised.None? ==>
              && total + given <= |source| && total + given <= expected && (given == 0 <==> total == |source|)
              && disk.dir[n].bytes == source[..total + given]
    ensures raised.Some? ==> disk.dir[n].bytes == source[..total]
    ensures raised.None? ==> !faulted
    ensures raised.Some? && !faulted ==> |source| > expected
    ensures old(disk.Calm(1)) && total == |source| ==>
              raised.None? && given == 0 && disk.Used() == old(disk.Used()) + 1 && disk.Still(n)
    ensures old(disk.Calm(2)) && total < |source| <= expected && |source| - total <= CHUNK ==>
              raised.None? && total + given == |source| && disk.Used() == old(disk.Used()) + 2 && disk.Still(n)
  {
    var request := if CHUNK < expected - total + 1 then CHUNK else expected - total + 1;
    raised, given := disk.Read(|source| - total, request);
    faulted := raised.Some?;
    if raised.Some? || given == 0 {
      return;
    }
    if total + given > expected {
      return Some(Failure), given, faulted;
    }
    raised := disk.Write(n, source[total..total + given]);
    faulted := raised.Some?;
    TakeMore(source, total, given);
  }

  /** _copy_exact: never more than expected is written, and it returns only when the source has exactly
      that many bytes, however short the reads; `faulted` says whether some call went wrong. */
  method CopyExact(disk: Disk, n: Name, source: seq<Byte>, expected: nat)
    returns (raised: Option<Fault>, ghost faulted: bool)
    requires disk.Valid() && disk.Mine(n) && disk.Alone(n) && disk.dir[n].bytes == []
    modifies disk
    ensures disk.Valid() && disk.Apart(n) && disk.Mine(n) && disk.Alone(n)
    ensures disk.dir[n].bytes <= source && |disk.dir[n].bytes| <= expected
    ensures disk.dir[n].regular == old(disk.dir[n]).regular
    ensures raised.None? ==> disk.dir[n].bytes == source
    ensures raised.None? <==> |source| == expected && !faulted
    ensures old(disk.Calm(4)) && 0 < |source| == expected <= CHUNK ==>
              raised.None? && disk.Used() == old(disk.Used()) + 4 && disk.Still(n)
  {
    var total: nat;
    raised, total, faulted := CopyAll(disk, n, source, expected);
    if raised.Some? {
      return;
    }
    if total != expected {
      return Some(Failure), false;
    }
    var flushed, ignored := disk.Step(Writes);
    raised := FaultOf(flushed);
    faulted := raised.Some?;
  }

  /** The loop of _copy_exact, until the source has ended. */
  method CopyAll(disk: Disk, n: Name, source: seq<Byte>, expected: nat)
    returns (raised: Option<Fault>, total: nat, ghost faulted: bool)
    requires disk.Valid() && disk.Mine(n) && disk.Alone(n) && disk.dir[n].bytes == []
    modifies disk
    ensures disk.Valid() && disk.Apart(n) && disk.Mine(n) && disk.Alone(n)
    ensures disk.dir[n].bytes <= source && |disk.dir[n].bytes| <= expected
    ensures disk.dir[n].regular == old(disk.dir[n]).regular
    ensures raised.None? ==> disk.dir[n].bytes == source && total == |source| <= expected && !faulted
    ensures raised.Some? && !faulted ==> |source| > expected
    ensures old(disk.Calm(3)) && 0 < |source| == expected <= CHUNK ==>
              raised.None? && disk.Used() == old(disk.Used()) + 3 && disk.Still(n)
  {
    var given: nat := 1;
    total, faulted := 0, false;
    while given != 0
      invariant disk.Valid() && disk.Apart(n) && disk.Mine(n) && disk.Alone(n)
      invariant total <= expected && total <= |source| && disk.dir[n].bytes == source[..total]
      invariant disk.dir[n].regular == old(disk.dir[n]).regular
      invariant !faulted && (given == 0 ==> total == |source|)
      invariant old(disk.Calm(3)) && 0 < |source| == expected <= CHUNK ==>
                  && disk.Still(n) && (total == 0 || total == |source|)
                  && disk.Used() == old(disk.Used()) + (if given == 0 then 3 else if total == 0 then 0 else 2)
      decreases |disk.script| - disk.Used()
    {
      raised, given, faulted := CopyChunk(disk, n, source, total, expected);
      if raised.Some? {
        return;
      }
      total := total + given;
    }
    raised := None;
    assert source[..total] == source;
  }

  // ----- Committing -----

  /** What the calls of a commit were. */
  function CommitOps(c: CommitCalls): seq<Op> {
    (if c.looked.Some? then [Looks] else []) + LinkOps(c)
  }

  function LinkOps(c: CommitCalls): seq<Op> {
    (if c.link.Some? then [Links] else []) + HandlerOps(c)
  }

  function HandlerOps(c: CommitCalls): seq<Op> {
    DropOps(c) + (if c.check.Some? then [Looks] else []) + (if c.undo.Some? then [Removes(Target)] else [])
  }

  function DropOps(c: CommitCalls): seq<Op> {
    (if c.drop.Some? then [Removes(Partial)] else []) + (if c.sync.Some? then [Writes] else [])
  }

  /** These are the calls from the script's event `start` on. */
  predicate FromScript(c: CommitCalls, script: seq<Event>, start: nat) {
    && (c.looked.Some? ==> c.looked.value == OutcomeAt(script, start))
    && (c.link.Some? ==> c.link.value.outcome == OutcomeAt(script, start + 1))
    && HandlerFromScript(c, script, start + 2)
  }

  predicate HandlerFromScript(c: CommitCalls, script: seq<Event>, start: nat) {
    var handler := if c.sync.Some? then start + 2 else start + 1;
    && (c.drop.Some? ==> c.drop.value == OutcomeAt(script, start))
    && (c.sync.Some? ==> c.sync.value == OutcomeAt(script, start + 1))
    && (c.check.Some? ==> c.check.value == OutcomeAt(script, handler))
    && (c.undo.Some? ==> c.undo.value == OutcomeAt(script, handler + 1))
  }

  /** _commit_no_replace: a second link under the target's name, then the partial name goes.  Whether it
      raises, and what it leaves, by the calls that were made. */
  method Commit(disk: Disk, posix: bool) returns (raised: Option<Fault>, ghost calls: CommitCalls)
    requires disk.Valid() && !disk.Mine(Target)
    requires disk.Mine(Partial) && disk.dir[Partial].regular
    modifies disk
    ensures disk.Valid() && disk.Booked()
    ensures disk.Undisturbed(Wrapper)
    ensures disk.Mine(Target) ==> disk.dir[Target] == old(disk.dir[Partial])
    ensures calls.InOrder(posix) && calls.looked.Some?
    ensures raised.None? <==> calls.Returned(posix)
    ensures raised == Some(Interrupt) <==> calls.Interrupted()
    ensures disk.Mine(Target) <==> calls.TargetLeft()
    ensures disk.Mine(Partial) <==> !Took(calls.drop)
    // The calls are the next ones of the script, and the link's name is free if nobody came.
    ensures FromScript(calls, disk.script, old(disk.Used())) && disk.made == old(disk.made) + CommitOps(calls)
    ensures old(disk.Calm(1)) && Target !in old(disk.dir) && calls.link.Some?
            && NobodyAt(disk.script, old(disk.Used()) + 1) ==>
              calls.link.value.free
  {
    var looked, ignored := disk.Step(Looks);
    calls := NO_COMMIT.(looked := Some(looked));
    if !looked.Works? {
      return FaultOf(looked), calls;
    }
    raised, calls := LinkAndDrop(disk, posix);
  }

  /** The partial file is there and plain: the link, and what follows it. */
  method LinkAndDrop(disk: Disk, posix: bool) returns (raised: Option<Fault>, ghost calls: CommitCalls)
    requires disk.Valid() && !disk.Mine(Target)
    requires disk.Mine(Partial) && disk.dir[Partial].regular
    modifies disk
    ensures disk.Valid() && disk.Booked() && disk.Undisturbed(Wrapper)
    ensures disk.Mine(Target) ==> disk.dir[Target] == old(disk.dir[Partial])
    ensures calls.InOrder(posix) && calls.looked == Some(Works) && calls.link.Some?
    ensures raised.None? <==> calls.Returned(posix)
    ensures raised == Some(Interrupt) <==> calls.Interrupted()
    ensures disk.Mine(Target) <==> calls.TargetLeft()
    ensures disk.Mine(Partial) <==> !Took(calls.drop)
    ensures calls.link.value.outcome == OutcomeAt(disk.script, old(disk.Used()))
    ensures HandlerFromScript(calls, disk.script, old(disk.Used()) + 1)
    ensures disk.made == old(disk.made) + LinkOps(calls)
    ensures NobodyAt(disk.script, old(disk.Used())) ==> calls.link.value.free == (Target !in old(disk.dir))
  {
    var identity := disk.dir[Partial].id;
    ghost var link;
    raised, link := disk.Link();
    calls := NO_COMMIT.(looked := Some(Works), link := Some(link));
    if raised.None? {
      raised, calls := DropPartial(disk, identity, posix, calls);
    }
  }

  /** The link is made: the partial name goes, the directory is synced, or the link is undone. */
  method DropPartial(disk: Disk, identity: nat, posix: bool, ghost before: CommitCalls)
    returns (raised: Option<Fault>, ghost calls: CommitCalls)
    requires disk.Valid() && disk.Mine(Target) && disk.dir[Target].id == identity && disk.Mine(Partial)
    requires before == NO_COMMIT.(looked := Some(Works), link := Some(Making(true, Works)))
    modifies disk
    ensures disk.Valid() && disk.Booked() && disk.Undisturbed(Wrapper)
    ensures disk.Mine(Target) ==> disk.dir[Target] == old(disk.dir[Target])
    ensures calls.looked == before.looked && calls.link == before.link && calls.InOrder(posix)
    ensures raised.None? <==> calls.Returned(posix)
    ensures raised == Some(Interrupt) <==> calls.Interrupted()
    ensures disk.Mine(Target) <==> calls.TargetLeft()
    ensures disk.Mine(Partial) <==> !Took(calls.drop)
    ensures HandlerFromScript(calls, disk.script, old(disk.Used()))
    ensures disk.made == old(disk.made) + HandlerOps(calls)
  {
    ghost var drop, sync;
    raised, drop, sync := DropAndSync(disk, posix);
    calls := before.(drop := Some(drop), sync := sync);
    if raised == Some(Failure) {
      ghost var check, undo;
      raised, check, undo := Undo(disk, identity);
      calls := calls.(check := Some(check), undo := undo);
    }
  }

  method DropAndSync(disk: Disk, posix: bool)
    returns (raised: Option<Fault>, ghost drop: Outcome, ghost sync: Option<Outcome>)
    requires disk.Valid() && disk.Mine(Target) && disk.Mine(Partial)
    modifies disk
    ensures disk.Valid() && disk.Apart(Partial)
    ensures disk.Mine(Partial) <==> !Done(drop)
    ensures sync.Some? <==> posix && drop.Works?
    ensures raised == if sync.Some? then FaultOf(sync.value) else FaultOf(drop)
    ensures drop == OutcomeAt(disk.script, old(disk.Used()))
    ensures sync.Some? ==> sync.value == OutcomeAt(disk.script, old(disk.Used()) + 1)
    ensures disk.made == old(disk.made) + [Removes(Partial)] + if sync.Some? then [Writes] else []
  {
    sync := None;
    raised, drop := disk.Remove(Partial);
    if raised.None? && posix {
      var synced, size := disk.Step(Writes);
      raised, sync := FaultOf(synced), Some(synced);
    }
  }

  /** The exception handler: remove the link if it is still the same file, and raise. */
  method Undo(disk: Disk, identity: nat)
    returns (raised: Option<Fault>, ghost check: Outcome, ghost undo: Option<Outcome>)
    requires disk.Valid() && disk.Mine(Target) && disk.dir[Target].id == identity
    modifies disk
    ensures disk.Valid() && disk.Apart(Target)
    ensures raised == if check.Interrupts? || Broken(undo) then Some(Interrupt) else Some(Failure)
    ensures undo.Some? <==> check.Works?
    ensures if Took(undo) then Target !in disk.dir else disk.Undisturbed(Target)
    ensures check == OutcomeAt(disk.script, old(disk.Used()))
    ensures undo.Some? ==> undo.value == OutcomeAt(disk.script, old(disk.Used()) + 1)
    ensures disk.made == old(disk.made) + [Looks] + if undo.Some? then [Removes(Target)] else []
  {
    var looked, size := disk.Step(Looks);
    check, undo, raised := looked, None, Some(Failure);
    if looked.Interrupts? {
      raised := Some(Interrupt);
    }
    if !looked.Works? || disk.dir[Target].id != identity {
      return;
    }
    var failed;
    ghost var outcome;
    failed, outcome := disk.Remove(Target);
    undo := Some(outcome);
    if failed == Some(Interrupt) {
      raised := failed;
    }
  }

  // ----- The whole download -----

  /** What the configuration declares, and what is inside a wrapper. */
  datatype Config = Config(
    wrapperBytes: nat,
    archiveBytes: nat,
    archiveDigest: nat,
    digest: seq<Byte> -> nat,
    member: seq<Byte> -> Option<seq<Byte>>)

  predicate Declared(c: Config, bytes: seq<Byte>) {
    |bytes| == c.archiveBytes && c.digest(bytes) == c.archiveDigest
  }

  /** The response is the declared wrapper, its one member the declared archive, each read at one go. */
  predicate Sound(c: Config, body: seq<Byte>) {
    && 0 < |body| == c.wrapperBytes <= CHUNK
    && c.member(body).Some? && Declared(c, c.member(body).value) && 0 < |c.member(body).value| <= CHUNK
  }

  /** _download_wrapper: check the response, then copy its body into a new file. */
  method FetchWrapper(disk: Disk, body: seq<Byte>, c: Config)
    returns (raised: Option<Fault>, ghost wrapper: Option<Making>)
    requires disk.Valid() && !disk.Mine(Wrapper)
    modifies disk
    ensures disk.Valid() && disk.Apart(Wrapper)
    ensures raised.None? ==> wrapper.Some? && wrapper.value.Returned()
    ensures disk.Mine(Wrapper) <==> Made(wrapper)
    ensures wrapper.Some? ==> Did(disk.script, disk.made, old(disk.Used()) + 1, Opens(Wrapper), wrapper.value.outcome)
    ensures raised.None? ==> disk.Mine(Wrapper) && disk.dir[Wrapper].bytes == body && |body| == c.wrapperBytes
    ensures old(disk.Calm(6)) && Wrapper !in old(disk.dir) && Sound(c, body) ==>
              raised.None? && disk.Used() == old(disk.Used()) + 6 && disk.Still(Wrapper)
  {
    wrapper := None;
    var answered, ignored := disk.Step(Reads);
    if !answered.Works? {
      return FaultOf(answered), wrapper;
    }
    ghost var call;
    raised, call := disk.OpenExclusive(Wrapper);
    wrapper := Some(call);
    if raised.Some? {
      return;
    }
    ghost var faulted;
    raised, faulted := CopyExact(disk, Wrapper, body, c.wrapperBytes);
  }

  /** _extract_inner_archive. */
  method ExtractMember(disk: Disk, c: Config) returns (raised: Option<Fault>, ghost partial: Option<Making>)
    requires disk.Valid() && disk.Mine(Wrapper) && !disk.Mine(Partial)
    modifies disk
    ensures disk.Valid() && disk.Apart(Partial)
    ensures raised.None? ==> partial.Some? && partial.value.Returned()
    ensures disk.Mine(Partial) <==> Made(partial)
    ensures partial.Some? ==> Did(disk.script, disk.made, old(disk.Used()) + 1, Opens(Partial), partial.value.outcome)
    ensures raised.None? ==> disk.Mine(Partial) && disk.dir[Partial].regular && Declared(c, disk.dir[Partial].bytes)
    ensures old(disk.Calm(6)) && Partial !in old(disk.dir) && Sound(c, old(disk.dir[Wrapper].bytes)) ==>
              raised.None? && disk.Used() == old(disk.Used()) + 6 && disk.Still(Partial)
  {
    partial := None;
    var access, ignored := disk.Step(Reads);
    if !access.Works? {
      return FaultOf(access), partial;
    }
    var member := c.member(disk.dir[Wrapper].bytes);
    if member.None? {
      return Some(Failure), partial;
    }
    ghost var call;
    raised, call := disk.OpenExclusive(Partial);
    partial := Some(call);
    if raised.Some? {
      return;
    }
    ghost var faulted;
    raised, faulted := CopyExact(disk, Partial, member.value, c.archiveBytes);
    if raised.None? && c.digest(disk.dir[Partial].bytes) != c.archiveDigest {
      raised := Some(Failure);
    }
  }

  /** Where these calls are among all that were made; the commit's and the last removals' begin there. */
  datatype Places = Places(wrapper: nat, partial: nat, removal: nat, commit: nat, last: nat)

  const NO_PLACES := Places(0, 0, 0, 0, 0)

  predicate Obtained(script: seq<Event>, made: seq<Op>, calls: Calls, places: Places) {
    && (calls.wrapper.Some? ==> Did(script, made, places.wrapper, Opens(Wrapper), calls.wrapper.value.outcome))
    && (calls.partial.Some? ==> Did(script, made, places.partial, Opens(Partial), calls.partial.value.outcome))
    && (calls.removal.Some? ==> Did(script, made, places.removal, Removes(Wrapper), calls.removal.value))
  }

  predicate Committed(script: seq<Event>, made: seq<Op>, calls: Calls, places: Places, end: nat) {
    calls.commit.looked.Some? ==>
      && places.commit <= end <= |made| && made[places.commit..end] == CommitOps(calls.commit)
      && FromScript(calls.commit, script, places.commit)
  }

  predicate LastlyRemoved(script: seq<Event>, made: seq<Op>, calls: Calls, start: nat) {
    calls.lastWrapper.Some? ==>
      && Did(script, made, start, Removes(Wrapper), calls.lastWrapper.value)
      && (if calls.lastPartial.Some? then
            |made| == start + 2 && Did(script, made, start + 1, Removes(Partial), calls.lastPartial.value)
          else |made| == start + 1)
  }

  /** More calls leave the earlier ones where they are. */
  lemma StaysInPlace(
    script: seq<Event>, made: seq<Op>, grown: seq<Op>, before: Calls, after: Calls, places: Places)
    requires made <= grown
    requires after == before.(lastWrapper := after.lastWrapper, lastPartial := after.lastPartial)
    requires Obtained(script, made, before, places) && Committed(script, made, before, places, |made|)
    ensures Obtained(script, grown, after, places) && Committed(script, grown, after, places, |made|)
  {
    if after.commit.looked.Some? {
      assert grown[places.commit..|made|] == made[places.commit..];
    }
  }

  /** The try block. */
  method Attempt(disk: Disk, body: seq<Byte>, c: Config, posix: bool)
    returns (raised: Option<Fault>, ghost calls: Calls, ghost places: Places)
    requires disk.Valid() && !disk.Mine(Wrapper) && !disk.Mine(Partial) && !disk.Mine(Target)
    modifies disk
    ensures disk.Valid() && disk.Booked()
    ensures Obtained(disk.script, disk.made, calls, places)
              && Committed(disk.script, disk.made, calls, places, disk.Used())
    ensures calls.lastWrapper.None? && calls.lastPartial.None?
    ensures calls.Begun(posix)
    ensures raised.None? <==> calls.commit.Returned(posix)
    ensures disk.Mine(Wrapper) <==> calls.WrapperLeft()
    ensures disk.Mine(Partial) <==> calls.PartialLeft()
    ensures disk.Mine(Target) <==> calls.TargetLeft()
    ensures disk.Mine(Target) ==> Declared(c, disk.dir[Target].bytes)
    ensures old(disk.Calm(14)) && old(disk.dir) == map[] && Sound(c, body) ==>
              && calls.commit.looked.Some? && FromScript(calls.commit, disk.script, old(disk.Used()) + 13)
              && disk.Used() == old(disk.Used()) + 13 + calls.commit.Count()
              && (calls.commit.link.Some? && NobodyAt(disk.script, old(disk.Used()) + 14) ==>
                    calls.commit.link.value.free)
  {
    ghost var commit;
    raised, calls, places := Obtain(disk, body, c);
    places := places.(commit := disk.Used());
    if raised.None? {
      raised, commit := Commit(disk, posix);
      calls := calls.(commit := commit);
    }
  }

  /** The try block up to the commit. */
  method Obtain(disk: Disk, body: seq<Byte>, c: Config)
    returns (raised: Option<Fault>, ghost calls: Calls, ghost places: Places)
    requires disk.Valid() && !disk.Mine(Wrapper) && !disk.Mine(Partial) && !disk.Mine(Target)
    modifies disk
    ensures disk.Valid() && disk.Booked() && !disk.Mine(Target) && Obtained(disk.script, disk.made, calls, places)
    ensures calls.lastWrapper.None? && calls.lastPartial.None? && calls.commit == NO_COMMIT
    ensures calls.partial.Some? ==> calls.wrapper.Some? && calls.wrapper.value.Returned()
    ensures calls.removal.Some? ==> calls.partial.Some? && calls.partial.value.Returned()
    ensures raised.None? <==> calls.removal == Some(Works)
    ensures disk.Mine(Wrapper) <==> calls.WrapperLeft()
    ensures disk.Mine(Partial) <==> calls.PartialLeft()
    ensures raised.None? ==> disk.Mine(Partial) && disk.dir[Partial].regular && Declared(c, disk.dir[Partial].bytes)
    ensures old(disk.Calm(13)) && old(disk.dir) == map[] && Sound(c, body) ==>
              raised.None? && disk.Used() == old(disk.Used()) + 13 && Target !in disk.dir
  {
    ghost var wrapper, partial, removal;
    places := NO_PLACES.(wrapper := disk.Used() + 1);
    raised, wrapper := FetchWrapper(disk, body, c);
    calls := NO_CALLS.(wrapper := wrapper);
    if raised.Some? {
      return;
    }
    places := places.(partial := disk.Used() + 1);
    raised, partial := ExtractMember(disk, c);
    calls := calls.(partial := partial);
    if raised.Some? {
      return;
    }
    places := places.(removal := disk.Used());
    raised, removal := disk.Remove(Wrapper);
    calls := calls.(removal := Some(removal));
  }

  method AllAbsent(disk: Disk) returns (raised: Option<Fault>)
    requires disk.Valid()
    modifies disk
    ensures disk.Valid() && Others(old(disk.dir), disk.dir) && disk.Booked()
    ensures old(disk.dir) != map[] ==> raised.Some?
    ensures old(disk.Calm(3)) && old(disk.dir) == map[] ==>
              raised.None? && disk.Used() == old(disk.Used()) + 3 && disk.dir == map[]
  {
    raised := disk.AssertAbsent(Wrapper);
    if raised.Some? {
      return;
    }
    raised := disk.AssertAbsent(Partial);
    if raised.Some? {
      return;
    }
    raised := disk.AssertAbsent(Target);
    if raised.Some? {
      return;
    }
    forall n: Name ensures n !in old(disk.dir) {
      match n
      case Wrapper =>
      case Partial =>
      case Target =>
    }
  }

  /** The checks before the try block, and the signed URL. */
  method Prepare(disk: Disk) returns (raised: Option<Fault>)
    requires disk.Valid()
    modifies disk
    ensures disk.Valid() && Others(old(disk.dir), disk.dir) && disk.Booked()
    ensures old(disk.dir) != map[] ==> raised.Some?
    ensures old(disk.Calm(4)) && old(disk.dir) == map[] ==>
              raised.None? && disk.Used() == old(disk.Used()) + 4 && disk.dir == map[]
  {
    raised := AllAbsent(disk);
    if raised.None? {
      var url, ignored := disk.Step(Reads);
      raised := FaultOf(url);
    }
  }

  /** The finally block: both partial names go, whatever happened. */
  method LastRemovals(disk: Disk, ghost before: Calls) returns (raised: Option<Fault>, ghost calls: Calls)
    requires disk.Valid() && before.lastWrapper.None? && before.lastPartial.None?
    requires disk.Mine(Wrapper) <==> before.WrapperLeft()
    requires disk.Mine(Partial) <==> before.PartialLeft()
    modifies disk
    ensures disk.Valid() && disk.Booked() && disk.Undisturbed(Target)
    ensures LastlyRemoved(disk.script, disk.made, calls, old(disk.Used()))
    ensures calls == before.(lastWrapper := calls.lastWrapper, lastPartial := calls.lastPartial)
    ensures calls.lastWrapper == Some(OutcomeAt(disk.script, old(disk.Used())))
    ensures calls.lastPartial == if calls.lastWrapper != Some(Works) then None
                                 else Some(OutcomeAt(disk.script, old(disk.Used()) + 1))
    ensures raised.None? <==> calls.lastPartial == Some(Works)
    ensures disk.Mine(Wrapper) <==> calls.WrapperLeft()
    ensures disk.Mine(Partial) <==> calls.PartialLeft()
  {
    ghost var outcome;
    raised, outcome := disk.Remove(Wrapper);
    calls := before.(lastWrapper := Some(outcome));
    if raised.None? {
      raised, outcome := disk.Remove(Partial);
      calls := calls.(lastPartial := Some(outcome));
    }
  }

  /** download.  Either it returns, and the target is a file of ours with exactly the declared bytes and
      neither partial name holds anything of ours; or it raises.  On every exit what is left of ours under
      each of the three names is what the calls say: the wrapper if it was made and neither removal took
      effect, the partial file likewise, the target if the link was made and not undone.  Files that were
      there before make it fail without touching them, and whatever others put at the target stays. */
  method Download(disk: Disk, body: seq<Byte>, c: Config, posix: bool)
    returns (raised: Option<Fault>, ghost calls: Calls, ghost places: Places)
    requires disk.Valid() && !disk.Mine(Wrapper) && !disk.Mine(Partial) && !disk.Mine(Target)
    modifies disk
    ensures disk.Valid() && disk.Booked()
    // These calls were made, at their places, and went as the script has it.
    ensures Obtained(disk.script, disk.made, calls, places)
              && Committed(disk.script, disk.made, calls, places, places.last)
    ensures LastlyRemoved(disk.script, disk.made, calls, places.last)
    ensures calls.InOrder(posix)
    ensures raised.None? <==> calls.Returned(posix)
    ensures disk.Mine(Wrapper) <==> calls.WrapperLeft()
    ensures disk.Mine(Partial) <==> calls.PartialLeft()
    ensures disk.Mine(Target) <==> calls.TargetLeft()
    ensures disk.Mine(Target) ==> Declared(c, disk.dir[Target].bytes)
    ensures raised.None? ==> disk.Mine(Target) && !disk.Mine(Wrapper) && !disk.Mine(Partial)
    ensures old(disk.dir) != map[] ==> raised.Some? && Others(old(disk.dir), disk.dir)
    ensures forall g | g in disk.guests :: Target in disk.dir && disk.dir[Target] == g
    // When nothing stands in the way, the commit's calls are those from the script's 18th event on.
    ensures old(disk.Calm(18)) && old(disk.dir) == map[] && Sound(c, body) ==>
              Reached(calls, disk.script, old(disk.Used()) + 17)
  {
    calls, places := NO_CALLS, NO_PLACES;
    raised := Prepare(disk);
    if raised.Some? {
      return;
    }
    raised, calls, places := TryAndRemove(disk, body, c, posix);
  }

  /** The try block and its finally. */
  method TryAndRemove(disk: Disk, body: seq<Byte>, c: Config, posix: bool)
    returns (raised: Option<Fault>, ghost calls: Calls, ghost places: Places)
    requires disk.Valid() && !disk.Mine(Wrapper) && !disk.Mine(Partial) && !disk.Mine(Target)
    modifies disk
    ensures disk.Valid() && disk.Booked()
    ensures Obtained(disk.script, disk.made, calls, places)
              && Committed(disk.script, disk.made, calls, places, places.last)
    ensures LastlyRemoved(disk.script, disk.made, calls, places.last)
    ensures calls.InOrder(posix)
    ensures raised.None? <==> calls.Returned(posix)
    ensures disk.Mine(Wrapper) <==> calls.WrapperLeft()
    ensures disk.Mine(Partial) <==> calls.PartialLeft()
    ensures disk.Mine(Target) <==> calls.TargetLeft()
    ensures disk.Mine(Target) ==> Declared(c, disk.dir[Target].bytes)
    ensures old(disk.Calm(14)) && old(disk.dir) == map[] && Sound(c, body) ==>
              Reached(calls, disk.script, old(disk.Used()) + 13)
  {
    raised, calls, places := Attempt(disk, body, c, posix);
    places := places.(last := disk.Used());
    ghost var made, before := disk.made, calls;
    var failed;
    failed, calls := LastRemovals(disk, calls);
    StaysInPlace(disk.script, made, disk.made, before, calls, places);
    if failed.Some? {
      raised := failed;
    }
  }

  /** The commit was reached, its calls begin at the script's event `start`, and the last removals follow. */
  predicate Reached(calls: Calls, script: seq<Event>, start: nat) {
    var last := start + calls.commit.Count();
    && calls.commit.looked.Some? && FromScript(calls.commit, script, start)
    && (calls.commit.link.Some? && NobodyAt(script, start + 1) ==> calls.commit.link.value.free)
    && calls.lastWrapper == Some(OutcomeAt(script, last))
    && (calls.lastPartial.Some? ==> calls.lastPartial.value == OutcomeAt(script, last + 1))
  }

  /** The rest of a run whose first 18 calls work. */
  function RunOf(rest: seq<Outcome>): (script: seq<Event>)
    ensures |script| == 18 + |rest|
    ensures forall i | 0 <= i < 18 :: script[i] == CALM
    ensures forall i | 0 <= i < |rest| :: script[18 + i] == CALM.(outcome := rest[i])
  {
    seq(18, i => CALM) + seq(|rest|, i requires 0 <= i < |rest| => CALM.(outcome := rest[i]))
  }

  /** Two runs on an empty disk that raise and leave the target, with every removal that is tried working.
      The link takes effect and is interrupted before it returns; or the sync of the directory fails, and
      then the handler's lstat, no call being interrupted. */
  method TargetLeftBehind(body: seq<Byte>, c: Config, interrupt: bool) returns (disk: Disk, raised: Option<Fault>)
    requires Sound(c, body)
    ensures raised.Some?
    ensures disk.Mine(Target) && !disk.Mine(Partial) && !disk.Mine(Wrapper)
  {
    var rest := if interrupt then [Interrupts(true), Works, Works] else [Works, Works, Fails, Fails, Works, Works];
    disk := new Disk(map[], RunOf(rest));
    ghost var calls, places;
    raised, calls, places := Download(disk, body, c, true);
  }
}
