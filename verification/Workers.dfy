/**
 The receive workers of a server connection: goroutines that take turns to read a frame under one
 mutex, hand the read role on and handle what they read (handleRequest, readFrameLocked and
 shutdownRecv in server/conn.go).

 Steps are single atomic operations of one worker. Reading a frame and deciding whether to spawn a
 replacement, both done under the mutex, are one step; starting the replacement is another.
 */
module Workers {
  import opened Common
  import opened Totals

  type Worker = nat

  /** What kind of frame was read, as far as the loop cares. */
  datatype Kind = Version | Undecodable | Served

  datatype Phase =
    | Top                            // about to bump recvIdle; also a worker just spawned
    | Parked                         // counted in recvIdle, waiting for recvMu
    | Locked                         // holds recvMu, still counted in recvIdle
    | Checking                       // holds recvMu, about to look at recvShutdown
    | Reading                        // holds recvMu, reading a frame
    | Got(kind: Kind, spawn: bool)   // holds recvMu, frame read
    | Versioning                     // holds recvMu across the re-negotiation
    | Handling                       // off the lock, serving what it read
    | Dying                          // off the lock, about to shut the receive path down
    | DyingLocked                    // the same, holding recvMu
    | Leaving                        // out of the loop, still counted
    | Gone

  datatype State = State(
    phase: map<Worker, Phase>,
    holder: Option<Worker>,
    recvIdle: int,
    workerCount: int,
    recvShutdown: bool)

  const INIT := State(map[0 := Top], None, 0, 1, false)

  datatype Act =
    | Park | Lock | Unpark | Check
    | Read(kind: Kind) | ReadFails
    | Spawn(worker: Worker) | Proceed | VersionDone
    | Finish | Duplicate
    | DieLock | DieUnlock | Exit

  datatype Step = Step(w: Worker, act: Act)

  predicate HoldsLock(p: Phase) {
    p.Locked? || p.Checking? || p.Reading? || p.Got? || p.Versioning? || p.DyingLocked?
  }

  predicate IsParked(p: Phase) { p.Parked? || p.Locked? }

  predicate Enabled(s: State, step: Step) {
    && step.w in s.phase
    && var p := s.phase[step.w];
       match step.act
       case Park => p.Top?
       case Lock => p.Parked? && s.holder.None?
       case Unpark => p.Locked?
       case Check => p.Checking?
       case Read(_) => p.Reading?
       case ReadFails => p.Reading?
       case Spawn(worker) => p.Got? && p.spawn && worker !in s.phase
       case Proceed => p.Got? && !p.spawn
       case VersionDone => p.Versioning?
       case Finish => p.Handling?
       case Duplicate => p.Handling?
       case DieLock => p.Dying? && s.holder.None?
       case DieUnlock => p.DyingLocked?
       case Exit => p.Leaving?
  }

  /** readFrameLocked's decision, taken while holding recvMu. */
  predicate Spawns(s: State, kind: Kind, maxInflight: int) {
    !kind.Version? && s.recvIdle == 0 && s.workerCount < maxInflight
  }

  function After(s: State, step: Step, maxInflight: int): Phase
    requires Enabled(s, step)
  {
    match step.act
    case Park => Parked
    case Lock => Locked
    case Unpark => Checking
    case Check => if s.recvShutdown then Leaving else Reading
    case Read(kind) => Got(kind, Spawns(s, kind, maxInflight))
    case ReadFails => Leaving
    case Spawn(_) => Got(s.phase[step.w].kind, false)
    case Proceed =>
      var kind := s.phase[step.w].kind;
      if kind.Version? then Versioning else if kind.Undecodable? then Dying else Handling
    case VersionDone => Top
    case Finish => Top
    case Duplicate => Dying
    case DieLock => DyingLocked
    case DieUnlock => Leaving
    case Exit => Gone
  }

  function Apply(s: State, step: Step, maxInflight: int): State
    requires Enabled(s, step)
  {
    var after := After(s, step, maxInflight);
    var moved := s.phase[step.w := after];
    s.(phase := if step.act.Spawn? then moved[step.act.worker := Top] else moved,
       holder := if HoldsLock(after) then Some(step.w) else if HoldsLock(s.phase[step.w]) then None else s.holder,
       recvIdle := s.recvIdle + (if step.act.Park? then 1 else if step.act.Unpark? then -1 else 0),
       workerCount := s.workerCount + (if after.Got? && after.spawn then 1 else if step.act.Exit? then -1 else 0),
       recvShutdown := s.recvShutdown || step.act.ReadFails? || step.act.DieUnlock?)
  }

  ghost predicate Run(run: seq<State>, steps: seq<Step>, maxInflight: int) {
    && |run| == |steps| + 1
    && run[0] == INIT
    && forall i :: 0 <= i < |steps| ==>
         Enabled(run[i], steps[i]) && run[i + 1] == Apply(run[i], steps[i], maxInflight)
  }

  // ---------------------------------------------------------------- invariants

  function Parkers(phase: map<Worker, Phase>): set<Worker> {
    set w | w in phase && IsParked(phase[w])
  }

  function Living(phase: map<Worker, Phase>): set<Worker> {
    set w | w in phase && !phase[w].Gone?
  }

  /** A worker that is reading, will read again without waiting for a handler, or is ending the connection. */
  predicate Receiving(p: Phase) {
    || p.Top? || p.Parked? || p.Locked? || p.Checking? || p.Reading?
    || (p.Got? && (p.spawn || p.kind.Version? || p.kind.Undecodable?))
    || p.Versioning? || p.Dying? || p.DyingLocked?
  }

  ghost predicate HasReceiver(phase: map<Worker, Phase>) {
    exists w :: w in phase && Receiving(phase[w])
  }

  ghost predicate LockOk(phase: map<Worker, Phase>, holder: Option<Worker>) {
    forall w :: w in phase ==> (HoldsLock(phase[w]) <==> holder == Some(w))
  }

  /** A worker reserved by its parent is counted before it starts. */
  function Reserved(phase: map<Worker, Phase>, holder: Option<Worker>): int {
    if holder.Some? && holder.value in phase && phase[holder.value].Got? && phase[holder.value].spawn then 1 else 0
  }

  ghost predicate Inv(s: State, maxInflight: int) {
    && (s.holder.Some? ==> s.holder.value in s.phase)
    && LockOk(s.phase, s.holder)
    && s.recvIdle == |Parkers(s.phase)|
    && s.workerCount == |Living(s.phase)| + Reserved(s.phase, s.holder)
    && s.workerCount <= maxInflight
    && (!s.recvShutdown ==> forall w :: w in s.phase ==> !s.phase[w].Leaving? && !s.phase[w].Gone?)
    && (!s.recvShutdown ==> HasReceiver(s.phase) || s.workerCount == maxInflight)
  }

  lemma SizeWithout(ws: set<Worker>, w: Worker)
    ensures |ws| == |ws - {w}| + if w in ws then 1 else 0
  {
    if w !in ws {
      assert ws - {w} == ws;
    }
  }

  lemma MovedParkers(phase: map<Worker, Phase>, w: Worker, p: Phase)
    ensures |Parkers(phase[w := p])|
            == |Parkers(phase)| + (if IsParked(p) then 1 else 0) - (if w in phase && IsParked(phase[w]) then 1 else 0)
  {
    var before, after := Parkers(phase), Parkers(phase[w := p]);
    assert before - {w} == after - {w};
    SizeWithout(before, w);
    SizeWithout(after, w);
  }

  lemma MovedLiving(phase: map<Worker, Phase>, w: Worker, p: Phase)
    ensures |Living(phase[w := p])|
            == |Living(phase)| + (if p.Gone? then 0 else 1) - (if w in phase && !phase[w].Gone? then 1 else 0)
  {
    var before, after := Living(phase), Living(phase[w := p]);
    assert before - {w} == after - {w};
    SizeWithout(before, w);
    SizeWithout(after, w);
  }

  lemma StepKeepsLock(s: State, step: Step, maxInflight: int)
    requires Enabled(s, step) && LockOk(s.phase, s.holder) && (s.holder.Some? ==> s.holder.value in s.phase)
    ensures var s' := Apply(s, step, maxInflight);
            LockOk(s'.phase, s'.holder) && (s'.holder.Some? ==> s'.holder.value in s'.phase)
  {}

  lemma StepKeepsCounts(s: State, step: Step, maxInflight: int)
    requires Enabled(s, step) && Inv(s, maxInflight)
    ensures var s' := Apply(s, step, maxInflight);
            && s'.recvIdle == |Parkers(s'.phase)|
            && s'.workerCount == |Living(s'.phase)| + Reserved(s'.phase, s'.holder)
            && s'.workerCount <= maxInflight
  {
    var after := After(s, step, maxInflight);
    MovedParkers(s.phase, step.w, after);
    MovedLiving(s.phase, step.w, after);
    if step.act.Spawn? {
      MovedParkers(s.phase[step.w := after], step.act.worker, Top);
      MovedLiving(s.phase[step.w := after], step.act.worker, Top);
    }
  }

  /** A parked sibling is there whenever recvIdle is not zero. */
  lemma IdleMeansParked(phase: map<Worker, Phase>) returns (w: Worker)
    requires |Parkers(phase)| != 0
    ensures w in phase && IsParked(phase[w])
  {
    w :| w in Parkers(phase);
  }

  lemma StepKeepsReceiver(s: State, step: Step, maxInflight: int)
    requires Enabled(s, step) && Inv(s, maxInflight) && !Apply(s, step, maxInflight).recvShutdown
    ensures var s' := Apply(s, step, maxInflight); HasReceiver(s'.phase) || s'.workerCount == maxInflight
  {
    var s' := Apply(s, step, maxInflight);
    if Receiving(s'.phase[step.w]) {
    } else if step.act.Spawn? {
      assert Receiving(s'.phase[step.act.worker]);
    } else if step.act.Read? && s.recvIdle != 0 {
      var other := IdleMeansParked(s.phase);
      assert other != step.w && s'.phase[other] == s.phase[other];
    } else if !step.act.Read? && HasReceiver(s.phase) && !Receiving(s.phase[step.w]) {
      var w :| w in s.phase && Receiving(s.phase[w]);
      assert s'.phase[w] == s.phase[w];
    }
  }

  lemma {:induction false} RunKeepsInv(run: seq<State>, steps: seq<Step>, maxInflight: int, i: nat)
    requires Run(run, steps, maxInflight) && maxInflight >= 1 && i < |run|
    ensures Inv(run[i], maxInflight)
  {
    if i > 0 {
      RunKeepsInv(run, steps, maxInflight, i - 1);
      StepKeepsLock(run[i - 1], steps[i - 1], maxInflight);
      StepKeepsCounts(run[i - 1], steps[i - 1], maxInflight);
      if !run[i].recvShutdown {
        StepKeepsReceiver(run[i - 1], steps[i - 1], maxInflight);
      }
    } else {
      assert Parkers(INIT.phase) == {};
      assert Living(INIT.phase) == {0};
      assert Receiving(INIT.phase[0]);
    }
  }

  // ---------------------------------------------------------------- theorems

  /** The cap on workers is never exceeded, and at most one worker holds the receive lock. */
  lemma WorkersAreCapped(run: seq<State>, steps: seq<Step>, maxInflight: int, i: nat)
    requires Run(run, steps, maxInflight) && maxInflight >= 1 && i < |run|
    ensures |Living(run[i].phase)| <= maxInflight
    ensures forall v, w ::
              && v in run[i].phase && HoldsLock(run[i].phase[v])
              && w in run[i].phase && HoldsLock(run[i].phase[w])
              ==> v == w
  {
    RunKeepsInv(run, steps, maxInflight, i);
  }

  /**
   Until the receive path shuts down, some worker is reading, about to read, settling a Tversion or ending
   the connection; failing that, all maxInflight workers exist and every one of them is serving a request.
   */
  lemma ReceiveRoleIsNeverLost(run: seq<State>, steps: seq<Step>, maxInflight: int, i: nat)
    requires Run(run, steps, maxInflight) && maxInflight >= 1 && i < |run|
    requires !run[i].recvShutdown
    ensures HasReceiver(run[i].phase) ||
            (|Living(run[i].phase)| == maxInflight &&
             forall w :: w in run[i].phase ==> run[i].phase[w].Handling? || run[i].phase[w] == Got(Served, false))
  {
    RunKeepsInv(run, steps, maxInflight, i);
  }

  /** The receive role cannot get stuck: while it is held, some worker other than a handler can take a step. */
  lemma ReceiverCanStep(run: seq<State>, steps: seq<Step>, maxInflight: int, i: nat) returns (step: Step)
    requires Run(run, steps, maxInflight) && maxInflight >= 1 && i < |run|
    requires HasReceiver(run[i].phase)
    ensures Enabled(run[i], step) && !step.act.Finish? && !step.act.Duplicate? && !step.act.Exit?
  {
    RunKeepsInv(run, steps, maxInflight, i);
    var s := run[i];
    if s.holder.Some? {
      step := HolderStep(s, s.holder.value);
    } else {
      var w :| w in s.phase && Receiving(s.phase[w]);
      var p := s.phase[w];
      step := Step(w, if p.Top? then Park else if p.Parked? then Lock else DieLock);
    }
  }

  lemma NewWorker(phase: map<Worker, Phase>) returns (w: Worker)
    ensures w !in phase
  {
    w := Above(phase.Keys);
  }

  ghost function Above(ws: set<Worker>): (top: Worker)
    ensures forall w :: w in ws ==> w < top
  {
    if ws == {} then 0
    else
      var w :| w in ws;
      var top := Above(ws - {w});
      assert forall v :: v in ws ==> v == w || v in ws - {w};
      if top > w then top else w + 1
  }

  lemma HolderStep(s: State, w: Worker) returns (step: Step)
    requires w in s.phase && HoldsLock(s.phase[w])
    ensures step.w == w && Enabled(s, step) && !step.act.Finish? && !step.act.Duplicate? && !step.act.Exit?
  {
    var p := s.phase[w];
    var other := NewWorker(s.phase);
    step := Step(w,
                 if p.Locked? then Unpark
                 else if p.Checking? then Check
                 else if p.Reading? then ReadFails
                 else if p.Got? then (if p.spawn then Spawn(other) else Proceed)
                 else if p.Versioning? then VersionDone
                 else DieUnlock);
  }

  /** A replacement is started exactly when a request was read, nobody waits to read and the cap allows one more. */
  lemma SpawnsExactlyWhenNeeded(run: seq<State>, steps: seq<Step>, maxInflight: int, i: nat)
    requires Run(run, steps, maxInflight) && maxInflight >= 1 && i < |steps| && steps[i].act.Read?
    ensures var s, w, kind := run[i], steps[i].w, steps[i].act.kind;
            && w in run[i + 1].phase && run[i + 1].phase[w].Got? && run[i + 1].phase[w].kind == kind
            && (run[i + 1].phase[w].spawn <==>
                && !kind.Version? && |Living(s.phase)| < maxInflight
                && forall v :: v in s.phase ==> !IsParked(s.phase[v]))
  {
    RunKeepsInv(run, steps, maxInflight, i);
    var s := run[i];
    assert Reserved(s.phase, s.holder) == 0;
    if s.recvIdle != 0 {
      var v := IdleMeansParked(s.phase);
    } else {
      forall v | v in s.phase ensures !IsParked(s.phase[v]) {
        assert v !in Parkers(s.phase);
      }
    }
  }

  /** What a worker does with a Tversion it has read: it keeps the lock until the re-negotiation is over. */
  predicate Renegotiating(p: Phase) { (p.Got? && p.kind.Version?) || p.Versioning? }

  /** What becomes of a worker that read a frame it cannot decode, or a tag already in flight. */
  predicate Ending(p: Phase) {
    (p.Got? && p.kind.Undecodable?) || p.Dying? || p.DyingLocked? || p.Leaving? || p.Gone?
  }

  lemma StepKeepsFate(s: State, step: Step, maxInflight: int, w: Worker)
    requires Enabled(s, step) && w in s.phase
    ensures var s' := Apply(s, step, maxInflight);
            && w in s'.phase
            && (Ending(s.phase[w]) ==> Ending(s'.phase[w]))
            && (Renegotiating(s.phase[w]) && step != Step(w, VersionDone) ==> Renegotiating(s'.phase[w]))
  {
  }

  ghost predicate RenegotiatingAt(run: seq<State>, k: nat, w: Worker) {
    k < |run| && w in run[k].phase && Renegotiating(run[k].phase[w])
  }

  /** From reading a Tversion until it is settled, its worker holds the receive lock: nobody reads the next frame. */
  lemma RenegotiationHoldsTheLock(run: seq<State>, steps: seq<Step>, maxInflight: int, i: nat, k: nat)
    requires Run(run, steps, maxInflight) && maxInflight >= 1 && i < k < |run| && steps[i].act == Read(Version)
    requires forall j :: i < j < k ==> steps[j] != Step(steps[i].w, VersionDone)
    ensures run[k].holder == Some(steps[i].w)
    ensures forall v :: v in run[k].phase ==> !run[k].phase[v].Reading?
  {
    var w := steps[i].w;
    assert RenegotiatingAt(run, i + 1, w);
    for j := i + 1 to k
      invariant RenegotiatingAt(run, j, w)
    {
      StepKeepsFate(run[j], steps[j], maxInflight, w);
    }
    RunKeepsInv(run, steps, maxInflight, k);
  }

  ghost predicate EndingAt(run: seq<State>, k: nat, w: Worker) {
    k < |run| && w in run[k].phase && Ending(run[k].phase[w])
  }

  /**
   A frame that does not decode, or a tag already in flight, is fatal: its worker serves nothing any more, and by the
   time it has left the receive path is shut down.
   */
  lemma BadFrameEndsTheConnection(run: seq<State>, steps: seq<Step>, maxInflight: int, i: nat, k: nat)
    requires Run(run, steps, maxInflight) && maxInflight >= 1 && i < k < |run|
    requires steps[i].act == Read(Undecodable) || steps[i].act.Duplicate?
    ensures steps[i].w in run[k].phase && Ending(run[k].phase[steps[i].w])
    ensures run[k].phase[steps[i].w].Leaving? || run[k].phase[steps[i].w].Gone? ==> run[k].recvShutdown
  {
    var w := steps[i].w;
    assert EndingAt(run, i + 1, w);
    for j := i + 1 to k
      invariant EndingAt(run, j, w)
    {
      StepKeepsFate(run[j], steps[j], maxInflight, w);
    }
    RunKeepsInv(run, steps, maxInflight, k);
  }

  // ---------------------------------------------------------------- after the receive path has shut down

  predicate Receives(p: Phase) { p.Reading? || p.Got? || p.Versioning? }

  ghost predicate Shut(s: State) { s.recvShutdown && forall w :: w in s.phase ==> !Receives(s.phase[w]) }

  /** The worker that shuts the receive path down held the lock, so nobody else was receiving. */
  lemma StepKeepsShut(s: State, step: Step, maxInflight: int)
    requires Enabled(s, step) && LockOk(s.phase, s.holder)
    ensures Shut(s) ==> Shut(Apply(s, step, maxInflight))
    ensures !s.recvShutdown && Apply(s, step, maxInflight).recvShutdown ==> Shut(Apply(s, step, maxInflight))
  {
  }

  ghost predicate ShutAt(run: seq<State>, k: nat) { k < |run| && (run[k].recvShutdown ==> Shut(run[k])) }

  /** Once recvShutdown is set no worker reads a frame, or still holds one it has not handed over. */
  lemma NobodyReadsAfterShutdown(run: seq<State>, steps: seq<Step>, maxInflight: int, k: nat, w: Worker)
    requires Run(run, steps, maxInflight) && maxInflight >= 1 && k < |run| && run[k].recvShutdown && w in run[k].phase
    ensures !run[k].phase[w].Reading? && !run[k].phase[w].Got? && !run[k].phase[w].Versioning?
    ensures k < |steps| ==> !steps[k].act.Read? && !steps[k].act.Spawn?
  {
    for i := 0 to k
      invariant ShutAt(run, i)
    {
      RunKeepsInv(run, steps, maxInflight, i);
      StepKeepsShut(run[i], steps[i], maxInflight);
    }
    if k < |steps| {
      assert Enabled(run[k], steps[k]);
    }
  }

  /** The steps a worker may still take then. */
  function Left(p: Phase): nat {
    match p
    case Handling => 6
    case Top => 5
    case Parked => 4
    case Locked => 3
    case Dying => 3
    case Checking => 2
    case DyingLocked => 2
    case Leaving => 1
    case _ => 0
  }

  lemma StepLowersLeft(s: State, step: Step, maxInflight: int)
    requires Shut(s) && Enabled(s, step)
    ensures Total(Apply(s, step, maxInflight).phase, Left) < Total(s.phase, Left)
  {
    var after := After(s, step, maxInflight);
    assert Left(after) < Left(s.phase[step.w]);
    TotalUpdated(s.phase, Left, step.w, after);
    assert Apply(s, step, maxInflight).phase == s.phase[step.w := after];
  }

  /** Then the workers take boundedly many steps. */
  lemma {:induction false} ShutdownBoundsWorkers(run: seq<State>, steps: seq<Step>, maxInflight: int, k: nat)
    requires Run(run, steps, maxInflight) && maxInflight >= 1 && k < |run| && run[k].recvShutdown
    ensures |steps| - k <= Total(run[k].phase, Left)
    decreases |run| - k
  {
    if k < |steps| {
      forall w | w in run[k].phase ensures !Receives(run[k].phase[w]) {
        NobodyReadsAfterShutdown(run, steps, maxInflight, k, w);
      }
      StepLowersLeft(run[k], steps[k], maxInflight);
      assert run[k + 1].recvShutdown;
      ShutdownBoundsWorkers(run, steps, maxInflight, k + 1);
    }
  }

  /** A worker that is not gone has a step, or the holder of the lock it waits for has. */
  lemma WorkerCanStep(s: State, w: Worker) returns (step: Step)
    requires LockOk(s.phase, s.holder) && (s.holder.Some? ==> s.holder.value in s.phase)
    requires w in s.phase && !s.phase[w].Gone?
    ensures Enabled(s, step)
  {
    if s.holder.Some? {
      step := HolderStep(s, s.holder.value);
    } else {
      var p := s.phase[w];
      step := Step(w,
                   if p.Top? then Park
                   else if p.Parked? then Lock
                   else if p.Handling? then Finish
                   else if p.Dying? then DieLock
                   else Exit);
    }
  }

  /** A run that no worker can extend has every worker gone. */
  lemma MaximalRunHasNoWorkers(run: seq<State>, steps: seq<Step>, maxInflight: int, w: Worker)
    requires Run(run, steps, maxInflight) && maxInflight >= 1 && w in run[|steps|].phase
    requires forall step :: !Enabled(run[|steps|], step)
    ensures run[|steps|].phase[w].Gone?
  {
    RunKeepsInv(run, steps, maxInflight, |steps|);
    if !run[|steps|].phase[w].Gone? {
      var step := WorkerCanStep(run[|steps|], w);
    }
  }
}
