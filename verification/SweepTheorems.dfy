/** When a sweep that releases handles is safe (server/cleanup.go, handleReVersion in server/conn.go). */
module SweepTheorems {
  import opened Common
  import opened FidMachine
  import opened FidProof
  import opened FidDrainProof
  import opened FidTheorems

  ghost predicate IdleAt(run: seq<State>, steps: seq<Step>, i: nat) {
    i < |steps| && i < |run| && SweepsIdle(run[i], steps[i])
  }

  /** Steps taken from any state in which every releasing sweep finds its fids idle. */
  ghost predicate IdleChain(run: seq<State>, steps: seq<Step>) {
    Chain(run, steps) && forall i: nat :: i < |steps| ==> IdleAt(run, steps, i)
  }

  /** No sweep, and no handler but these. */
  predicate By(steps: seq<Step>, ops: set<Op>) {
    forall step :: step in steps ==> !step.ClunkAll? && OpsOf(step) <= ops
  }

  /** The next step is to release a fid state on which I/O is registered. */
  predicate AboutToReleaseInUse(s: State, fs: Fs) { CanEnd(s, fs, ReleaseNow) && InUse(s.ops, fs) }

  ghost predicate LeadsToUse(s: State, fs: Fs, run: seq<State>, steps: seq<Step>) {
    IdleChain(run, steps) && run[0] == s && AboutToReleaseInUse(run[|steps|], fs)
  }

  lemma NoSteps(s: State)
    ensures IdleChain([s], [])
  {}

  lemma FirstStep(s: State, step: Step, run: seq<State>, steps: seq<Step>)
    requires IdleChain(run, steps) && Next(s, step, run[0]) && SweepsIdle(s, step)
    ensures IdleChain([s] + run, [step] + steps)
  {
    var run', steps' := [s] + run, [step] + steps;
    forall i: nat | i < |steps'| ensures NextAt(run', steps', i) && IdleAt(run', steps', i) {
      if i > 0 {
        assert NextAt(run, steps, i - 1) && IdleAt(run, steps, i - 1);
      }
    }
  }

  /** After a sweep over a fid with I/O running, its handle is released under that I/O. */
  lemma SweptRunnerIsReleased(s: State, op: Op) returns (run: seq<State>, steps: seq<Step>)
    requires op in s.ops && s.ops[op].Running? && CanEnd(s, s.ops[op].fs, SweepOne) && s.life[s.ops[op].fs].drained
    ensures LeadsToUse(s, s.ops[op].fs, run, steps) && By(steps, {op})
    ensures ReleasedBy(run[|steps|], End(s.ops[op].fs, ReleaseNow)) == HandleOf(s, s.ops[op].fs)
  {
    var fs := s.ops[op].fs;
    var s' := DoSweepOne(s, fs);
    assert s'.ops[op] == Running(fs);
    NoSteps(s');
    FirstStep(s, End(fs, SweepOne), [s'], []);
    run, steps := [s] + [s'], [End(fs, SweepOne)] + [];
  }

  /** A handler that has resolved the fid but not begun its I/O is still let in after the sweep took the table. */
  lemma SweptHolderIsReleased(s: State, op: Op) returns (run: seq<State>, steps: seq<Step>)
    requires op in s.ops && s.ops[op].Holding? && CanEnd(s, s.ops[op].fs, SweepOne) && s.life[s.ops[op].fs].drained
    requires s.ops[op].fs !in s.closing
    ensures LeadsToUse(s, s.ops[op].fs, run, steps) && By(steps, {op})
    ensures ReleasedBy(run[|steps|], End(s.ops[op].fs, ReleaseNow)) == HandleOf(s, s.ops[op].fs)
  {
    var s' := DoBeginIO(s, op);
    assert s'.ops[op] == Running(s.ops[op].fs) && s'.life == s.life && s'.handle == s.handle;
    var rest, more := SweptRunnerIsReleased(s', op);
    FirstStep(s, BeginIO(op), rest, more);
    run, steps := [s] + rest, [BeginIO(op)] + more;
    assert run[|steps|] == rest[|more|];
  }

  /**
   A releasing sweep that takes a fid some handler has resolved leads to the release of its handle under that
   handler: it is running its I/O already, or is still let in.
   */
  lemma BusySweepReleasesInUse(s: State, op: Op) returns (run: seq<State>, steps: seq<Step>)
    requires Base(s) && op in s.ops && OnFs(s.ops[op]) && s.life[s.ops[op].fs].Bound?
    ensures LeadsToUse(DoClunkAll(s, true), s.ops[op].fs, run, steps) && By(steps, {op})
    ensures ReleasedBy(run[|steps|], End(s.ops[op].fs, ReleaseNow)) == HandleOf(s, s.ops[op].fs)
  {
    var s' := DoClunkAll(s, true);
    assert s'.ops == s.ops && s'.handle == s.handle;
    assert s'.life[s.ops[op].fs] == Swept(true) && s.ops[op].fs !in s'.closing;
    if s.ops[op].Running? {
      run, steps := SweptRunnerIsReleased(s', op);
    } else {
      run, steps := SweptHolderIsReleased(s', op);
    }
  }

  lemma {:induction false} ChainKeepsDrain(run: seq<State>, steps: seq<Step>, i: nat)
    requires IdleChain(run, steps) && i < |run| && Base(run[0]) && DrainOk(run[0].life, run[0].closing, run[0].ops)
    ensures Base(run[i]) && DrainOk(run[i].life, run[i].closing, run[i].ops)
  {
    if i > 0 {
      ChainKeepsDrain(run, steps, i - 1);
      assert NextAt(run, steps, i - 1) && IdleAt(run, steps, i - 1);
      StepKeepsBase(run[i - 1], steps[i - 1]);
      StepKeepsDrain(run[i - 1], steps[i - 1]);
    }
  }

  lemma DrainedReleasesUnused(s: State, fs: Fs)
    requires DrainOk(s.life, s.closing, s.ops)
    ensures !AboutToReleaseInUse(s, fs)
  {}

  lemma BusyHandler(s: State) returns (op: Op)
    requires Base(s) && !SweepsIdle(s, ClunkAll(true))
    ensures op in s.ops && OnFs(s.ops[op]) && s.life[s.ops[op].fs].Bound?
  {
    op :| op in s.ops && OnFs(s.ops[op]) && s.ops[op].fs in s.life && s.life[s.ops[op].fs].Bound?;
  }

  lemma SweepIsUnsafeIffBusyAt(s: State)
    requires Base(s) && DrainOk(s.life, s.closing, s.ops)
    ensures !SweepsIdle(s, ClunkAll(true)) <==>
            exists fs, cont, csteps :: LeadsToUse(DoClunkAll(s, true), fs, cont, csteps)
  {
    if !SweepsIdle(s, ClunkAll(true)) {
      var op := BusyHandler(s);
      var cont, csteps := BusySweepReleasesInUse(s, op);
    } else {
      ClunkAllKeepsDrain(s, true);
      ClunkAllKeepsBase(s, true);
      forall fs, cont, csteps | IdleChain(cont, csteps) && cont[0] == DoClunkAll(s, true)
        ensures !AboutToReleaseInUse(cont[|csteps|], fs)
      {
        ChainKeepsDrain(cont, csteps, |csteps|);
        DrainedReleasesUnused(cont[|csteps|], fs);
      }
    }
  }

  /** A releasing sweep can lead to a release under I/O exactly when some handler has resolved a fid it takes. */
  lemma SweepIsUnsafeIffBusy(run: seq<State>, steps: seq<Step>)
    requires DrainedRun(run, steps)
    ensures !SweepsIdle(run[|steps|], ClunkAll(true)) <==>
            exists fs, cont, csteps :: LeadsToUse(DoClunkAll(run[|steps|], true), fs, cont, csteps)
  {
    RunKeepsBase(run, steps, |steps|);
    DrainedRunKeepsDrain(run, steps, |steps|);
    SweepIsUnsafeIffBusyAt(run[|steps|]);
  }

  // ---------------------------------------------------------------- a busy sweep is reachable

  lemma RunIsChain(run: seq<State>, steps: seq<Step>)
    requires Run(run, steps)
    ensures Chain(run, steps)
  {
    forall i: nat | i < |steps| ensures NextAt(run, steps, i) {}
  }

  /** Fid 5 is bound to the live fid state 11, and these are its status, its handle and the handlers at work. */
  predicate OneFid(s: State, status: Status, handle: map<Fs, Handle>, ops: map<Op, OpState>) {
    && s.table == map[5 := 11] && s.life == map[11 := Bound] && s.closing == {} && Known(s, 11)
    && s.status[11] == status && s.handle == handle && s.ops == ops
  }

  /** From the start of a connection, fid 5 is attached and handler 1 begins to open it. */
  lemma OpeningFid() returns (run: seq<State>, steps: seq<Step>)
    ensures Run(run, steps) && OneFid(run[|steps|], Allocated, map[], map[1 := Opening(5)])
    ensures run[|steps|].home == map[] && By(steps, {1, 2})
  {
    var s1 := DoBind(INIT, 5, 11, Attach(3));
    run, steps := RunMore([INIT], [], Bind(5, 11, Attach(3)), s1);
    var s2 := DoOp(s1, 1, OpenBegin(5));
    run, steps := RunMore(run, steps, OnOp(1, OpenBegin(5)), s2);
  }

  /** The open succeeds with handle 9. */
  lemma OpenedFid() returns (run: seq<State>, steps: seq<Step>)
    ensures Run(run, steps) && OneFid(run[|steps|], Opened, map[11 := 9], map[]) && By(steps, {1, 2})
  {
    run, steps := OpeningFid();
    var s1 := DoOp(run[|steps|], 1, OpenReturn(Some(9)));
    run, steps := RunMore(run, steps, OnOp(1, OpenReturn(Some(9))), s1);
    assert s1.ops == map[1 := OpenedUp(5, Some(9))];
    run, steps := RunMore(run, steps, Store(1, OpenStore), DoStore(s1, 1, OpenStore));
  }

  /** Handler 2 resolves the fid, and its I/O has begun or not. */
  lemma ResolvedFid(begun: bool) returns (run: seq<State>, steps: seq<Step>)
    ensures Run(run, steps) && By(steps, {1, 2})
    ensures OneFid(run[|steps|], Opened, map[11 := 9], map[2 := if begun then Running(11) else Holding(11)])
  {
    run, steps := OpenedFid();
    run, steps := RunMore(run, steps, OnOp(2, Get(5)), DoOp(run[|steps|], 2, Get(5)));
    if begun {
      run, steps := RunMore(run, steps, BeginIO(2), DoBeginIO(run[|steps|], 2));
    }
  }

  /** A run in which a sweep takes fid 5 from under handler 2, with its I/O begun or not, and releases handle 9. */
  lemma BusySweepIsReachable(begun: bool)
    returns (run: seq<State>, steps: seq<Step>, cont: seq<State>, csteps: seq<Step>)
    ensures Run(run, steps) && LeadsToUse(run[|steps|], 11, cont, csteps)
    ensures ReleasedBy(cont[|csteps|], End(11, ReleaseNow)) == {9}
  {
    run, steps := ResolvedFid(begun);
    RunKeepsBase(run, steps, |steps|);
    var s := run[|steps|];
    cont, csteps := BusySweepReleasesInUse(s, 2);
    run, steps := RunMore(run, steps, ClunkAll(true), DoClunkAll(s, true));
  }
}
