/**
 The request protocol and the fid table of one connection, run together: a handler uses the table only
 between its start and its return, and a sweep that releases handles follows a drain that returned
 (cleanup in server/cleanup.go, handleReVersion and dispatchInline in server/conn.go).
 */
module ServerTheorems {
  import opened Common
  import F = FlushProtocol
  import M = FidMachine
  import FidProof
  import FidDrainProof
  import FidTheorems
  import SweepTheorems

  datatype Server = Server(flush: F.State, fids: M.State)

  const INIT := Server(F.INIT, M.INIT)

  /** `waited` tells whether the workers had all exited by the time cleanup stopped waiting for them. */
  datatype Step = Protocol(f: F.Step) | Table(m: M.Step) | Sweep(d: F.Drain, waited: bool)

  predicate InHandler(s: F.State, r: F.Req) { r in s.phase && s.phase[r].Handling? }

  /** The handler of request r returns. */
  predicate Returns(step: F.Step, r: F.Req) {
    step.OnRequest? && step.r == r && (step.serve.Respond? || step.serve.StaySilent? || step.serve.Panic?)
  }

  predicate AllGone(s: F.State) { forall r :: r in s.phase ==> s.phase[r].Gone? }

  predicate Enabled(s: Server, step: Step) {
    match step
    case Protocol(f) => F.Enabled(s.flush, f) && forall r :: r in s.fids.ops ==> !Returns(f, r)
    case Table(m) =>
      && M.Enabled(s.fids, m)
      && m != M.ClunkAll(true)
      && forall op :: op in FidTheorems.OpsOf(m) ==> InHandler(s.flush, op)
    case Sweep(d, waited) =>
      d in s.flush.drains && s.flush.drains[d].Drained? && (waited ==> AllGone(s.flush))
  }

  function Apply(s: Server, step: Step): Server
    requires Enabled(s, step)
  {
    match step
    case Protocol(f) => s.(flush := F.Apply(s.flush, f))
    case Table(m) => s.(fids := M.Apply(s.fids, m))
    case Sweep(_, _) => s.(fids := M.DoClunkAll(s.fids, true))
  }

  ghost predicate Next(s: Server, step: Step, s': Server) { Enabled(s, step) && s' == Apply(s, step) }

  ghost predicate NextAt(run: seq<Server>, steps: seq<Step>, i: nat) {
    i < |steps| && i + 1 < |run| && Next(run[i], steps[i], run[i + 1])
  }

  ghost predicate Run(run: seq<Server>, steps: seq<Step>) {
    |run| == |steps| + 1 && run[0] == INIT && forall i: nat :: i < |steps| ==> NextAt(run, steps, i)
  }

  /** The sweep belongs to a re-negotiation that still holds recvMu, or follows the exit of every worker. */
  predicate Settled(s: Server, step: Step) {
    step.Sweep? ==> s.flush.recvHeldBy == Some(step.d) || step.waited
  }

  ghost predicate SettledAt(run: seq<Server>, steps: seq<Step>, i: nat) {
    i < |steps| && i < |run| && Settled(run[i], steps[i])
  }

  ghost predicate SettledRun(run: seq<Server>, steps: seq<Step>) {
    Run(run, steps) && forall i: nat :: i < |steps| ==> SettledAt(run, steps, i)
  }

  /** A sweep that releases handles under no handler. */
  ghost predicate Idle(s: Server, step: Step) { step.Sweep? ==> M.SweepsIdle(s.fids, M.ClunkAll(true)) }

  // ---------------------------------------------------------------- handlers and the table

  /** Whoever uses the fid table is a request in its handler. */
  ghost predicate Served(s: Server) { forall op :: op in s.fids.ops ==> InHandler(s.flush, op) }

  ghost predicate Inv(s: Server) { F.Inv(s.flush) && FidProof.Base(s.fids) && Served(s) }

  lemma ProtocolStepKeepsInv(s: F.State, step: F.Step)
    requires F.Inv(s) && F.Enabled(s, step)
    ensures F.Inv(F.Apply(s, step))
  {
    match step
    case OnRequest(r, act) => F.ServeKeepsInv(s, r, act);
    case OnFlush(f, act) => F.FlushKeepsInv(s, f, act);
    case OnDrain(d, act) => F.DrainKeepsInv(s, d, act);
  }

  /** A handler leaves its handler only by returning. */
  lemma HandlerStays(s: F.State, step: F.Step, r: F.Req)
    requires F.Enabled(s, step) && InHandler(s, r) && !Returns(step, r)
    ensures InHandler(F.Apply(s, step), r)
  {
    match step
    case OnRequest(q, act) => assert InHandler(F.DoServe(s, q, act), r);
    case OnFlush(f, act) => assert F.DoFlush(s, f, act).phase == s.phase;
    case OnDrain(d, act) => assert F.DoDrain(s, d, act).phase == s.phase;
  }

  lemma BindKeepsOps(s: M.State, fid: M.Fid, fs: M.Fs, act: M.BindAct)
    requires M.CanBind(s, fid, fs, act)
    ensures M.DoBind(s, fid, fs, act).ops.Keys <= s.ops.Keys
  {}

  lemma EndKeepsOps(s: M.State, fs: M.Fs, act: M.EndAct)
    requires M.CanEnd(s, fs, act)
    ensures M.DoEnd(s, fs, act).ops == s.ops
  {}

  /** A step of the table starts no handler but its own. */
  lemma TableStepOps(s: M.State, step: M.Step)
    requires M.Enabled(s, step)
    ensures M.Apply(s, step).ops.Keys <= s.ops.Keys + FidTheorems.OpsOf(step)
  {
    match step
    case Bind(fid, fs, act) => BindKeepsOps(s, fid, fs, act);
    case End(fs, act) => EndKeepsOps(s, fs, act);
    case _ =>
  }

  lemma StepKeepsInv(s: Server, step: Step, s': Server)
    requires Inv(s) && Next(s, step, s')
    ensures Inv(s')
  {
    match step {
      case Protocol(f) =>
        ProtocolStepKeepsInv(s.flush, f);
        forall op | op in s.fids.ops ensures InHandler(s'.flush, op) { HandlerStays(s.flush, f, op); }
      case Table(m) =>
        FidProof.StepKeepsBase(s.fids, m);
        TableStepOps(s.fids, m);
      case Sweep(_, _) =>
        FidProof.ClunkAllKeepsBase(s.fids, true);
        assert s'.fids.ops == s.fids.ops;
    }
  }

  ghost predicate InvAt(run: seq<Server>, i: nat) { i < |run| && Inv(run[i]) }

  lemma StepAt(run: seq<Server>, steps: seq<Step>, i: nat)
    requires NextAt(run, steps, i) && InvAt(run, i)
    ensures InvAt(run, i + 1)
  {
    StepKeepsInv(run[i], steps[i], run[i + 1]);
  }

  lemma {:induction false} RunKeepsInv(run: seq<Server>, steps: seq<Step>, i: nat)
    requires Run(run, steps) && i < |run|
    ensures InvAt(run, i)
  {
    if i == 0 {
      EmptyIsConsistent();
    } else {
      RunKeepsInv(run, steps, i - 1);
      StepAt(run, steps, i - 1);
    }
  }

  lemma EmptyIsConsistent()
    ensures Inv(INIT) && DrainOk(INIT)
  {
    F.RunKeepsInv([F.INIT], [], 0);
    FidProof.RunKeepsBase([M.INIT], [], 0);
  }

  // ---------------------------------------------------------------- sweeps

  /** While a drained re-negotiation holds recvMu, nothing is in its handler. */
  lemma DrainedHasNoHandler(s: F.State, d: F.Drain, r: F.Req)
    requires F.Inv(s) && d in s.drains && s.drains[d].Drained? && s.recvHeldBy == Some(d)
    ensures !InHandler(s, r)
  {}

  lemma SettledSweepIsIdle(s: Server, step: Step)
    requires Inv(s) && Enabled(s, step) && step.Sweep? && Settled(s, step)
    ensures s.fids.ops == map[] && Idle(s, step)
  {
    forall op ensures op !in s.fids.ops {
      if s.flush.recvHeldBy == Some(step.d) {
        DrainedHasNoHandler(s.flush, step.d, op);
      }
    }
  }

  ghost predicate DrainOk(s: Server) { FidDrainProof.DrainOk(s.fids.life, s.fids.closing, s.fids.ops) }

  lemma SettledStepKeepsDrain(s: Server, step: Step, s': Server)
    requires Inv(s) && DrainOk(s) && Next(s, step, s') && Settled(s, step)
    ensures DrainOk(s')
  {
    match step
    case Protocol(_) =>
    case Table(m) => FidDrainProof.StepKeepsDrain(s.fids, m);
    case Sweep(_, _) =>
      SettledSweepIsIdle(s, step);
      FidDrainProof.ClunkAllKeepsDrain(s.fids, true);
  }

  ghost predicate DrainOkAt(run: seq<Server>, i: nat) { i < |run| && DrainOk(run[i]) }

  lemma SettledStepAt(run: seq<Server>, steps: seq<Step>, i: nat)
    requires NextAt(run, steps, i) && SettledAt(run, steps, i) && InvAt(run, i) && DrainOkAt(run, i)
    ensures DrainOkAt(run, i + 1)
  {
    SettledStepKeepsDrain(run[i], steps[i], run[i + 1]);
  }

  lemma {:induction false} SettledRunKeepsDrain(run: seq<Server>, steps: seq<Step>, i: nat)
    requires SettledRun(run, steps) && i < |run|
    ensures DrainOkAt(run, i)
  {
    if i == 0 {
      EmptyIsConsistent();
    } else {
      SettledRunKeepsDrain(run, steps, i - 1);
      RunKeepsInv(run, steps, i - 1);
      SettledStepAt(run, steps, i - 1);
    }
  }

  /** In a run whose releasing sweeps are all settled, no handle is released under I/O. */
  lemma SettledRunReleasesUnused(run: seq<Server>, steps: seq<Step>, i: nat, fs: M.Fs)
    requires SettledRun(run, steps) && i < |run|
    ensures !SweepTheorems.AboutToReleaseInUse(run[i].fids, fs)
  {
    SettledRunKeepsDrain(run, steps, i);
    SweepTheorems.DrainedReleasesUnused(run[i].fids, fs);
  }

  // ---------------------------------------------------------------- continuations of a sweep

  /** Steps taken from any state with only settled sweeps among them. */
  ghost predicate SettledChain(run: seq<Server>, steps: seq<Step>) {
    |run| == |steps| + 1 && forall i: nat :: i < |steps| ==> NextAt(run, steps, i) && SettledAt(run, steps, i)
  }

  ghost predicate LeadsToUse(s: Server, fs: M.Fs, run: seq<Server>, steps: seq<Step>) {
    SettledChain(run, steps) && run[0] == s && SweepTheorems.AboutToReleaseInUse(run[|steps|].fids, fs)
  }

  lemma ChainKeepsInv(run: seq<Server>, steps: seq<Step>, i: nat)
    requires SettledChain(run, steps) && i < |run| && InvAt(run, 0)
    ensures InvAt(run, i)
  {
    for j := 0 to i
      invariant InvAt(run, j)
    {
      StepAt(run, steps, j);
    }
  }

  lemma ChainKeepsDrain(run: seq<Server>, steps: seq<Step>, i: nat)
    requires SettledChain(run, steps) && i < |run| && InvAt(run, 0) && DrainOkAt(run, 0)
    ensures DrainOkAt(run, i)
  {
    for j := 0 to i
      invariant DrainOkAt(run, j)
    {
      ChainKeepsInv(run, steps, j);
      SettledStepAt(run, steps, j);
    }
  }

  lemma TableStep(s: Server, m: M.Step, ops: set<M.Op>, fids: M.State)
    requires M.Next(s.fids, m, fids) && !m.ClunkAll? && FidTheorems.OpsOf(m) <= ops
    requires forall op :: op in ops ==> InHandler(s.flush, op)
    ensures Next(s, Table(m), s.(fids := fids)) && Settled(s, Table(m))
  {}

  /** Requests in their handlers take the given steps on the table. */
  lemma OnTable(f: F.State, mrun: seq<M.State>, msteps: seq<M.Step>, ops: set<M.Op>)
    returns (run: seq<Server>, steps: seq<Step>)
    requires M.Chain(mrun, msteps) && SweepTheorems.By(msteps, ops)
    requires forall op :: op in ops ==> InHandler(f, op)
    ensures SettledChain(run, steps) && |steps| == |msteps|
    ensures run[0] == Server(f, mrun[0]) && run[|steps|] == Server(f, mrun[|msteps|])
  {
    run := seq(|mrun|, i requires 0 <= i < |mrun| => Server(f, mrun[i]));
    steps := seq(|msteps|, i requires 0 <= i < |msteps| => Table(msteps[i]));
    forall i: nat | i < |steps| ensures NextAt(run, steps, i) && SettledAt(run, steps, i) {
      assert M.NextAt(mrun, msteps, i) && msteps[i] in msteps;
      TableStep(run[i], msteps[i], ops, mrun[i + 1]);
    }
  }

  lemma BusySweepIsUnsafe(s: Server, d: F.Drain, waited: bool, op: M.Op)
    returns (run: seq<Server>, steps: seq<Step>)
    requires Inv(s) && Enabled(s, Sweep(d, waited))
    requires op in s.fids.ops && M.OnFs(s.fids.ops[op]) && s.fids.life[s.fids.ops[op].fs].Bound?
    ensures LeadsToUse(Apply(s, Sweep(d, waited)), s.fids.ops[op].fs, run, steps)
    ensures M.ReleasedBy(run[|steps|].fids, M.End(s.fids.ops[op].fs, M.ReleaseNow)) ==
            M.HandleOf(s.fids, s.fids.ops[op].fs)
  {
    var mrun, msteps := SweepTheorems.BusySweepReleasesInUse(s.fids, op);
    run, steps := OnTable(s.flush, mrun, msteps, {op});
  }

  lemma IdleSweepIsSafe(s: Server, d: F.Drain, waited: bool, fs: M.Fs, run: seq<Server>, steps: seq<Step>)
    requires Inv(s) && DrainOk(s) && Enabled(s, Sweep(d, waited)) && Idle(s, Sweep(d, waited))
    ensures !LeadsToUse(Apply(s, Sweep(d, waited)), fs, run, steps)
  {
    var s' := Apply(s, Sweep(d, waited));
    StepKeepsInv(s, Sweep(d, waited), s');
    FidDrainProof.ClunkAllKeepsDrain(s.fids, true);
    if SettledChain(run, steps) && run[0] == s' {
      ChainKeepsDrain(run, steps, |steps|);
      SweepTheorems.DrainedReleasesUnused(run[|steps|].fids, fs);
    }
  }

  /** One more sweep after a settled run can end in a release under I/O exactly when it takes a fid in use. */
  lemma SweepIsUnsafeIffBusy(run: seq<Server>, steps: seq<Step>, d: F.Drain, waited: bool)
    requires SettledRun(run, steps) && Enabled(run[|steps|], Sweep(d, waited))
    ensures !Idle(run[|steps|], Sweep(d, waited)) <==>
            exists fs, cont, csteps :: LeadsToUse(Apply(run[|steps|], Sweep(d, waited)), fs, cont, csteps)
  {
    var s := run[|steps|];
    RunKeepsInv(run, steps, |steps|);
    SettledRunKeepsDrain(run, steps, |steps|);
    if Idle(s, Sweep(d, waited)) {
      forall fs, cont, csteps ensures !LeadsToUse(Apply(s, Sweep(d, waited)), fs, cont, csteps) {
        IdleSweepIsSafe(s, d, waited, fs, cont, csteps);
      }
    } else {
      var op := SweepTheorems.BusyHandler(s.fids);
      var cont, csteps := BusySweepIsUnsafe(s, d, waited, op);
    }
  }

  // ---------------------------------------------------------------- the sweep that is not settled

  lemma RunMore(run: seq<Server>, steps: seq<Step>, step: Step, s: Server)
    returns (run': seq<Server>, steps': seq<Step>)
    requires SettledRun(run, steps) && Next(run[|steps|], step, s) && !step.Sweep?
    ensures SettledRun(run', steps') && |steps'| == |steps| + 1 && run'[|steps'|] == s
  {
    run', steps' := run + [s], steps + [step];
    forall i: nat | i < |steps'| ensures NextAt(run', steps', i) && SettledAt(run', steps', i) {
      if i < |steps| {
        assert NextAt(run, steps, i) && SettledAt(run, steps, i);
      }
    }
  }

  /** A drain that holds nothing returns at once, and then two requests start. */
  lemma LateRequests() returns (run: seq<Server>, steps: seq<Step>)
    ensures SettledRun(run, steps) && run[|steps|].fids == M.INIT
    ensures var s := run[|steps|].flush; InHandler(s, 1) && InHandler(s, 2) && 0 in s.drains && s.drains[0].Drained?
  {
    run, steps := [INIT], [];
    var f := F.DoDrain(F.INIT, 0, F.CancelAll(false));
    run, steps := RunMore(run, steps, Protocol(F.OnDrain(0, F.CancelAll(false))), Server(f, M.INIT));
    f := F.DoDrain(f, 0, F.AwaitDrain);
    run, steps := RunMore(run, steps, Protocol(F.OnDrain(0, F.AwaitDrain)), Server(f, M.INIT));
    assert f.drains == map[0 := F.Drained];
    f := F.DoServe(f, 1, F.Start(7, 1));
    run, steps := RunMore(run, steps, Protocol(F.OnRequest(1, F.Start(7, 1))), Server(f, M.INIT));
    f := F.DoServe(f, 2, F.Start(8, 2));
    run, steps := RunMore(run, steps, Protocol(F.OnRequest(2, F.Start(8, 2))), Server(f, M.INIT));
  }

  lemma JoinRun(run: seq<Server>, steps: seq<Step>, cont: seq<Server>, csteps: seq<Step>)
    returns (run': seq<Server>, steps': seq<Step>)
    requires SettledRun(run, steps) && SettledChain(cont, csteps) && cont[0] == run[|steps|]
    ensures SettledRun(run', steps') && run'[|steps'|] == cont[|csteps|]
  {
    run', steps' := run + cont[1..], steps + csteps;
    forall i: nat | i < |steps'| ensures NextAt(run', steps', i) && SettledAt(run', steps', i) {
      if i < |steps| {
        assert NextAt(run, steps, i) && SettledAt(run, steps, i);
      } else {
        var k := i - |steps|;
        assert NextAt(cont, csteps, k) && SettledAt(cont, csteps, k);
        assert run'[i] == cont[k] && run'[i + 1] == cont[k + 1] && steps'[i] == csteps[k];
      }
    }
  }

  /**
   Cleanup's drain can return before the last request is read; if the workers then do not exit in time, the
   sweep releases handle 9 of fid state 11 under the I/O of request 2.
   */
  lemma UnsettledSweepIsReachable(begun: bool)
    returns (run: seq<Server>, steps: seq<Step>, cont: seq<Server>, csteps: seq<Step>)
    ensures SettledRun(run, steps) && Enabled(run[|steps|], Sweep(0, false))
    ensures LeadsToUse(Apply(run[|steps|], Sweep(0, false)), 11, cont, csteps)
    ensures M.ReleasedBy(cont[|csteps|].fids, M.End(11, M.ReleaseNow)) == {9}
  {
    run, steps := LateRequests();
    var mrun, msteps := SweepTheorems.ResolvedFid(begun);
    SweepTheorems.RunIsChain(mrun, msteps);
    cont, csteps := OnTable(run[|steps|].flush, mrun, msteps, {1, 2});
    run, steps := JoinRun(run, steps, cont, csteps);
    RunKeepsInv(run, steps, |steps|);
    cont, csteps := BusySweepIsUnsafe(run[|steps|], 0, false, 2);
  }
}
