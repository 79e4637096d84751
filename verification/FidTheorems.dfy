/** What fids, handles and nodes are promised over every run of the fid machine. */
module FidTheorems {
  import opened Common
  import opened FidMachine
  import opened FidProof
  import opened FidDrainProof

  lemma RunMore(run: seq<State>, steps: seq<Step>, step: Step, s: State) returns (run': seq<State>, steps': seq<Step>)
    requires Run(run, steps) && Next(run[|steps|], step, s)
    ensures Run(run', steps') && run'[|steps'|] == s && |steps'| == |steps| + 1
    ensures run' == run + [s] && steps' == steps + [step]
  {
    run', steps' := run + [s], steps + [step];
    forall i | 0 <= i < |steps'| ensures Enabled(run'[i], steps'[i]) && run'[i + 1] == Apply(run'[i], steps'[i]) {
      if i < |steps| {
        assert run'[i] == run[i] && run'[i + 1] == run[i + 1] && steps'[i] == steps[i];
      }
    }
  }

  // ---------------------------------------------------------------- what a step releases and closes

  lemma StoreReleases(s: State, op: Op, act: StoreAct)
    requires CanStore(s, op, act)
    ensures var s' := Apply(s, Store(op, act));
            && s'.released == s.released + ReleasedBy(s, Store(op, act))
            && s'.closed == s.closed + ClosedBy(s, Store(op, act))
  {
    if Stores(s, op, act) {
      assert DoStore(s, op, act).released == s.released && DoStore(s, op, act).closed == s.closed;
    } else {
      var s' := DoLose(s, op, act);
      assert s'.released == s.released + AsSet(s.ops[op].h) && s'.closed == s.closed + Orphan(s, op, act);
    }
  }

  lemma EndReleases(s: State, fs: Fs, act: EndAct)
    requires CanEnd(s, fs, act)
    ensures var s' := DoEnd(s, fs, act);
            && s'.released == s.released + ReleasedBy(s, End(fs, act))
            && s'.closed == s.closed + ClosedBy(s, End(fs, act))
  {}

  lemma StepReleases(s: State, step: Step)
    requires Enabled(s, step)
    ensures Apply(s, step).released == s.released + ReleasedBy(s, step)
    ensures Apply(s, step).closed == s.closed + ClosedBy(s, step)
  {
    match step
    case Store(op, act) => StoreReleases(s, op, act);
    case End(fs, act) => EndReleases(s, fs, act);
    case Bind(fid, fs, act) => assert DoBind(s, fid, fs, act).released == s.released;
    case OnOp(op, act) => assert DoOp(s, op, act).closed == s.closed + Unwanted(s, op, act);
    case BeginIO(op) => assert DoBeginIO(s, op).released == s.released;
    case EndIO(op) => assert DoEndIO(s, op).released == s.released;
    case Rebind(fid, n) => assert DoRebind(s, fid, n).released == s.released;
    case Clunk(fid, remove) => assert DoClunk(s, fid, remove).released == s.released;
    case ClunkAll(drained) => assert DoClunkAll(s, drained).released == s.released;
  }

  ghost predicate Grew(s: State, s': State) { s.released <= s'.released && s.closed <= s'.closed }

  ghost predicate GrewAt(run: seq<State>, i: nat) { i + 1 < |run| && Grew(run[i], run[i + 1]) }

  lemma StepGrows(run: seq<State>, steps: seq<Step>, i: nat)
    requires Run(run, steps) && i < |steps|
    ensures GrewAt(run, i)
  {
    StepReleases(run[i], steps[i]);
  }

  lemma {:induction false} Growing(run: seq<State>, i: nat, j: nat)
    requires i <= j < |run| && forall k: nat :: i <= k < j ==> GrewAt(run, k)
    ensures Grew(run[i], run[j])
  {
    if i < j {
      Growing(run, i, j - 1);
      assert GrewAt(run, j - 1);
    }
  }

  lemma ReleasedGrows(run: seq<State>, steps: seq<Step>, i: nat, j: nat)
    requires Run(run, steps) && i <= j < |run|
    ensures Grew(run[i], run[j])
  {
    forall k: nat | i <= k < j ensures GrewAt(run, k) {
      StepGrows(run, steps, k);
    }
    Growing(run, i, j);
  }

  // ---------------------------------------------------------------- handles

  lemma StepReleasesOnce(s: State, step: Step)
    requires StoredOk(s.life, s.status, s.handle, s.home) && LooseOk(s.ops, s.home)
    requires HomeOk(s.handle, s.ops, s.released, s.home)
    requires Enabled(s, step)
    ensures ReleasedBy(s, step) !! s.released
  {}

  /** Two different steps never release the same handle. */
  lemma HandleReleasedAtMostOnce(run: seq<State>, steps: seq<Step>, i: nat, j: nat)
    requires Run(run, steps) && i < j < |steps|
    ensures ReleasedBy(run[i], steps[i]) !! ReleasedBy(run[j], steps[j])
  {
    StepReleases(run[i], steps[i]);
    ReleasedGrows(run, steps, i + 1, j);
    RunKeepsBase(run, steps, j);
    StepReleasesOnce(run[j], steps[j]);
  }

  /** No handle is released, and no released handle is used, while I/O is registered on its fid. */
  lemma NoReleaseDuringIO(run: seq<State>, steps: seq<Step>, i: nat, fs: Fs)
    requires DrainedRun(run, steps) && i < |run|
    requires InUse(run[i].ops, fs)
    ensures fs in run[i].handle ==> run[i].handle[fs] !in run[i].released
    ensures i < |steps| ==> steps[i] != End(fs, ReleaseNow)
  {
    var op :| op in run[i].ops && run[i].ops[op] == Running(fs);
    DrainedRunKeepsDrain(run, steps, i);
    RunKeepsBase(run, steps, i);
    if i < |steps| {
      assert Enabled(run[i], steps[i]);
    }
  }

  predicate StillKept(life: map<Fs, Life>, fs: Fs) { fs in life && (life[fs].Bound? || life[fs].Leaked?) }

  /**
   Once no handler is in progress, every handle ever opened has been released, unless its fid is
   still bound or was swept after a drain that timed out.
   */
  lemma EveryHandleIsReleased(run: seq<State>, steps: seq<Step>, i: nat, h: Handle)
    requires Run(run, steps) && i < |run|
    requires Quiescent(run[i]) && h in run[i].home
    ensures h in run[i].released <==>
            !exists fs :: fs in run[i].handle && run[i].handle[fs] == h && StillKept(run[i].life, fs)
  {
    RunKeepsBase(run, steps, i);
    var s := run[i];
    if s.home[h].At? {
      assert s.handle[s.home[h].fs] == h;
    }
  }

  /** A handler still owes this fid state a step: its clunk, or the sweep that took it, is in progress. */
  predicate StepOwed(life: Life) { life.Unbound? || life.Unreffed? || life.ReleaseDue? || life.Swept? }

  /**
   A fid that is gone, whose clunk has returned and whose I/O is over has had its handle released,
   unless it was swept after a drain that timed out.
   */
  lemma GoneFidIsReleased(run: seq<State>, steps: seq<Step>, i: nat, fs: Fs)
    requires Run(run, steps) && i < |run|
    requires fs in run[i].handle && fs in run[i].life
    requires !run[i].life[fs].Bound? && !StepOwed(run[i].life[fs]) && !InUse(run[i].ops, fs)
    ensures run[i].handle[fs] in run[i].released <==> !run[i].life[fs].Leaked?
    ensures run[i].life[fs].Released? || run[i].life[fs].Leaked?
  {
    RunKeepsBase(run, steps, i);
    assert Runners(run[i].ops, fs) == {};
  }

  // ---------------------------------------------------------------- references

  /** The reference count of a node is the number of fid states holding it, in every reachable state. */
  lemma RefsCountHolders(run: seq<State>, steps: seq<Step>, i: nat, n: Node)
    requires Run(run, steps) && i < |run|
    ensures RefsOf(run[i].refs, n) == |Holders(run[i].life, run[i].node, n)|
    ensures Quiescent(run[i]) ==>
              forall fs :: fs in Holders(run[i].life, run[i].node, n) <==>
                && fs in run[i].node && run[i].node[fs] == n
                && exists fid :: fid in run[i].table && run[i].table[fid] == fs
  {
    RunKeepsBase(run, steps, i);
    var s := run[i];
    if Quiescent(s) {
      forall fs ensures fs in Holders(s.life, s.node, n) <==>
          fs in s.node && s.node[fs] == n && exists fid :: fid in s.table && s.table[fid] == fs
      {
        if fs in Holders(s.life, s.node, n) {
          assert s.table[s.fidOf[fs]] == fs;
        }
      }
    }
  }

  // ---------------------------------------------------------------- how a fid ends

  /** What took the fid out of the table; ByCommit is the clunk of an xattr-write fid. */
  datatype Cause = ByClunk(remove: bool) | BySweep(drained: bool) | ByCommit

  /**
   A clunked fid is released, or committed if it has become an xattr-write fid and the clunk is no remove; a swept
   one is released after a drain and kept otherwise.
   */
  predicate OnCourse(life: Life, cause: Cause) {
    match cause
    case ByCommit => ((life.Unbound? || life.Unreffed?) && !life.remove) || life.Dropped?
    case ByClunk(remove) =>
      || ((life.Unbound? || life.Unreffed?) && life.remove == remove)
      || life.Deferred? || life.ReleaseDue? || life.Released? || (life.Dropped? && !remove)
    case BySweep(drained) =>
      if drained then life == Swept(true) || life.ReleaseDue? || life.Released?
      else life == Swept(false) || life.Leaked?
  }

  predicate Course(s: State, fs: Fs, cause: Cause) {
    && fs in s.life && OnCourse(s.life[fs], cause)
    && (cause.ByCommit? ==> fs in s.status && s.status[fs].XattrWrite?)
  }

  lemma EndKeepsCourse(s: State, x: Fs, act: EndAct, fs: Fs, cause: Cause)
    requires CanEnd(s, x, act) && Course(s, fs, cause)
    ensures Course(DoEnd(s, x, act), fs, cause)
  {}

  lemma StoreKeepsCourse(s: State, op: Op, act: StoreAct, fs: Fs, cause: Cause)
    requires CanStore(s, op, act) && Course(s, fs, cause)
    ensures Stores(s, op, act) ==> Course(DoStore(s, op, act), fs, cause)
    ensures !Stores(s, op, act) ==> Course(DoLose(s, op, act), fs, cause)
  {}

  lemma IoKeepsCourse(s: State, op: Op, fs: Fs, cause: Cause)
    requires ClosingOk(s.life, s.closing, s.ioRefs) && CanEndIO(s, op) && Course(s, fs, cause)
    ensures Course(DoEndIO(s, op), fs, cause)
  {}

  lemma TableKeepsCourse(s: State, fid: Fid, remove: bool, fs: Fs, cause: Cause)
    requires TableOk(s.table, s.life, s.fidOf) && fid in s.table && Course(s, fs, cause)
    ensures Course(DoClunk(s, fid, remove), fs, cause)
  {}

  lemma StepKeepsCourse(s: State, step: Step, fs: Fs, cause: Cause)
    requires Base(s) && Enabled(s, step) && Course(s, fs, cause)
    ensures Course(Apply(s, step), fs, cause)
  {
    match step
    case End(x, act) => EndKeepsCourse(s, x, act, fs, cause);
    case EndIO(op) => IoKeepsCourse(s, op, fs, cause);
    case Clunk(fid, remove) => TableKeepsCourse(s, fid, remove, fs, cause);
    case ClunkAll(drained) => assert Course(DoClunkAll(s, drained), fs, cause);
    case Bind(fid, x, act) => assert Course(DoBind(s, fid, x, act), fs, cause);
    case OnOp(op, act) => assert Course(DoOp(s, op, act), fs, cause);
    case Store(op, act) => StoreKeepsCourse(s, op, act, fs, cause);
    case BeginIO(op) => assert Course(DoBeginIO(s, op), fs, cause);
    case Rebind(fid, n) => assert Course(DoRebind(s, fid, n), fs, cause);
  }

  ghost predicate CourseAt(run: seq<State>, k: nat, fs: Fs, cause: Cause) { k < |run| && Course(run[k], fs, cause) }

  lemma CourseLasts(run: seq<State>, steps: seq<Step>, i: nat, k: nat, fs: Fs, cause: Cause)
    requires Run(run, steps) && i <= k < |run| && Course(run[i], fs, cause)
    ensures Course(run[k], fs, cause)
  {
    for j := i to k
      invariant CourseAt(run, j, fs, cause)
    {
      RunKeepsBase(run, steps, j);
      StepKeepsCourse(run[j], steps[j], fs, cause);
    }
  }

  /** How a fid leaves the table decides for good how it ends. */
  lemma FidTakesItsCourse(run: seq<State>, steps: seq<Step>, i: nat, k: nat, fid: Fid)
    requires Run(run, steps) && i < k < |run| && fid in run[i].table
    ensures steps[i].Clunk? && steps[i].fid == fid ==> Course(run[k], run[i].table[fid], ByClunk(steps[i].remove))
    ensures steps[i] == Clunk(fid, false) && Names(run[i], fid, XattrWrite) ==>
              Course(run[k], run[i].table[fid], ByCommit)
    ensures steps[i].ClunkAll? ==> Course(run[k], run[i].table[fid], BySweep(steps[i].drained))
  {
    RunKeepsBase(run, steps, i);
    var fs := run[i].table[fid];
    if steps[i].Clunk? && steps[i].fid == fid {
      CourseLasts(run, steps, i + 1, k, fs, ByClunk(steps[i].remove));
      if !steps[i].remove && fs in run[i].status && run[i].status[fs].XattrWrite? {
        CourseLasts(run, steps, i + 1, k, fs, ByCommit);
      }
    } else if steps[i].ClunkAll? {
      CourseLasts(run, steps, i + 1, k, fs, BySweep(steps[i].drained));
    }
  }

  // ---------------------------------------------------------------- opens and creates

  /** The handler is opening, or creating in, the given fid. */
  predicate WorksOn(s: State, op: Op, fid: Fid) {
    op in s.ops && (s.ops[op].Opening? || s.ops[op].OpenedUp? || s.ops[op].Creating? || s.ops[op].Created?) &&
    s.ops[op].fid == fid
  }

  /** The handler has the result of its open or create in hand. */
  predicate HasResult(s: State, op: Op, o: OpState) { op in s.ops && s.ops[op] == o && (o.OpenedUp? || o.Created?) }

  /** The handlers a step is taken for. */
  function OpsOf(step: Step): set<Op> {
    match step
    case Bind(_, _, act) => if act.Attach? then {} else {act.op}
    case OnOp(op, _) => {op}
    case Store(op, _) => {op}
    case BeginIO(op) => {op}
    case EndIO(op) => {op}
    case _ => {}
  }

  ghost predicate OpsKept(ops: map<Op, OpState>, ops': map<Op, OpState>, doers: set<Op>) {
    forall o :: o in ops && o !in doers ==> o in ops' && ops'[o] == ops[o]
  }

  lemma StoreKeepsOps(s: State, op: Op, act: StoreAct)
    requires CanStore(s, op, act)
    ensures Stores(s, op, act) ==> DoStore(s, op, act).ops == s.ops - {op}
    ensures !Stores(s, op, act) ==> DoLose(s, op, act).ops == s.ops - {op}
  {}

  lemma EndKeepsOps(s: State, fs: Fs, act: EndAct)
    requires CanEnd(s, fs, act)
    ensures DoEnd(s, fs, act).ops == s.ops
  {}

  /** A step leaves every handler but its own where it is. */
  lemma StepKeepsOps(s: State, step: Step)
    requires Enabled(s, step)
    ensures OpsKept(s.ops, Apply(s, step).ops, OpsOf(step))
  {
    match step
    case Bind(fid, fs, act) => assert OpsKept(s.ops, DoBind(s, fid, fs, act).ops, OpsOf(step));
    case OnOp(o, act) => assert OpsKept(s.ops, DoOp(s, o, act).ops, {o});
    case Store(o, act) => StoreKeepsOps(s, o, act);
    case BeginIO(o) => assert OpsKept(s.ops, DoBeginIO(s, o).ops, {o});
    case EndIO(o) => assert DoEndIO(s, o).ops == s.ops - {o};
    case Rebind(fid, n) => assert DoRebind(s, fid, n).ops == s.ops;
    case Clunk(fid, remove) => assert DoClunk(s, fid, remove).ops == s.ops;
    case ClunkAll(drained) => assert DoClunkAll(s, drained).ops == s.ops;
    case End(fs, act) => EndKeepsOps(s, fs, act);
  }

  /** Its own next step is the return of the call, or its last. */
  lemma ReturnKeepsFid(s: State, op: Op, act: OpAct, fid: Fid)
    requires WorksOn(s, op, fid) && CanOp(s, op, act)
    ensures var s' := DoOp(s, op, act);
            op in s'.ops ==> WorksOn(s', op, fid) && forall o :: HasResult(s, op, o) ==> HasResult(s', op, o)
  {}

  lemma OwnStepKeepsWork(s: State, step: Step, op: Op, fid: Fid)
    requires Enabled(s, step) && WorksOn(s, op, fid) && op in OpsOf(step)
    ensures op in Apply(s, step).ops ==>
              WorksOn(Apply(s, step), op, fid) && forall o :: HasResult(s, op, o) ==> HasResult(Apply(s, step), op, o)
  {
    match step
    case OnOp(_, act) => ReturnKeepsFid(s, op, act, fid);
    case Store(_, act) => StoreKeepsOps(s, op, act);
    case _ =>
  }

  lemma StepKeepsWork(s: State, step: Step, op: Op, fid: Fid)
    requires Enabled(s, step) && WorksOn(s, op, fid) && op in Apply(s, step).ops
    ensures WorksOn(Apply(s, step), op, fid)
    ensures forall o :: HasResult(s, op, o) ==> HasResult(Apply(s, step), op, o)
  {
    StepKeepsOps(s, step);
    if op in OpsOf(step) {
      OwnStepKeepsWork(s, step, op, fid);
    }
  }

  ghost predicate WorksAt(run: seq<State>, k: nat, op: Op, fid: Fid) { k < |run| && WorksOn(run[k], op, fid) }

  ghost predicate ResultAt(run: seq<State>, k: nat, op: Op, o: OpState) { k < |run| && HasResult(run[k], op, o) }

  predicate Begins(step: Step, op: Op, fid: Fid) {
    step == OnOp(op, OpenBegin(fid)) || step == OnOp(op, CreateBegin(fid))
  }

  /** What an open or create comes back with. */
  function ResultOf(fid: Fid, act: OpAct): Option<OpState> {
    match act
    case OpenReturn(h) => Some(OpenedUp(fid, h))
    case CreateReturn(n, h) => Some(Created(fid, n, h))
    case _ => None
  }

  lemma WorkLasts(run: seq<State>, steps: seq<Step>, i: nat, k: nat, op: Op, fid: Fid)
    requires Run(run, steps) && i < k < |run| && Begins(steps[i], op, fid)
    requires forall j :: i < j <= k ==> op in run[j].ops
    ensures WorksAt(run, k, op, fid)
  {
    for j := i + 1 to k
      invariant WorksAt(run, j, op, fid)
    {
      assert op in run[j + 1].ops;
      StepKeepsWork(run[j], steps[j], op, fid);
    }
  }

  lemma ResultLasts(run: seq<State>, steps: seq<Step>, i: nat, m: nat, k: nat, op: Op, fid: Fid, act: OpAct)
    requires Run(run, steps) && i < m < k < |run| && Begins(steps[i], op, fid)
    requires forall j :: i < j <= k ==> op in run[j].ops
    requires steps[m] == OnOp(op, act) && ResultOf(fid, act).Some?
    ensures ResultAt(run, k, op, ResultOf(fid, act).value)
  {
    var o := ResultOf(fid, act).value;
    WorkLasts(run, steps, i, m, op, fid);
    assert ResultAt(run, m + 1, op, o);
    for j := m + 1 to k
      invariant ResultAt(run, j, op, o)
    {
      assert op in run[j + 1].ops;
      WorkLasts(run, steps, i, j, op, fid);
      StepKeepsWork(run[j], steps[j], op, fid);
    }
  }

  /** The fid is open with what the call came back with, or the call's handle is released and its node closed. */
  ghost predicate Landed(s: State, s': State, fid: Fid, o: OpState)
    requires o.OpenedUp? || o.Created?
  {
    if Names(s, fid, Allocated) then
      var fs := s.table[fid];
      && Names(s', fid, Opened) && s'.table == s.table
      && (o.h.Some? ==> fs in s'.handle && s'.handle[fs] == o.h.value)
      && s'.node[fs] == if o.Created? then o.n else s.node[fs]
    else
      (o.h.Some? ==> o.h.value in s'.released) && (o.Created? ==> o.n in s'.closed) && s'.status == s.status
  }

  lemma StoreSettles(s: State, op: Op, act: StoreAct)
    requires CanStore(s, op, act) && !act.WalkInPlace?
    ensures Stores(s, op, act) ==> Landed(s, DoStore(s, op, act), s.ops[op].fid, s.ops[op])
    ensures !Stores(s, op, act) ==> Landed(s, DoLose(s, op, act), s.ops[op].fid, s.ops[op])
  {}

  /** An open or create stores what it came back with in the fid it was asked for, or gives it up. */
  lemma OpenSettlesItsFid(run: seq<State>, steps: seq<Step>, i: nat, m: nat, k: nat, op: Op, fid: Fid, act: OpAct,
                          store: StoreAct)
    requires Run(run, steps) && i < m < k < |steps| && Begins(steps[i], op, fid)
    requires forall j :: i < j <= k ==> op in run[j].ops
    requires steps[m] == OnOp(op, act) && ResultOf(fid, act).Some? && steps[k] == Store(op, store)
    ensures !store.WalkInPlace? && Landed(run[k], run[k + 1], fid, ResultOf(fid, act).value)
  {
    ResultLasts(run, steps, i, m, k, op, fid, act);
    StoreSettles(run[k], op, store);
  }

  // ---------------------------------------------------------------- attribute fids

  /** A fid state in one of the attribute modes. */
  predicate ForXattr(s: State, fs: Fs, status: Status) {
    && fs in s.life && fs in s.status && s.status[fs] == status && fs !in s.handle
    && (status.XattrRead? || status.XattrWrite?)
  }

  lemma StoreKeepsXattr(s: State, op: Op, act: StoreAct, fs: Fs, status: Status)
    requires CanStore(s, op, act) && ForXattr(s, fs, status)
    ensures Stores(s, op, act) ==> ForXattr(DoStore(s, op, act), fs, status)
    ensures !Stores(s, op, act) ==> ForXattr(DoLose(s, op, act), fs, status)
  {}

  lemma EndKeepsXattr(s: State, x: Fs, act: EndAct, fs: Fs, status: Status)
    requires CanEnd(s, x, act) && ForXattr(s, fs, status)
    ensures ForXattr(DoEnd(s, x, act), fs, status)
  {}

  lemma StepKeepsXattr(s: State, step: Step, fs: Fs, status: Status)
    requires Base(s) && Enabled(s, step) && ForXattr(s, fs, status)
    ensures ForXattr(Apply(s, step), fs, status)
  {
    match step
    case Store(op, act) => StoreKeepsXattr(s, op, act, fs, status);
    case End(x, act) => EndKeepsXattr(s, x, act, fs, status);
    case Bind(fid, x, act) => assert ForXattr(DoBind(s, fid, x, act), fs, status);
    case OnOp(op, act) => assert ForXattr(DoOp(s, op, act), fs, status);
    case BeginIO(op) => assert ForXattr(DoBeginIO(s, op), fs, status);
    case EndIO(op) => assert ForXattr(DoEndIO(s, op), fs, status);
    case Rebind(fid, n) => assert ForXattr(DoRebind(s, fid, n), fs, status);
    case Clunk(fid, remove) => assert ForXattr(DoClunk(s, fid, remove), fs, status);
    case ClunkAll(drained) => assert ForXattr(DoClunkAll(s, drained), fs, status);
  }

  ghost predicate ForXattrAt(run: seq<State>, k: nat, fs: Fs, status: Status) {
    k < |run| && ForXattr(run[k], fs, status)
  }

  /** A fid bound by xattrwalk, or turned by xattrcreate, stays so: it is never opened and never holds a handle. */
  lemma XattrFidIsNeverOpened(run: seq<State>, steps: seq<Step>, i: nat, k: nat, fs: Fs)
    requires Run(run, steps) && i < k < |run|
    ensures steps[i].Bind? && steps[i].fs == fs && steps[i].bind.AliasBind? && steps[i].bind.xattr ==>
              ForXattr(run[k], fs, XattrRead)
    ensures steps[i] == End(fs, XattrCreate) ==> ForXattr(run[k], fs, XattrWrite)
  {
    RunKeepsBase(run, steps, i);
    var status := if steps[i].Bind? then XattrRead else XattrWrite;
    if ForXattrAt(run, i + 1, fs, status) {
      for j := i + 1 to k
        invariant ForXattrAt(run, j, fs, status)
      {
        RunKeepsBase(run, steps, j);
        StepKeepsXattr(run[j], steps[j], fs, status);
      }
    }
  }
}
