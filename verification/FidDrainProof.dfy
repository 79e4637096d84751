/** What every step keeps when sweeps release handles only after the handlers have drained. */
module FidDrainProof {
  import opened FidMachine
  import opened FidProof

  /** The handle has been released, or some handler is bound to release it. */
  predicate Torn(life: Life) { life.ReleaseDue? || life.Released? || (life.Swept? && life.drained) }

  /** I/O runs only on fid states that nobody is tearing down, and cannot start on the others. */
  ghost predicate DrainOk(life: map<Fs, Life>, closing: set<Fs>, ops: map<Op, OpState>) {
    forall op :: op in ops && OnFs(ops[op]) ==>
      ops[op].fs in life && (Torn(life[ops[op].fs]) ==> ops[op].Holding? && ops[op].fs in closing)
  }

  lemma NoRunnersLeft(ops: map<Op, OpState>, fs: Fs, op: Op)
    requires |Runners(ops, fs)| == 0 && op in ops
    ensures ops[op] != Running(fs)
  {
    assert op !in Runners(ops, fs);
  }

  /** A fid state becomes torn only when its last I/O call is over and no other can start. */
  lemma TearKeepsDrain(life: map<Fs, Life>, closing: set<Fs>, ops: map<Op, OpState>, fs: Fs, after: Life)
    requires DrainOk(life, closing, ops) && fs in life
    requires Torn(after) ==> fs in closing && |Runners(ops, fs)| == 0
    ensures DrainOk(life[fs := after], closing, ops)
  {
    if Torn(after) {
      forall op | op in ops && OnFs(ops[op]) && ops[op].fs == fs ensures ops[op].Holding? {
        NoRunnersLeft(ops, fs, op);
      }
    }
  }

  lemma BindKeepsDrain(s: State, fid: Fid, fs: Fs, act: BindAct)
    requires DrainOk(s.life, s.closing, s.ops) && CanBind(s, fid, fs, act)
    ensures var s' := DoBind(s, fid, fs, act); DrainOk(s'.life, s'.closing, s'.ops)
  {}

  lemma OpKeepsDrain(s: State, op: Op, act: OpAct)
    requires DrainOk(s.life, s.closing, s.ops) && TableOk(s.table, s.life, s.fidOf) && CanOp(s, op, act)
    ensures var s' := DoOp(s, op, act); DrainOk(s'.life, s'.closing, s'.ops)
  {}

  lemma StoreKeepsDrain(s: State, op: Op, act: StoreAct)
    requires DrainOk(s.life, s.closing, s.ops) && CanStore(s, op, act)
    ensures Stores(s, op, act) ==>
              var s' := DoStore(s, op, act); DrainOk(s'.life, s'.closing, s'.ops)
    ensures !Stores(s, op, act) ==>
              var s' := DoLose(s, op, act); DrainOk(s'.life, s'.closing, s'.ops)
  {
    assert DrainOk(s.life, s.closing, s.ops - {op});
  }

  lemma BeginIOKeepsDrain(s: State, op: Op)
    requires DrainOk(s.life, s.closing, s.ops) && CanBeginIO(s, op)
    ensures var s' := DoBeginIO(s, op); DrainOk(s'.life, s'.closing, s'.ops)
  {}

  lemma EndIOKeepsDrain(s: State, op: Op)
    requires DrainOk(s.life, s.closing, s.ops) && IoOk(s.life, s.ioRefs, s.ops) && CanEndIO(s, op)
    ensures var s' := DoEndIO(s, op); DrainOk(s'.life, s'.closing, s'.ops)
  {
    var s', fs := DoEndIO(s, op), s.ops[op].fs;
    FewerRunners(s.ops, op, fs);
    assert DrainOk(s.life, s.closing, s'.ops);
    if s'.life != s.life {
      TearKeepsDrain(s.life, s.closing, s'.ops, fs, s'.life[fs]);
    }
  }

  lemma ClunkAllKeepsDrain(s: State, drained: bool)
    requires DrainOk(s.life, s.closing, s.ops) && SweepsIdle(s, ClunkAll(drained))
    ensures var s' := DoClunkAll(s, drained); DrainOk(s'.life, s'.closing, s'.ops)
  {}

  lemma FinishKeepsDrain(s: State, fs: Fs)
    requires DrainOk(s.life, s.closing, s.ops) && IoOk(s.life, s.ioRefs, s.ops) && CanEnd(s, fs, FinishClunk)
    ensures var s' := DoFinishClunk(s, fs); DrainOk(s'.life, s'.closing, s'.ops)
  {
    assert DrainOk(s.life, s.closing + {fs}, s.ops);
    TearKeepsDrain(s.life, s.closing + {fs}, s.ops, fs, FinishLife(s, fs));
  }

  /** Among stages that are torn alike nothing changes for the handlers. */
  lemma StageKeepsDrain(life: map<Fs, Life>, closing: set<Fs>, ops: map<Op, OpState>, fs: Fs, after: Life)
    requires DrainOk(life, closing, ops) && fs in life && (Torn(after) ==> Torn(life[fs]))
    ensures DrainOk(life[fs := after], closing, ops)
  {}

  lemma EndKeepsDrain(s: State, fs: Fs, act: EndAct)
    requires DrainOk(s.life, s.closing, s.ops) && IoOk(s.life, s.ioRefs, s.ops) && CanEnd(s, fs, act)
    ensures var s' := DoEnd(s, fs, act); DrainOk(s'.life, s'.closing, s'.ops)
  {
    match act
    case FinishClunk => FinishKeepsDrain(s, fs);
    case DecRef => StageKeepsDrain(s.life, s.closing, s.ops, fs, DoDecRef(s, fs).life[fs]);
    case ReleaseNow => StageKeepsDrain(s.life, s.closing, s.ops, fs, Released);
    case SweepOne => StageKeepsDrain(s.life, s.closing, s.ops, fs, DoSweepOne(s, fs).life[fs]);
    case XattrCreate =>
  }

  lemma StepKeepsDrain(s: State, step: Step)
    requires TableOk(s.table, s.life, s.fidOf) && IoOk(s.life, s.ioRefs, s.ops) && DrainOk(s.life, s.closing, s.ops)
    requires Enabled(s, step) && SweepsIdle(s, step)
    ensures var s' := Apply(s, step); DrainOk(s'.life, s'.closing, s'.ops)
  {
    match step
    case Bind(fid, fs, act) => BindKeepsDrain(s, fid, fs, act);
    case OnOp(op, act) => OpKeepsDrain(s, op, act);
    case Store(op, act) => StoreKeepsDrain(s, op, act);
    case BeginIO(op) => BeginIOKeepsDrain(s, op);
    case EndIO(op) => EndIOKeepsDrain(s, op);
    case Rebind(fid, n) => assert DrainOk(DoRebind(s, fid, n).life, s.closing, s.ops);
    case Clunk(fid, remove) => StageKeepsDrain(s.life, s.closing, s.ops, s.table[fid], Unbound(remove));
    case ClunkAll(drained) => ClunkAllKeepsDrain(s, drained);
    case End(fs, act) => EndKeepsDrain(s, fs, act);
  }

  lemma {:induction false} DrainedRunKeepsDrain(run: seq<State>, steps: seq<Step>, i: nat)
    requires DrainedRun(run, steps) && i < |run|
    ensures DrainOk(run[i].life, run[i].closing, run[i].ops)
  {
    if i > 0 {
      DrainedRunKeepsDrain(run, steps, i - 1);
      RunKeepsBase(run, steps, i - 1);
      StepKeepsDrain(run[i - 1], steps[i - 1]);
    }
  }
}
