/** What the nodes made by Lookup and Create are promised over the runs of the fid machine. */
module NodeTheorems {
  import opened Common
  import opened FidMachine
  import opened FidProof
  import opened FidNodeProof
  import opened FidTheorems

  // ---------------------------------------------------------------- a reference held is enough

  lemma HeldIsLive(s: State, n: Node)
    requires Nodes(s) && n in s.born && RefsOf(s.refs, n) > 0
    ensures !Doomed(s, n)
  {
    forall fs ensures OwesClose(s, fs, n) ==> n in s.closer {}
  }

  /** Aliases that bind while their node has a reference never bind a node closed or about to be. */
  lemma {:induction false} HeldRunIsLive(run: seq<State>, steps: seq<Step>)
    requires HeldRun(run, steps)
    ensures LiveRun(run, steps)
  {
    if steps != [] {
      var k := |steps| - 1;
      assert HeldRun(run[..|steps|], steps[..k]);
      HeldRunIsLive(run[..|steps|], steps[..k]);
      LiveRunKeepsNodes(run[..|steps|], steps[..k], k);
      if AliasNode(run[k], steps[k]).Some? {
        HeldIsLive(run[k], AliasNode(run[k], steps[k]).value);
      }
      forall i | 0 <= i < |steps| ensures AliasesLive(run[i], steps[i]) {
        if i < k {
          assert AliasesLive(run[..|steps|][i], steps[..k][i]);
        }
      }
    }
  }

  lemma ClosedIsUnbound(s: State, n: Node, fid: Fid)
    requires Base(s) && Nodes(s) && n in s.closed && n in s.born && fid in s.table
    ensures s.table[fid] in s.node && s.node[s.table[fid]] != n
  {
    BoundHolds(s.life, s.node, s.refs, s.table[fid]);
  }

  /** A closed node made by Lookup or Create is bound to no fid, now or at any later point of the run. */
  lemma ClosedNodeIsNeverBound(run: seq<State>, steps: seq<Step>, i: nat, j: nat, n: Node, fid: Fid)
    requires HeldRun(run, steps) && i <= j < |run|
    requires n in run[i].closed && n in run[j].born && fid in run[j].table
    ensures run[j].table[fid] in run[j].node && run[j].node[run[j].table[fid]] != n
  {
    HeldRunIsLive(run, steps);
    ReleasedGrows(run, steps, i, j);
    LiveRunKeepsNodes(run, steps, j);
    RunKeepsBase(run, steps, j);
    ClosedIsUnbound(run[j], n, fid);
  }

  lemma StepClosesOnce(s: State, step: Step)
    requires Keys(s) && Nodes(s) && RefsOk(s.life, s.node, s.refs) && Enabled(s, step)
    ensures forall n :: n in ClosedBy(s, step) && n in s.born ==> n !in s.closed
  {
    match step
    case OnOp(op, act) => OpKeepsNodes(s, op, act);
    case Store(op, act) =>
      if !Stores(s, op, act) {
        LoseKeepsNodes(s, op, act);
      }
    case End(fs, act) =>
      if act.ReleaseNow? {
        CloserReleased(s.life, s.status, s.node, s.refs, s.closed, s.closer, s.born, fs);
      }
    case _ =>
  }

  /** Two different steps never close the same node made by Lookup or Create. */
  lemma NodeClosedAtMostOnce(run: seq<State>, steps: seq<Step>, i: nat, j: nat, n: Node)
    requires HeldRun(run, steps) && i < j < |steps|
    requires n in ClosedBy(run[j], steps[j]) && n in run[j].born
    ensures n !in ClosedBy(run[i], steps[i])
  {
    HeldRunIsLive(run, steps);
    StepReleases(run[i], steps[i]);
    ReleasedGrows(run, steps, i + 1, j);
    LiveRunKeepsNodes(run, steps, j);
    RunKeepsBase(run, steps, j);
    StepClosesOnce(run[j], steps[j]);
  }

  // ---------------------------------------------------------------- a node made for nothing is closed

  ghost predicate InHand(ops: map<Op, OpState>, n: Node) { exists op :: op in ops && HasNew(ops[op]) && ops[op].n == n }

  /** A node Lookup or Create made was bound to some fid, is closed, or is still with its handler. */
  ghost predicate NoneLost(born: map<Node, Op>, refs: map<Node, int>, closed: set<Node>, ops: map<Op, OpState>) {
    forall n :: n in born ==> n in refs || n in closed || InHand(ops, n)
  }

  ghost predicate NoneLostOf(s: State) { NoneLost(s.born, s.refs, s.closed, s.ops) }

  /** A handler that leaves its new node behind has bound it or closed it. */
  lemma HandOver(born: map<Node, Op>, refs: map<Node, int>, refs': map<Node, int>, closed: set<Node>,
                 closed': set<Node>, ops: map<Op, OpState>, op: Op)
    requires NoneLost(born, refs, closed, ops) && op in ops && closed <= closed'
    requires forall n :: n in refs ==> n in refs'
    requires HasNew(ops[op]) ==> ops[op].n in refs' || ops[op].n in closed'
    ensures NoneLost(born, refs', closed', ops - {op})
  {
    forall n | n in born && n !in refs' && n !in closed' ensures InHand(ops - {op}, n) {
      var o :| o in ops && HasNew(ops[o]) && ops[o].n == n;
      assert o in ops - {op};
    }
  }

  lemma StoreLosesNone(s: State, op: Op, act: StoreAct)
    requires NoneLostOf(s) && CanStore(s, op, act)
    ensures Stores(s, op, act) ==> NoneLostOf(DoStore(s, op, act))
    ensures !Stores(s, op, act) ==> NoneLostOf(DoLose(s, op, act))
  {
    if Stores(s, op, act) {
      var s' := DoStore(s, op, act);
      HandOver(s.born, s.refs, s'.refs, s.closed, s'.closed, s.ops, op);
    } else {
      var s' := DoLose(s, op, act);
      HandOver(s.born, s.refs, s'.refs, s.closed, s'.closed, s.ops, op);
    }
  }

  lemma BindLosesNone(s: State, fid: Fid, fs: Fs, act: BindAct)
    requires NoneLostOf(s) && CanBind(s, fid, fs, act)
    ensures NoneLostOf(DoBind(s, fid, fs, act))
  {
    if !act.Attach? {
      var s' := DoBind(s, fid, fs, act);
      HandOver(s.born, s.refs, s'.refs, s.closed, s'.closed, s.ops, act.op);
    }
  }

  lemma LeaveLosesNone(s: State, op: Op, act: OpAct)
    requires NoneLostOf(s) && CanOp(s, op, act) && (act.WalkDrop? || act.Fail?)
    ensures NoneLostOf(DoOp(s, op, act))
  {
    var s' := DoOp(s, op, act);
    HandOver(s.born, s.refs, s'.refs, s.closed, s'.closed, s.ops, op);
  }

  /** A handler that goes on keeps what it has in hand. */
  lemma GoOnLosesNone(s: State, op: Op, act: OpAct)
    requires NoneLostOf(s) && CanOp(s, op, act) && !act.WalkDrop? && !act.Fail?
    ensures NoneLostOf(DoOp(s, op, act))
  {
    var s' := DoOp(s, op, act);
    forall n | n in s'.born && n !in s.refs && n !in s.closed ensures InHand(s'.ops, n) {
      if NewNode(act) == Some(n) {
        assert HasNew(s'.ops[op]) && s'.ops[op].n == n;
      } else {
        var o :| o in s.ops && HasNew(s.ops[o]) && s.ops[o].n == n;
        assert o != op && s'.ops[o] == s.ops[o];
      }
    }
  }

  /** I/O moves no node. */
  lemma IoLosesNone(s: State, op: Op)
    requires NoneLostOf(s)
    ensures CanBeginIO(s, op) ==> NoneLostOf(DoBeginIO(s, op))
    ensures CanEndIO(s, op) ==> NoneLostOf(DoEndIO(s, op))
  {
    if CanBeginIO(s, op) {
      SameInHand(s.ops, DoBeginIO(s, op).ops, op);
    }
    if CanEndIO(s, op) {
      SameInHand(s.ops, DoEndIO(s, op).ops, op);
    }
  }

  lemma SameInHand(ops: map<Op, OpState>, ops': map<Op, OpState>, op: Op)
    requires op in ops && !HasNew(ops[op]) && forall o :: o in ops && o != op ==> o in ops' && ops'[o] == ops[o]
    ensures forall n :: InHand(ops, n) ==> InHand(ops', n)
  {
    forall n | InHand(ops, n) ensures InHand(ops', n) {
      var o :| o in ops && HasNew(ops[o]) && ops[o].n == n;
      assert ops'[o] == ops[o];
    }
  }

  lemma EndLosesNone(s: State, fs: Fs, act: EndAct)
    requires NoneLostOf(s) && CanEnd(s, fs, act)
    ensures NoneLostOf(DoEnd(s, fs, act))
  {
    var s' := DoEnd(s, fs, act);
    assert s'.ops == s.ops && s'.born == s.born && s.closed <= s'.closed;
    EndKeepsKnown(s, fs, act);
  }

  lemma StepLosesNone(s: State, step: Step)
    requires NoneLostOf(s) && Enabled(s, step)
    ensures NoneLostOf(Apply(s, step))
  {
    match step
    case OnOp(op, act) =>
      if act.WalkDrop? || act.Fail? {
        LeaveLosesNone(s, op, act);
      } else {
        GoOnLosesNone(s, op, act);
      }
    case Store(op, act) => StoreLosesNone(s, op, act);
    case Bind(fid, fs, act) => BindLosesNone(s, fid, fs, act);
    case BeginIO(op) => IoLosesNone(s, op);
    case EndIO(op) => IoLosesNone(s, op);
    case Rebind(fid, n) => assert NoneLostOf(DoRebind(s, fid, n));
    case Clunk(fid, remove) => assert NoneLostOf(DoClunk(s, fid, remove));
    case ClunkAll(drained) => assert NoneLostOf(DoClunkAll(s, drained));
    case End(fs, act) => EndLosesNone(s, fs, act);
  }

  ghost predicate NoneLostAt(run: seq<State>, k: nat) { k < |run| && NoneLostOf(run[k]) }

  /** A node that Lookup or Create made and that no fid was ever bound to is closed once its handler is done with it. */
  lemma UnboundNodeIsClosed(run: seq<State>, steps: seq<Step>, k: nat, n: Node)
    requires Run(run, steps) && k < |run| && n in run[k].born && n !in run[k].refs
    requires forall op :: op in run[k].ops && HasNew(run[k].ops[op]) ==> run[k].ops[op].n != n
    ensures n in run[k].closed
  {
    for j := 0 to k
      invariant NoneLostAt(run, j)
    {
      StepLosesNone(run[j], steps[j]);
    }
  }

  // ---------------------------------------------------------------- continuations

  ghost predicate LiveAt(run: seq<State>, steps: seq<Step>, i: nat) {
    i < |steps| && i < |run| && AliasesLive(run[i], steps[i])
  }

  ghost predicate LiveChain(run: seq<State>, steps: seq<Step>) {
    Chain(run, steps) && forall i: nat :: i < |steps| ==> LiveAt(run, steps, i)
  }

  lemma NoSteps(s: State)
    ensures LiveChain([s], [])
  {}

  lemma FirstStep(s: State, step: Step, run: seq<State>, steps: seq<Step>)
    requires LiveChain(run, steps) && Next(s, step, run[0]) && AliasesLive(s, step)
    ensures LiveChain([s] + run, [step] + steps)
  {
    var run', steps' := [s] + run, [step] + steps;
    forall i: nat | i < |steps'| ensures NextAt(run', steps', i) && LiveAt(run', steps', i) {
      if i > 0 {
        assert NextAt(run, steps, i - 1) && LiveAt(run, steps, i - 1);
      }
    }
  }

  lemma RunIsChain(run: seq<State>, steps: seq<Step>)
    ensures LiveRun(run, steps) <==> LiveChain(run, steps) && run[0] == INIT
  {
    if LiveRun(run, steps) {
      forall i: nat | i < |steps| ensures NextAt(run, steps, i) && LiveAt(run, steps, i) {}
    }
    if LiveChain(run, steps) && run[0] == INIT {
      forall i | 0 <= i < |steps|
        ensures Enabled(run[i], steps[i]) && run[i + 1] == Apply(run[i], steps[i]) && AliasesLive(run[i], steps[i])
      {
        assert NextAt(run, steps, i) && LiveAt(run, steps, i);
      }
    }
  }

  /** A live step stays one where it is moved to. */
  lemma MovedAt(run: seq<State>, steps: seq<Step>, k: nat, run': seq<State>, steps': seq<Step>, i: nat)
    requires NextAt(run, steps, k) && LiveAt(run, steps, k) && i < |steps'| && i + 1 < |run'|
    requires run'[i] == run[k] && run'[i + 1] == run[k + 1] && steps'[i] == steps[k]
    ensures NextAt(run', steps', i) && LiveAt(run', steps', i)
  {}

  lemma JoinChains(run: seq<State>, steps: seq<Step>, step: Step, cont: seq<State>, csteps: seq<Step>)
    requires LiveChain(run, steps) && LiveChain(cont, csteps)
    requires Next(run[|steps|], step, cont[0]) && AliasesLive(run[|steps|], step)
    ensures LiveChain(run + cont, steps + [step] + csteps)
  {
    var run', steps' := run + cont, steps + [step] + csteps;
    forall i: nat | i < |steps'| ensures NextAt(run', steps', i) && LiveAt(run', steps', i) {
      if i < |steps| {
        MovedAt(run, steps, i, run', steps', i);
      } else if i == |steps| {
        MovedAt([run[|steps|], cont[0]], [step], 0, run', steps', i);
      } else {
        MovedAt(cont, csteps, i - |steps| - 1, run', steps', i);
      }
    }
  }

  /** A continuation of a run is a run. */
  lemma JoinRuns(run: seq<State>, steps: seq<Step>, step: Step, cont: seq<State>, csteps: seq<Step>)
    requires LiveRun(run, steps) && LiveChain(cont, csteps)
    requires Next(run[|steps|], step, cont[0]) && AliasesLive(run[|steps|], step)
    ensures LiveRun(run + cont, steps + [step] + csteps)
  {
    RunIsChain(run, steps);
    JoinChains(run, steps, step, cont, csteps);
    RunIsChain(run + cont, steps + [step] + csteps);
  }

  // ---------------------------------------------------------------- a close that is due can happen

  /** Everything but the given fid state's own teardown is as it was. */
  ghost predicate SameBindings(s: State, s': State) {
    s'.table == s.table && s'.node == s.node && s.closed <= s'.closed
  }

  lemma SomeRunner(s: State, fs: Fs) returns (op: Op)
    requires IoOk(s.life, s.ioRefs, s.ops) && fs in s.life && s.ioRefs[fs] != 0
    ensures op in s.ops && s.ops[op] == Running(fs)
  {
    assert Runners(s.ops, fs) != {};
    op :| op in Runners(s.ops, fs);
  }

  /** The teardown goes on: nearer its end, and no fid moved. */
  ghost predicate Nearer(s: State, s': State, fs: Fs)
    requires Known(s, fs)
  {
    && SameBindings(s, s') && Known(s', fs) && CloseDue(s'.life[fs], s'.status[fs]) && !s'.life[fs].Unreffed?
    && (s.life[fs].Deferred? ==> 0 <= s'.ioRefs[fs] < s.ioRefs[fs])
  }

  lemma FinishTeardown(s: State, fs: Fs)
    requires Known(s, fs) && CloseDue(s.life[fs], s.status[fs]) && s.life[fs].Unreffed?
    ensures Nearer(s, DoFinishClunk(s, fs), fs)
  {}

  lemma DrainTeardown(s: State, fs: Fs, op: Op)
    requires Base(s) && Known(s, fs) && CloseDue(s.life[fs], s.status[fs]) && s.life[fs].Deferred?
    requires op in Runners(s.ops, fs)
    ensures CanEndIO(s, op) && Nearer(s, DoEndIO(s, op), fs)
  {
    IoEnded(s.life, s.ioRefs, s.ops, op);
  }

  /** The next step of a teardown that is going to close its node. */
  lemma TeardownStep(s: State, fs: Fs) returns (step: Step)
    requires Base(s) && Known(s, fs) && CloseDue(s.life[fs], s.status[fs]) && !s.life[fs].ReleaseDue?
    ensures Enabled(s, step) && AliasesLive(s, step) && Nearer(s, Apply(s, step), fs)
  {
    if s.life[fs].Unreffed? {
      step := End(fs, FinishClunk);
      FinishTeardown(s, fs);
    } else {
      var op := SomeRunner(s, fs);
      step := EndIO(op);
      DrainTeardown(s, fs, op);
    }
  }

  lemma LastTeardownStep(s: State, fs: Fs) returns (run: seq<State>, steps: seq<Step>)
    requires Known(s, fs) && s.life[fs] == ReleaseDue(true)
    ensures LiveChain(run, steps) && run[0] == s
    ensures SameBindings(s, run[|steps|]) && s.node[fs] in run[|steps|].closed
  {
    var s' := DoReleaseNow(s, fs);
    NoSteps(s');
    FirstStep(s, End(fs, ReleaseNow), [s'], []);
    run, steps := [s] + [s'], [End(fs, ReleaseNow)] + [];
  }

  /** It runs to the close of the node, with every fid left where it was. */
  lemma {:induction false} DueCloseHappens(s: State, fs: Fs) returns (run: seq<State>, steps: seq<Step>)
    requires Base(s) && Known(s, fs) && CloseDue(s.life[fs], s.status[fs])
    ensures LiveChain(run, steps) && run[0] == s
    ensures SameBindings(s, run[|steps|]) && s.node[fs] in run[|steps|].closed
    decreases if s.life[fs].Unreffed? then 1 else 0, if fs in s.ioRefs && s.ioRefs[fs] > 0 then s.ioRefs[fs] else 0
  {
    if s.life[fs].ReleaseDue? {
      run, steps := LastTeardownStep(s, fs);
    } else {
      var step := TeardownStep(s, fs);
      var s' := Apply(s, step);
      StepKeepsBase(s, step);
      var rest, more := DueCloseHappens(s', fs);
      FirstStep(s, step, rest, more);
      run, steps := [s] + rest, [step] + more;
      assert run[|steps|] == rest[|more|];
    }
  }

  // ---------------------------------------------------------------- when binding an alias is safe

  /** The fid is bound to the node and the node is closed. */
  ghost predicate BoundToClosed(s: State, fid: Fid, fs: Fs, n: Node) {
    fid in s.table && s.table[fid] == fs && fs in s.node && s.node[fs] == n && n in s.closed
  }

  ghost predicate LeadsToClosed(s: State, fid: Fid, fs: Fs, n: Node, run: seq<State>, steps: seq<Step>) {
    LiveChain(run, steps) && run[0] == s && BoundToClosed(run[|steps|], fid, fs, n)
  }

  lemma EndKeepsKnown(s: State, fs: Fs, act: EndAct)
    requires CanEnd(s, fs, act)
    ensures DoEnd(s, fs, act).born == s.born
    ensures forall n :: n in s.refs ==> n in DoEnd(s, fs, act).refs
  {}

  lemma OthersKeepBorn(s: State, step: Step)
    requires Enabled(s, step) && !step.OnOp?
    ensures Apply(s, step).born == s.born
  {
    match step
    case Store(op, act) =>
      if Stores(s, op, act) {
        assert DoStore(s, op, act).born == s.born;
      } else {
        assert DoLose(s, op, act).born == s.born;
      }
    case End(fs, act) => EndKeepsKnown(s, fs, act);
    case Bind(fid, fs, act) => assert DoBind(s, fid, fs, act).born == s.born;
    case OnOp(_, _) =>
    case BeginIO(op) => assert DoBeginIO(s, op).born == s.born;
    case EndIO(op) => assert DoEndIO(s, op).born == s.born;
    case Rebind(fid, m) => assert DoRebind(s, fid, m).born == s.born;
    case Clunk(fid, remove) => assert DoClunk(s, fid, remove).born == s.born;
    case ClunkAll(drained) => assert DoClunkAll(s, drained).born == s.born;
  }

  /** A node stays known. */
  lemma BornStays(s: State, step: Step, n: Node)
    requires Enabled(s, step) && n in s.born
    ensures n in Apply(s, step).born
  {
    if step.OnOp? {
      assert n in DoOp(s, step.op, step.act).born;
    } else {
      OthersKeepBorn(s, step);
    }
  }

  /** Once bound it stays counted. */
  lemma RefsStay(s: State, step: Step, n: Node)
    requires Enabled(s, step) && n in s.refs
    ensures n in Apply(s, step).refs
  {
    match step
    case Store(op, act) =>
      if Stores(s, op, act) {
        assert n in DoStore(s, op, act).refs;
      } else {
        assert DoLose(s, op, act).refs == s.refs;
      }
    case End(fs, act) => EndKeepsKnown(s, fs, act);
    case Bind(fid, fs, act) => assert n in DoBind(s, fid, fs, act).refs;
    case OnOp(op, act) => assert DoOp(s, op, act).refs == s.refs;
    case BeginIO(op) => assert n in DoBeginIO(s, op).refs;
    case EndIO(op) => assert n in DoEndIO(s, op).refs;
    case Rebind(fid, m) => assert n in DoRebind(s, fid, m).refs;
    case Clunk(fid, remove) => assert n in DoClunk(s, fid, remove).refs;
    case ClunkAll(drained) => assert n in DoClunkAll(s, drained).refs;
  }

  lemma NodeLasts(s: State, step: Step, n: Node)
    requires Enabled(s, step) && n in s.born
    ensures n in Apply(s, step).born && (n in s.refs ==> n in Apply(s, step).refs)
  {
    BornStays(s, step, n);
    if n in s.refs {
      RefsStay(s, step, n);
    }
  }

  lemma {:induction false} BornLasts(run: seq<State>, steps: seq<Step>, i: nat, n: Node)
    requires Chain(run, steps) && i < |run| && n in run[0].born
    ensures n in run[i].born
  {
    if i > 0 {
      BornLasts(run, steps, i - 1, n);
      assert NextAt(run, steps, i - 1);
      NodeLasts(run[i - 1], steps[i - 1], n);
    }
  }

  /**
   Binding an alias can lead to a fid on a closed node exactly when the node is doomed at the time: closed,
   or owed a close by a clunk or sweep in progress.
   */
  lemma AliasIsUnsafeIffDoomed(run: seq<State>, steps: seq<Step>, fid: Fid, fs: Fs, act: BindAct)
    requires LiveRun(run, steps) && act.AliasBind? && CanBind(run[|steps|], fid, fs, act)
    requires BindNode(run[|steps|], act).value in run[|steps|].born
    ensures var s, n := run[|steps|], BindNode(run[|steps|], act).value;
            Doomed(s, n) <==>
            exists cont, csteps :: LeadsToClosed(DoBind(s, fid, fs, act), fid, fs, n, cont, csteps)
  {
    var s, n := run[|steps|], BindNode(run[|steps|], act).value;
    var s' := DoBind(s, fid, fs, act);
    RunKeepsBase(run, steps, |steps|);
    if Doomed(s, n) {
      DoomedAliasIsClosed(s, fid, fs, act);
    } else {
      forall cont, csteps | LeadsToClosed(s', fid, fs, n, cont, csteps) ensures false {
        LiveAliasStaysOpen(run, steps, fid, fs, act, cont, csteps);
      }
    }
  }

  lemma BindKeepsOwing(s: State, fid: Fid, fs: Fs, act: BindAct, owing: Fs, n: Node)
    requires CanBind(s, fid, fs, act) && OwesClose(s, owing, n)
    ensures OwesClose(DoBind(s, fid, fs, act), owing, n)
  {}

  lemma DoomedAliasIsClosed(s: State, fid: Fid, fs: Fs, act: BindAct)
    requires Base(s) && act.AliasBind? && CanBind(s, fid, fs, act) && Doomed(s, BindNode(s, act).value)
    ensures exists cont, csteps ::
              LeadsToClosed(DoBind(s, fid, fs, act), fid, fs, BindNode(s, act).value, cont, csteps)
  {
    var n, s' := BindNode(s, act).value, DoBind(s, fid, fs, act);
    if n in s.closed {
      NoSteps(s');
      assert LeadsToClosed(s', fid, fs, n, [s'], []);
    } else {
      var owing :| OwesClose(s, owing, n);
      BindKeepsBase(s, fid, fs, act);
      BindKeepsOwing(s, fid, fs, act, owing, n);
      var cont, csteps := DueCloseHappens(s', owing);
      assert LeadsToClosed(s', fid, fs, n, cont, csteps);
    }
  }

  lemma LiveAliasStaysOpen(run: seq<State>, steps: seq<Step>, fid: Fid, fs: Fs, act: BindAct,
                           cont: seq<State>, csteps: seq<Step>)
    requires LiveRun(run, steps) && act.AliasBind? && CanBind(run[|steps|], fid, fs, act)
    requires BindNode(run[|steps|], act).value in run[|steps|].born
    requires !Doomed(run[|steps|], BindNode(run[|steps|], act).value)
    requires LiveChain(cont, csteps) && cont[0] == DoBind(run[|steps|], fid, fs, act)
    ensures !BoundToClosed(cont[|csteps|], fid, fs, BindNode(run[|steps|], act).value)
  {
    var s, n := run[|steps|], BindNode(run[|steps|], act).value;
    var all, taken := run + cont, steps + [Bind(fid, fs, act)] + csteps;
    JoinRuns(run, steps, Bind(fid, fs, act), cont, csteps);
    LiveRunKeepsNodes(all, taken, |taken|);
    RunKeepsBase(all, taken, |taken|);
    BornLasts(cont, csteps, |csteps|, n);
    var e := all[|taken|];
    assert e == cont[|csteps|];
    if BoundToClosed(e, fid, fs, n) {
      ClosedIsUnbound(e, n, fid);
    }
  }

  // ---------------------------------------------------------------- how the last holder left decides

  /** The fid state commits an attribute at its clunk, so it will not close, or has not closed, its node. */
  predicate Spared(s: State, fs: Fs) {
    Known(s, fs) && (s.life[fs].Dropped? || (s.life[fs].Unreffed? && !s.life[fs].remove && s.status[fs].XattrWrite?))
  }

  /** The step is a clunk's or a releasing sweep's drop of a reference. */
  predicate DropsToClose(s: State, step: Step) {
    step.End? && Known(s, step.fs) &&
    (step.end.DecRef? || (step.end.SweepOne? && s.life[step.fs].Swept? && s.life[step.fs].drained))
  }

  /** Past its reference, and still the one that answers for the node. */
  ghost predicate Answers(s: State, fs: Fs, n: Node) {
    && Known(s, fs) && s.node[fs] == n && !HoldsRef(s.life[fs]) && !s.life[fs].Leaked?
    && (n in s.closer <==> !Spared(s, fs)) && (n in s.closer ==> s.closer[n] == fs)
  }

  lemma DoomedIffCloser(s: State, n: Node)
    requires Keys(s) && Nodes(s) && n in s.born && n in s.refs
    ensures Doomed(s, n) <==> n in s.closer
  {
    if n in s.closer && n !in s.closed {
      assert OwesClose(s, s.closer[n], n);
    }
    forall fs ensures OwesClose(s, fs, n) ==> n in s.closer {}
  }

  lemma OthersKeepCloser(s: State, step: Step)
    requires Enabled(s, step) && !step.End?
    ensures Apply(s, step).closer == s.closer
  {
    match step
    case Store(op, act) =>
      if Stores(s, op, act) {
        assert DoStore(s, op, act).closer == s.closer;
      } else {
        assert DoLose(s, op, act).closer == s.closer;
      }
    case OnOp(op, act) => assert DoOp(s, op, act).closer == s.closer;
    case Bind(fid, fs, act) => assert DoBind(s, fid, fs, act).closer == s.closer;
    case BeginIO(op) => assert DoBeginIO(s, op).closer == s.closer;
    case EndIO(op) => assert DoEndIO(s, op).closer == s.closer;
    case Rebind(fid, m) => assert DoRebind(s, fid, m).closer == s.closer;
    case Clunk(fid, remove) => assert DoClunk(s, fid, remove).closer == s.closer;
    case ClunkAll(drained) => assert DoClunkAll(s, drained).closer == s.closer;
  }

  lemma EndAddsNoCloser(s: State, fs: Fs, act: EndAct, n: Node)
    requires CanEnd(s, fs, act) && RefsOf(s.refs, n) == 0 && n !in s.closer
    ensures n !in DoEnd(s, fs, act).closer
  {}

  /** While a node has no reference, no step makes a closer for it. */
  lemma NoNewCloser(s: State, step: Step, n: Node)
    requires Enabled(s, step) && RefsOf(s.refs, n) == 0 && n !in s.closer
    ensures n !in Apply(s, step).closer
  {
    if step.End? {
      EndAddsNoCloser(s, step.fs, step.end, n);
    } else {
      OthersKeepCloser(s, step);
    }
  }

  lemma EndKeepsAnswers(s: State, x: Fs, act: EndAct, fs: Fs, n: Node)
    requires Nodes(s) && Answers(s, fs, n) && n in s.born && RefsOf(s.refs, n) == 0 && CanEnd(s, x, act)
    ensures Answers(DoEnd(s, x, act), fs, n)
  {
    match act
    case DecRef => assert Answers(DoDecRef(s, x), fs, n);
    case FinishClunk => assert Answers(DoFinishClunk(s, x), fs, n);
    case ReleaseNow => assert Answers(DoReleaseNow(s, x), fs, n);
    case SweepOne => assert Answers(DoSweepOne(s, x), fs, n);
    case XattrCreate => assert Answers(DoXattrCreate(s, x), fs, n);
  }

  lemma StoreKeepsAnswers(s: State, op: Op, act: StoreAct, fs: Fs, n: Node)
    requires TableOk(s.table, s.life, s.fidOf) && Answers(s, fs, n) && CanStore(s, op, act)
    ensures Stores(s, op, act) ==> Answers(DoStore(s, op, act), fs, n)
    ensures !Stores(s, op, act) ==> Answers(DoLose(s, op, act), fs, n)
  {}

  lemma IoKeepsAnswers(s: State, op: Op, fs: Fs, n: Node)
    requires Answers(s, fs, n) && ClosingOk(s.life, s.closing, s.ioRefs)
    ensures CanBeginIO(s, op) ==> Answers(DoBeginIO(s, op), fs, n)
    ensures CanEndIO(s, op) ==> Answers(DoEndIO(s, op), fs, n)
  {}

  lemma TableKeepsAnswers(s: State, fid: Fid, fs: Fs, n: Node)
    requires TableOk(s.table, s.life, s.fidOf) && Answers(s, fs, n)
    ensures forall m :: CanRebind(s, fid, m) ==> Answers(DoRebind(s, fid, m), fs, n)
    ensures forall remove :: fid in s.table ==> Answers(DoClunk(s, fid, remove), fs, n)
  {}

  lemma SweepKeepsAnswers(s: State, drained: bool, fs: Fs, n: Node)
    requires Answers(s, fs, n)
    ensures Answers(DoClunkAll(s, drained), fs, n)
  {}

  lemma BindKeepsAnswers(s: State, fid: Fid, x: Fs, act: BindAct, fs: Fs, n: Node)
    requires Answers(s, fs, n) && CanBind(s, fid, x, act)
    ensures Answers(DoBind(s, fid, x, act), fs, n)
  {}

  lemma OthersKeepAnswers(s: State, step: Step, fs: Fs, n: Node)
    requires TableOk(s.table, s.life, s.fidOf) && ClosingOk(s.life, s.closing, s.ioRefs)
    requires Answers(s, fs, n) && Enabled(s, step) && !step.End?
    ensures Answers(Apply(s, step), fs, n)
  {
    match step
    case Store(op, act) => StoreKeepsAnswers(s, op, act, fs, n);
    case OnOp(op, act) => assert Answers(DoOp(s, op, act), fs, n);
    case Bind(fid, x, act) => BindKeepsAnswers(s, fid, x, act, fs, n);
    case BeginIO(op) => IoKeepsAnswers(s, op, fs, n);
    case EndIO(op) => IoKeepsAnswers(s, op, fs, n);
    case Rebind(fid, m) => TableKeepsAnswers(s, fid, fs, n);
    case Clunk(fid, remove) => TableKeepsAnswers(s, fid, fs, n);
    case ClunkAll(drained) => SweepKeepsAnswers(s, drained, fs, n);
  }

  lemma StepKeepsAnswers(s: State, step: Step, fs: Fs, n: Node)
    requires Nodes(s) && TableOk(s.table, s.life, s.fidOf) && ClosingOk(s.life, s.closing, s.ioRefs)
    requires Answers(s, fs, n) && n in s.born && RefsOf(s.refs, n) == 0 && Enabled(s, step)
    ensures Answers(Apply(s, step), fs, n)
  {
    if step.End? {
      EndKeepsAnswers(s, step.fs, step.end, fs, n);
    } else {
      OthersKeepAnswers(s, step, fs, n);
    }
  }

  /** The step that takes the last reference settles who answers for the node, or that nobody does. */
  lemma LastDrop(s: State, step: Step, n: Node)
    requires Keys(s) && Nodes(s) && n in s.born && RefsOf(s.refs, n) == 1
    requires Enabled(s, step) && RefsOf(Apply(s, step).refs, n) == 0
    ensures if DropsToClose(s, step) then Answers(Apply(s, step), step.fs, n) else n !in Apply(s, step).closer
  {
    if step.End? {
      LastDropByEnd(s, step.fs, step.end, n);
    } else {
      OthersKeepCloser(s, step);
    }
  }

  lemma LastDropByEnd(s: State, fs: Fs, act: EndAct, n: Node)
    requires Nodes(s) && n in s.born && RefsOf(s.refs, n) == 1
    requires CanEnd(s, fs, act) && RefsOf(DoEnd(s, fs, act).refs, n) == 0
    ensures if DropsToClose(s, End(fs, act)) then Answers(DoEnd(s, fs, act), fs, n) else n !in DoEnd(s, fs, act).closer
  {
    match act
    case DecRef => assert Answers(DoDecRef(s, fs), fs, n);
    case SweepOne =>
      if s.life[fs].drained {
        assert Answers(DoSweepOne(s, fs), fs, n);
      } else {
        assert n !in DoSweepOne(s, fs).closer;
      }
    case _ =>
  }

  /** From the step that took the last reference on, the node has none. */
  ghost predicate LeftAt(run: seq<State>, j: nat, i: nat, n: Node) {
    && j < i < |run| && n in run[j].born && RefsOf(run[j].refs, n) == 1
    && forall k: nat :: j < k <= i ==> RefsOf(run[k].refs, n) == 0
  }

  lemma LeftHasNone(run: seq<State>, j: nat, i: nat, n: Node)
    requires LeftAt(run, j, i, n)
    ensures RefsOf(run[i].refs, n) == 0
  {}

  ghost predicate Settles(s: State, step: Step, s': State, n: Node) {
    if DropsToClose(s, step) then Answers(s', step.fs, n) else n !in s'.closer
  }

  lemma {:induction false} LastDropLasts(run: seq<State>, steps: seq<Step>, j: nat, i: nat, n: Node)
    requires LiveRun(run, steps) && LeftAt(run, j, i, n)
    ensures Settles(run[j], steps[j], run[i], n) && n in run[i].born && n in run[i].refs
  {
    var k := i - 1;
    LiveRunKeepsNodes(run, steps, k);
    RunKeepsBase(run, steps, k);
    assert RefsOf(run[k + 1].refs, n) == 0;
    if k == j {
      LastDrop(run[j], steps[j], n);
    } else {
      LastDropLasts(run, steps, j, k, n);
      if DropsToClose(run[j], steps[j]) {
        StepKeepsAnswers(run[k], steps[k], steps[j].fs, n);
      } else {
        NoNewCloser(run[k], steps[k], n);
      }
    }
    NodeLasts(run[k], steps[k], n);
  }

  /**
   With no reference left, a node is doomed exactly when its last holder left by a clunk, a remove or a releasing
   sweep, and is not an xattr-write fid that commits instead. A holder displaced by a walk or create, or swept
   without release, leaves the node open.
   */
  lemma LastHolderDecides(run: seq<State>, steps: seq<Step>, j: nat, i: nat, n: Node)
    requires LiveRun(run, steps) && LeftAt(run, j, i, n)
    ensures Doomed(run[i], n) <==> DropsToClose(run[j], steps[j]) && !Spared(run[i], steps[j].fs)
  {
    LastDropLasts(run, steps, j, i, n);
    LiveRunKeepsNodes(run, steps, i);
    RunKeepsBase(run, steps, i);
    DoomedIffCloser(run[i], n);
  }

  // ---------------------------------------------------------------- a node without references had a last holder

  /** A step takes at most one reference from a node, and a node it counts for the first time has one. */
  ghost predicate DropsOne(refs: map<Node, int>, refs': map<Node, int>, n: Node) {
    RefsOf(refs', n) >= RefsOf(refs, n) - 1 && (n !in refs && n in refs' ==> RefsOf(refs', n) > 0)
  }

  lemma SwapDropsOne(refs: map<Node, int>, n: Node, next: Node, prev: Node)
    requires prev in refs
    ensures DropsOne(refs, Dec(Inc(refs, next), prev), n)
  {}

  lemma StoreDropsOne(s: State, op: Op, act: StoreAct, n: Node)
    requires Base(s) && CanStore(s, op, act) && Stores(s, op, act)
    ensures DropsOne(s.refs, DoStore(s, op, act).refs, n)
  {
    var fs := s.table[StoreFid(s, op, act)];
    BoundHolds(s.life, s.node, s.refs, fs);
    if !act.OpenStore? {
      SwapDropsOne(s.refs, n, s.ops[op].n, s.node[fs]);
    }
  }

  lemma EndDropsOne(s: State, fs: Fs, act: EndAct, n: Node)
    requires Base(s) && CanEnd(s, fs, act)
    ensures DropsOne(s.refs, DoEnd(s, fs, act).refs, n)
  {
    if act.DecRef? || act.SweepOne? {
      BoundHolds(s.life, s.node, s.refs, fs);
    }
  }

  lemma RebindDropsOne(s: State, fid: Fid, m: Node, n: Node)
    requires Base(s) && CanRebind(s, fid, m)
    ensures DropsOne(s.refs, DoRebind(s, fid, m).refs, n)
  {
    BoundHolds(s.life, s.node, s.refs, s.table[fid]);
    SwapDropsOne(s.refs, n, m, s.node[s.table[fid]]);
  }

  lemma StepDropsOne(s: State, step: Step, n: Node)
    requires Base(s) && Enabled(s, step)
    ensures DropsOne(s.refs, Apply(s, step).refs, n)
  {
    match step
    case Store(op, act) =>
      if Stores(s, op, act) {
        StoreDropsOne(s, op, act, n);
      } else {
        assert DoLose(s, op, act).refs == s.refs;
      }
    case End(fs, act) => EndDropsOne(s, fs, act, n);
    case Rebind(fid, m) => RebindDropsOne(s, fid, m, n);
    case Bind(fid, fs, act) => assert DropsOne(s.refs, DoBind(s, fid, fs, act).refs, n);
    case OnOp(op, act) => assert DoOp(s, op, act).refs == s.refs;
    case BeginIO(op) => assert DoBeginIO(s, op).refs == s.refs;
    case EndIO(op) => assert DoEndIO(s, op).refs == s.refs;
    case Clunk(fid, remove) => assert DoClunk(s, fid, remove).refs == s.refs;
    case ClunkAll(drained) => assert DoClunkAll(s, drained).refs == s.refs;
  }

  /** A node that is counted is not made by a Lookup or Create yet to come. */
  lemma CountedIsBorn(s: State, step: Step, n: Node)
    requires Enabled(s, step) && n in s.refs && n in Apply(s, step).born
    ensures n in s.born
  {
    if step.OnOp? {
      assert n in DoOp(s, step.op, step.act).born;
    } else {
      OthersKeepBorn(s, step);
    }
  }

  ghost predicate Bereft(s: State, n: Node) { n in s.born && n in s.refs && RefsOf(s.refs, n) == 0 }

  lemma {:induction false} SomeHolderLeft(run: seq<State>, steps: seq<Step>, i: nat, n: Node) returns (j: nat)
    requires Run(run, steps) && i < |run| && Bereft(run[i], n)
    ensures LeftAt(run, j, i, n)
  {
    var k := i - 1;
    var s := run[k];
    RunKeepsBase(run, steps, k);
    assert run[k + 1] == Apply(s, steps[k]);
    StepDropsOne(s, steps[k], n);
    CountedIsBorn(s, steps[k], n);
    if RefsOf(s.refs, n) > 0 {
      j := k;
    } else {
      RefsAreCounts(s, n);
      j := SomeHolderLeft(run, steps, k, n);
    }
  }

  lemma RefsAreCounts(s: State, n: Node)
    requires RefsOk(s.life, s.node, s.refs)
    ensures RefsOf(s.refs, n) >= 0
  {}

  /** The last holder of the node left by a drop that closes it. */
  ghost predicate LeftToClose(run: seq<State>, steps: seq<Step>, j: nat, n: Node) {
    && |run| == |steps| + 1 && j < |steps| && LeftAt(run, j, |steps|, n)
    && DropsToClose(run[j], steps[j]) && !Spared(run[|steps|], steps[j].fs)
  }

  /**
   So binding an alias can lead to a fid on a closed node exactly when the node has no reference left and its last
   holder left by a clunk, a remove or a releasing sweep that closes it.
   */
  lemma AliasIsUnsafeIffLeftToClose(run: seq<State>, steps: seq<Step>, fid: Fid, fs: Fs, act: BindAct)
    requires LiveRun(run, steps) && act.AliasBind? && CanBind(run[|steps|], fid, fs, act)
    requires BindNode(run[|steps|], act).value in run[|steps|].born
    ensures var s, n := run[|steps|], BindNode(run[|steps|], act).value;
            (exists cont, csteps :: LeadsToClosed(DoBind(s, fid, fs, act), fid, fs, n, cont, csteps)) <==>
            exists j :: LeftToClose(run, steps, j, n)
  {
    var s, n := run[|steps|], BindNode(run[|steps|], act).value;
    AliasIsUnsafeIffDoomed(run, steps, fid, fs, act);
    DoomedIffLeftToClose(run, steps, act.op, n);
  }

  lemma DoomedIffLeftToClose(run: seq<State>, steps: seq<Step>, op: Op, n: Node)
    requires LiveRun(run, steps) && n in run[|steps|].born
    requires op in run[|steps|].ops && run[|steps|].ops[op] == Aliasing(n)
    ensures Doomed(run[|steps|], n) <==> exists j :: LeftToClose(run, steps, j, n)
  {
    var s := run[|steps|];
    LiveRunKeepsNodes(run, steps, |steps|);
    RunKeepsBase(run, steps, |steps|);
    RefsAreCounts(s, n);
    if RefsOf(s.refs, n) > 0 {
      HeldIsLive(s, n);
      forall j | LeftToClose(run, steps, j, n) ensures false {
        LeftHasNone(run, j, |steps|, n);
      }
    } else {
      var j := SomeHolderLeft(run, steps, |steps|, n);
      LastHolderDecides(run, steps, j, |steps|, n);
      assert Doomed(s, n) ==> LeftToClose(run, steps, j, n);
      forall i | LeftToClose(run, steps, i, n) ensures Doomed(s, n) {
        LastHolderDecides(run, steps, i, |steps|, n);
      }
    }
  }

  // ---------------------------------------------------------------- the race that breaks it

  /** A fid state that is bound, idle, not in xattr-write mode, and alone on its node. */
  ghost predicate LoneIdle(s: State, fid: Fid) {
    && fid in s.table && Known(s, s.table[fid])
    && s.ioRefs[s.table[fid]] == 0 && !s.status[s.table[fid]].XattrWrite?
    && RefsOf(s.refs, s.node[s.table[fid]]) == 1
  }

  /** An idle fid state whose clunk has taken its node's last reference runs to the node's close. */
  lemma LastRefCloses(s: State, fs: Fs) returns (s1: State, s2: State)
    requires Known(s, fs) && s.life[fs] == Unreffed(false, true) && s.ioRefs[fs] == 0 && !s.status[fs].XattrWrite?
    ensures Next(s, End(fs, FinishClunk), s1) && Next(s1, End(fs, ReleaseNow), s2)
    ensures s.node[fs] in s2.closed && s2.table == s.table && s2.ops == s.ops
    ensures s2.life.Keys == s.life.Keys && s2.node == s.node && s2.born == s.born
  {
    s1 := DoFinishClunk(s, fs);
    assert s1.life[fs] == ReleaseDue(true);
    s2 := DoReleaseNow(s1, fs);
  }

  /** Clunking such a fid runs to the close of its node. */
  lemma LoneClunkCloses(s: State, fid: Fid) returns (s1: State, s2: State, s3: State, s4: State)
    requires LoneIdle(s, fid)
    ensures var fs := s.table[fid];
            && Next(s, Clunk(fid, false), s1) && Next(s1, End(fs, DecRef), s2)
            && Next(s2, End(fs, FinishClunk), s3) && Next(s3, End(fs, ReleaseNow), s4)
            && s.node[fs] in s4.closed && s4.table == s.table - {fid} && s4.ops == s.ops
            && s4.life.Keys == s.life.Keys && s4.node == s.node && s4.born == s.born
  {
    var fs := s.table[fid];
    s1 := DoClunk(s, fid, false);
    s2 := DoDecRef(s1, fs);
    assert s2.life[fs] == Unreffed(false, true);
    s3, s4 := LastRefCloses(s2, fs);
  }

  lemma CloneReads(s: State, fid: Fid, op: Op) returns (s1: State)
    requires LoneIdle(s, fid) && op !in s.ops
    ensures Next(s, OnOp(op, AliasRead(fid)), s1) && s1 == s.(ops := s.ops[op := Aliasing(s.node[s.table[fid]])])
  {
    s1 := DoOp(s, op, AliasRead(fid));
  }

  lemma CloneBinds(s: State, op: Op, fid: Fid, fs: Fs) returns (s1: State)
    requires op in s.ops && s.ops[op].Aliasing? && fid !in s.table && fs !in s.life
    ensures Next(s, Bind(fid, fs, AliasBind(op, false)), s1)
    ensures s1.table == s.table[fid := fs] && s1.node == s.node[fs := s.ops[op].n]
    ensures s1.closed == s.closed && s1.born == s.born
  {
    s1 := DoBind(s, fid, fs, AliasBind(op, false));
  }

  /**
   A clone that reads its source's node just before such a clunk, and binds just after it, leaves
   a fid bound to a closed node.
   */
  lemma OverlappingCloneBindsClosedNode(s: State, fid: Fid, op: Op, newFid: Fid, newFs: Fs)
    returns (s1: State, s2: State, s3: State, s4: State, s5: State, s6: State)
    requires LoneIdle(s, fid) && op !in s.ops && newFid !in s.table && newFs !in s.life
    ensures Next(s, OnOp(op, AliasRead(fid)), s1) && Next(s1, Clunk(fid, false), s2)
    ensures Next(s2, End(s.table[fid], DecRef), s3) && Next(s3, End(s.table[fid], FinishClunk), s4)
    ensures Next(s4, End(s.table[fid], ReleaseNow), s5) && Next(s5, Bind(newFid, newFs, AliasBind(op, false)), s6)
    ensures BoundToClosed(s6, newFid, newFs, s.node[s.table[fid]]) && s6.born == s.born
  {
    s1 := CloneReads(s, fid, op);
    s2, s3, s4, s5 := LoneClunkCloses(s1, fid);
    s6 := CloneBinds(s5, op, newFid, newFs);
  }

  /** A walk to node 7, from the start of a connection, that binds it to fid 5. */
  lemma WalkedFid() returns (s1: State, s2: State)
    ensures Next(INIT, OnOp(1, LookUp(7)), s1) && Next(s1, Bind(5, 11, WalkBind(1)), s2)
    ensures LoneIdle(s2, 5) && s2.table == map[5 := 11] && s2.ops == map[] && s2.life.Keys == {11}
    ensures s2.node == map[11 := 7] && 7 in s2.born
  {
    s1 := DoOp(INIT, 1, LookUp(7));
    assert s1.ops == map[1 := Resolved(7)];
    s2 := DoBind(s1, 5, 11, WalkBind(1));
  }

  /** The race is reachable: a run from the start of a connection that ends with fid 6 on the closed node 7. */
  lemma CloneRaceIsReachable() returns (run: seq<State>, steps: seq<Step>)
    ensures Run(run, steps) && 7 in run[|steps|].born && BoundToClosed(run[|steps|], 6, 12, 7)
  {
    var a1, a2 := WalkedFid();
    var s1, s2, s3, s4, s5, s6 := OverlappingCloneBindsClosedNode(a2, 5, 2, 6, 12);
    run, steps := RunMore([INIT], [], OnOp(1, LookUp(7)), a1);
    run, steps := RunMore(run, steps, Bind(5, 11, WalkBind(1)), a2);
    run, steps := RunMore(run, steps, OnOp(2, AliasRead(5)), s1);
    run, steps := RunMore(run, steps, Clunk(5, false), s2);
    run, steps := RunMore(run, steps, End(11, DecRef), s3);
    run, steps := RunMore(run, steps, End(11, FinishClunk), s4);
    run, steps := RunMore(run, steps, End(11, ReleaseNow), s5);
    run, steps := RunMore(run, steps, Bind(6, 12, AliasBind(2, false)), s6);
  }
}
