/** What every step keeps about the nodes made by Lookup and Create, when aliases bind live nodes only. */
module FidNodeProof {
  import opened FidMachine
  import opened FidProof

  /** A node that no fid was ever bound to belongs to the one handler that made it. */
  ghost predicate NewOk(ops: map<Op, OpState>, refs: map<Node, int>, closed: set<Node>, closer: map<Node, Fs>,
                        born: map<Node, Op>) {
    forall op :: op in ops && HasNew(ops[op]) ==>
      && ops[op].n in born && born[ops[op].n] == op
      && ops[op].n !in refs && ops[op].n !in closed && ops[op].n !in closer
  }

  ghost predicate AliasOk(ops: map<Op, OpState>, refs: map<Node, int>) {
    forall op :: op in ops && ops[op].Aliasing? ==> ops[op].n in refs
  }

  /** A node with a closer has no reference left, and its closer alone closes it, once. */
  ghost predicate CloserOk(life: map<Fs, Life>, status: map<Fs, Status>, node: map<Fs, Node>, refs: map<Node, int>,
                           closed: set<Node>, closer: map<Node, Fs>, born: map<Node, Op>) {
    forall n :: n in closer && n in born ==>
      && RefsOf(refs, n) == 0
      && closer[n] in life && closer[n] in status && closer[n] in node && node[closer[n]] == n
      && if n in closed then life[closer[n]].Released? else CloseDue(life[closer[n]], status[closer[n]])
  }

  ghost predicate PendingOk(life: map<Fs, Life>, status: map<Fs, Status>, node: map<Fs, Node>, closer: map<Node, Fs>,
                            born: map<Node, Op>) {
    forall fs :: fs in life && fs in status && fs in node && CloseDue(life[fs], status[fs]) && node[fs] in born ==>
      node[fs] in closer && closer[node[fs]] == fs
  }

  ghost predicate ClosedOk(refs: map<Node, int>, closed: set<Node>, closer: map<Node, Fs>, born: map<Node, Op>) {
    && (forall n :: n in closer ==> n in refs)
    && (forall n :: n in closed && n in born ==> RefsOf(refs, n) == 0 && (n in refs ==> n in closer))
  }

  ghost predicate Nodes(s: State) {
    && NewOk(s.ops, s.refs, s.closed, s.closer, s.born)
    && AliasOk(s.ops, s.refs)
    && CloserOk(s.life, s.status, s.node, s.refs, s.closed, s.closer, s.born)
    && PendingOk(s.life, s.status, s.node, s.closer, s.born)
    && ClosedOk(s.refs, s.closed, s.closer, s.born)
  }

  // ---------------------------------------------------------------- binding

  /** What binding a node needs: nobody has closed it or is about to. */
  ghost predicate Bindable(closed: set<Node>, closer: map<Node, Fs>, born: map<Node, Op>, n: Node) {
    n in born ==> n !in closed && n !in closer
  }

  lemma CloserBound(life: map<Fs, Life>, status: map<Fs, Status>, node: map<Fs, Node>, refs: map<Node, int>,
                    closed: set<Node>, closer: map<Node, Fs>, born: map<Node, Op>, fs: Fs, n: Node, st: Status)
    requires CloserOk(life, status, node, refs, closed, closer, born) && PendingOk(life, status, node, closer, born)
    requires ClosedOk(refs, closed, closer, born)
    requires fs !in life && Bindable(closed, closer, born, n)
    ensures CloserOk(life[fs := Bound], status[fs := st], node[fs := n], Inc(refs, n), closed, closer, born)
    ensures PendingOk(life[fs := Bound], status[fs := st], node[fs := n], closer, born)
    ensures ClosedOk(Inc(refs, n), closed, closer, born)
  {}

  lemma BindKeepsNew(s: State, fid: Fid, fs: Fs, act: BindAct)
    requires NewOk(s.ops, s.refs, s.closed, s.closer, s.born) && AliasOk(s.ops, s.refs)
    requires CanBind(s, fid, fs, act)
    ensures var s' := DoBind(s, fid, fs, act);
            NewOk(s'.ops, s'.refs, s'.closed, s'.closer, s'.born) && AliasOk(s'.ops, s'.refs)
  {}

  lemma BindKeepsNodes(s: State, fid: Fid, fs: Fs, act: BindAct)
    requires Keys(s) && Nodes(s) && CanBind(s, fid, fs, act) && AliasesLive(s, Bind(fid, fs, act))
    ensures Nodes(DoBind(s, fid, fs, act))
  {
    var n := BindNode(s, act).value;
    BindKeepsNew(s, fid, fs, act);
    if act.AliasBind? && n in s.born {
      assert n in s.closer && n !in s.closed ==> OwesClose(s, s.closer[n], n);
    }
    CloserBound(s.life, s.status, s.node, s.refs, s.closed, s.closer, s.born, fs, n,
                DoBind(s, fid, fs, act).status[fs]);
  }

  lemma CloserSwapped(life: map<Fs, Life>, status: map<Fs, Status>, node: map<Fs, Node>, refs: map<Node, int>,
                      closed: set<Node>, closer: map<Node, Fs>, born: map<Node, Op>, fs: Fs, n: Node)
    requires CloserOk(life, status, node, refs, closed, closer, born) && PendingOk(life, status, node, closer, born)
    requires ClosedOk(refs, closed, closer, born)
    requires fs in life && fs in node && life[fs].Bound? && RefsOf(refs, node[fs]) >= 1
    requires Bindable(closed, closer, born, n)
    ensures CloserOk(life, status, node[fs := n], Dec(Inc(refs, n), node[fs]), closed, closer, born)
    ensures PendingOk(life, status, node[fs := n], closer, born)
    ensures ClosedOk(Dec(Inc(refs, n), node[fs]), closed, closer, born)
  {}

  lemma BoundHolds(life: map<Fs, Life>, node: map<Fs, Node>, refs: map<Node, int>, fs: Fs)
    requires RefsOk(life, node, refs) && fs in life && fs in node && HoldsRef(life[fs])
    ensures RefsOf(refs, node[fs]) >= 1 && node[fs] in refs
  {
    assert fs in Holders(life, node, node[fs]);
  }

  lemma BoundStatus(life: map<Fs, Life>, status: map<Fs, Status>, node: map<Fs, Node>, refs: map<Node, int>,
                    closed: set<Node>, closer: map<Node, Fs>, born: map<Node, Op>, fs: Fs, st: Status)
    requires CloserOk(life, status, node, refs, closed, closer, born) && PendingOk(life, status, node, closer, born)
    requires fs in life && fs in status && life[fs].Bound?
    ensures CloserOk(life, status[fs := st], node, refs, closed, closer, born)
    ensures PendingOk(life, status[fs := st], node, closer, born)
    ensures st == status[fs] ==> status[fs := st] == status
  {}

  lemma StoreKeepsNew(s: State, op: Op, act: StoreAct)
    requires NewOk(s.ops, s.refs, s.closed, s.closer, s.born) && AliasOk(s.ops, s.refs)
    requires CanStore(s, op, act) && Stores(s, op, act)
    requires Known(s, s.table[StoreFid(s, op, act)]) && s.node[s.table[StoreFid(s, op, act)]] in s.refs
    ensures var s' := DoStore(s, op, act);
            NewOk(s'.ops, s'.refs, s'.closed, s'.closer, s'.born) && AliasOk(s'.ops, s'.refs)
  {}

  lemma StoreKeepsNodes(s: State, op: Op, act: StoreAct)
    requires Nodes(s) && RefsOk(s.life, s.node, s.refs) && TableOk(s.table, s.life, s.fidOf)
    requires CanStore(s, op, act) && Stores(s, op, act)
    ensures Nodes(DoStore(s, op, act))
  {
    var fs := s.table[StoreFid(s, op, act)];
    BoundHolds(s.life, s.node, s.refs, fs);
    StoreKeepsNew(s, op, act);
    var s' := DoStore(s, op, act);
    BoundStatus(s.life, s.status, s.node, s.refs, s.closed, s.closer, s.born, fs, s'.status[fs]);
    if !act.OpenStore? {
      CloserSwapped(s.life, s'.status, s.node, s.refs, s.closed, s.closer, s.born, fs, s.ops[op].n);
    }
  }

  lemma RebindKeepsNodes(s: State, fid: Fid, n: Node)
    requires Nodes(s) && RefsOk(s.life, s.node, s.refs) && TableOk(s.table, s.life, s.fidOf) && CanRebind(s, fid, n)
    ensures Nodes(DoRebind(s, fid, n))
  {
    var s', fs := DoRebind(s, fid, n), s.table[fid];
    BoundHolds(s.life, s.node, s.refs, fs);
    assert NewOk(s.ops, s'.refs, s.closed, s.closer, s.born) && AliasOk(s.ops, s'.refs);
    CloserSwapped(s.life, s.status, s.node, s.refs, s.closed, s.closer, s.born, fs, n);
  }

  // ---------------------------------------------------------------- closing a node no fid was bound to

  lemma LoseKeepsNodes(s: State, op: Op, act: StoreAct)
    requires Nodes(s) && CanStore(s, op, act) && !act.WalkInPlace?
    ensures Nodes(DoLose(s, op, act))
    ensures Orphan(s, op, act) !! s.closed
  {}

  lemma OpKeepsNew(s: State, op: Op, act: OpAct)
    requires NewOk(s.ops, s.refs, s.closed, s.closer, s.born) && AliasOk(s.ops, s.refs)
    requires ClosedOk(s.refs, s.closed, s.closer, s.born) && RefsOk(s.life, s.node, s.refs)
    requires CanOp(s, op, act)
    ensures var s' := DoOp(s, op, act);
            NewOk(s'.ops, s'.refs, s'.closed, s'.closer, s'.born) && AliasOk(s'.ops, s'.refs)
  {}

  lemma OpKeepsCloser(s: State, op: Op, act: OpAct)
    requires Nodes(s) && RefsOk(s.life, s.node, s.refs) && CanOp(s, op, act)
    ensures var s' := DoOp(s, op, act);
            && CloserOk(s'.life, s'.status, s'.node, s'.refs, s'.closed, s'.closer, s'.born)
            && PendingOk(s'.life, s'.status, s'.node, s'.closer, s'.born)
            && ClosedOk(s'.refs, s'.closed, s'.closer, s'.born)
  {}

  lemma OpKeepsNodes(s: State, op: Op, act: OpAct)
    requires Nodes(s) && RefsOk(s.life, s.node, s.refs) && CanOp(s, op, act)
    ensures Nodes(DoOp(s, op, act))
    ensures Unwanted(s, op, act) !! s.closed
  {
    OpKeepsNew(s, op, act);
    OpKeepsCloser(s, op, act);
  }

  // ---------------------------------------------------------------- the end of a fid

  /** A fid state changes stage, owing a close after as before. */
  lemma StageKeepsCloser(life: map<Fs, Life>, status: map<Fs, Status>, node: map<Fs, Node>, refs: map<Node, int>,
                         closed: set<Node>, closer: map<Node, Fs>, born: map<Node, Op>, fs: Fs, after: Life)
    requires CloserOk(life, status, node, refs, closed, closer, born) && PendingOk(life, status, node, closer, born)
    requires fs in life && fs in status && !life[fs].Released?
    requires CloseDue(after, status[fs]) == CloseDue(life[fs], status[fs])
    ensures CloserOk(life[fs := after], status, node, refs, closed, closer, born)
    ensures PendingOk(life[fs := after], status, node, closer, born)
  {}

  /** A reference is dropped. If it was the last and the fid state is to close the node, it becomes the closer. */
  lemma CloserDropped(life: map<Fs, Life>, status: map<Fs, Status>, node: map<Fs, Node>, refs: map<Node, int>,
                      closed: set<Node>, closer: map<Node, Fs>, born: map<Node, Op>, fs: Fs, after: Life)
    requires CloserOk(life, status, node, refs, closed, closer, born) && PendingOk(life, status, node, closer, born)
    requires ClosedOk(refs, closed, closer, born)
    requires fs in life && fs in status && fs in node && RefsOf(refs, node[fs]) >= 1 && node[fs] in refs
    requires CloseDue(after, status[fs]) ==> RefsOf(refs, node[fs]) == 1
    ensures var closer' := if CloseDue(after, status[fs]) then closer[node[fs] := fs] else closer;
            && CloserOk(life[fs := after], status, node, Dec(refs, node[fs]), closed, closer', born)
            && PendingOk(life[fs := after], status, node, closer', born)
            && ClosedOk(Dec(refs, node[fs]), closed, closer', born)
  {}

  lemma DropKeepsNew(s: State, fs: Fs, last: bool)
    requires NewOk(s.ops, s.refs, s.closed, s.closer, s.born) && AliasOk(s.ops, s.refs)
    requires fs in s.node && s.node[fs] in s.refs
    ensures NewOk(s.ops, Dec(s.refs, s.node[fs]), s.closed,
                  if last then s.closer[s.node[fs] := fs] else s.closer, s.born)
    ensures AliasOk(s.ops, Dec(s.refs, s.node[fs]))
  {}

  lemma DecRefKeepsNodes(s: State, fs: Fs)
    requires Nodes(s) && RefsOk(s.life, s.node, s.refs) && CanEnd(s, fs, DecRef)
    ensures Nodes(DoDecRef(s, fs))
  {
    BoundHolds(s.life, s.node, s.refs, fs);
    DropKeepsNew(s, fs, LastRef(s, fs) && !WillDrop(s, fs));
    CloserDropped(s.life, s.status, s.node, s.refs, s.closed, s.closer, s.born, fs,
                  Unreffed(s.life[fs].remove, LastRef(s, fs)));
  }

  lemma SweepKeepsNodes(s: State, fs: Fs)
    requires Nodes(s) && RefsOk(s.life, s.node, s.refs) && CanEnd(s, fs, SweepOne)
    ensures Nodes(DoSweepOne(s, fs))
  {
    BoundHolds(s.life, s.node, s.refs, fs);
    DropKeepsNew(s, fs, LastRef(s, fs) && s.life[fs].drained);
    CloserDropped(s.life, s.status, s.node, s.refs, s.closed, s.closer, s.born, fs,
                  if s.life[fs].drained then ReleaseDue(LastRef(s, fs)) else Leaked);
  }

  lemma FinishKeepsNodes(s: State, fs: Fs)
    requires Nodes(s) && CanEnd(s, fs, FinishClunk)
    ensures Nodes(DoFinishClunk(s, fs))
  {
    StageKeepsCloser(s.life, s.status, s.node, s.refs, s.closed, s.closer, s.born, fs, FinishLife(s, fs));
  }

  /** A fid state turned to xattr-write after its clunk began no longer closes its node. */
  lemma CloserForgotten(life: map<Fs, Life>, status: map<Fs, Status>, node: map<Fs, Node>, refs: map<Node, int>,
                        closed: set<Node>, closer: map<Node, Fs>, born: map<Node, Op>, fs: Fs)
    requires CloserOk(life, status, node, refs, closed, closer, born) && PendingOk(life, status, node, closer, born)
    requires ClosedOk(refs, closed, closer, born)
    requires fs in life && fs in status && fs in node && status[fs].Allocated?
    ensures var forgets := life[fs].Unreffed? && life[fs].last && !life[fs].remove;
            var closer' := if forgets then closer - {node[fs]} else closer;
            && CloserOk(life, status[fs := XattrWrite], node, refs, closed, closer', born)
            && PendingOk(life, status[fs := XattrWrite], node, closer', born)
            && ClosedOk(refs, closed, closer', born)
  {}

  lemma XattrCreateKeepsNodes(s: State, fs: Fs)
    requires Nodes(s) && CanEnd(s, fs, XattrCreate)
    ensures Nodes(DoXattrCreate(s, fs))
  {
    CloserForgotten(s.life, s.status, s.node, s.refs, s.closed, s.closer, s.born, fs);
  }

  lemma CloserReleased(life: map<Fs, Life>, status: map<Fs, Status>, node: map<Fs, Node>, refs: map<Node, int>,
                       closed: set<Node>, closer: map<Node, Fs>, born: map<Node, Op>, fs: Fs)
    requires CloserOk(life, status, node, refs, closed, closer, born) && PendingOk(life, status, node, closer, born)
    requires ClosedOk(refs, closed, closer, born)
    requires fs in life && fs in status && fs in node && life[fs].ReleaseDue?
    ensures var closed' := if life[fs].last then closed + {node[fs]} else closed;
            && CloserOk(life[fs := Released], status, node, refs, closed', closer, born)
            && PendingOk(life[fs := Released], status, node, closer, born)
            && ClosedOk(refs, closed', closer, born)
    ensures life[fs].last && node[fs] in born ==> node[fs] !in closed && RefsOf(refs, node[fs]) == 0
  {}

  lemma ReleaseKeepsNodes(s: State, fs: Fs)
    requires Nodes(s) && RefsOk(s.life, s.node, s.refs) && CanEnd(s, fs, ReleaseNow)
    ensures Nodes(DoReleaseNow(s, fs))
  {
    CloserReleased(s.life, s.status, s.node, s.refs, s.closed, s.closer, s.born, fs);
    assert s.node[fs] in s.refs;
  }

  lemma EndIOKeepsNodes(s: State, op: Op)
    requires Nodes(s) && ClosingOk(s.life, s.closing, s.ioRefs) && CanEndIO(s, op)
    ensures Nodes(DoEndIO(s, op))
  {
    var s', fs := DoEndIO(s, op), s.ops[op].fs;
    assert NewOk(s'.ops, s.refs, s.closed, s.closer, s.born) && AliasOk(s'.ops, s.refs);
    if fs in s.closing && s.ioRefs[fs] == 1 {
      assert s'.life == s.life[fs := ReleaseDue(s.life[fs].last)];
      StageKeepsCloser(s.life, s.status, s.node, s.refs, s.closed, s.closer, s.born, fs, ReleaseDue(s.life[fs].last));
    }
  }

  lemma ClunkAllKeepsNodes(s: State, drained: bool)
    requires Nodes(s)
    ensures Nodes(DoClunkAll(s, drained))
  {}

  lemma EndKeepsNodes(s: State, fs: Fs, act: EndAct)
    requires Nodes(s) && RefsOk(s.life, s.node, s.refs) && CanEnd(s, fs, act)
    ensures Nodes(DoEnd(s, fs, act))
  {
    match act
    case DecRef => DecRefKeepsNodes(s, fs);
    case FinishClunk => FinishKeepsNodes(s, fs);
    case ReleaseNow => ReleaseKeepsNodes(s, fs);
    case SweepOne => SweepKeepsNodes(s, fs);
    case XattrCreate => XattrCreateKeepsNodes(s, fs);
  }

  lemma BeginIOKeepsNodes(s: State, op: Op)
    requires Nodes(s) && CanBeginIO(s, op)
    ensures Nodes(DoBeginIO(s, op))
  {}

  lemma ClunkKeepsNodes(s: State, fid: Fid, remove: bool)
    requires Keys(s) && Nodes(s) && TableOk(s.table, s.life, s.fidOf) && fid in s.table
    ensures Nodes(DoClunk(s, fid, remove))
  {
    StageKeepsCloser(s.life, s.status, s.node, s.refs, s.closed, s.closer, s.born, s.table[fid], Unbound(remove));
  }

  lemma StepKeepsNodes(s: State, step: Step)
    requires Nodes(s) && Enabled(s, step) && AliasesLive(s, step)
    requires Keys(s) && TableOk(s.table, s.life, s.fidOf) && ClosingOk(s.life, s.closing, s.ioRefs)
    requires RefsOk(s.life, s.node, s.refs)
    ensures Nodes(Apply(s, step))
  {
    match step
    case Bind(fid, fs, act) => BindKeepsNodes(s, fid, fs, act);
    case OnOp(op, act) => OpKeepsNodes(s, op, act);
    case Store(op, act) =>
      if Stores(s, op, act) {
        StoreKeepsNodes(s, op, act);
      } else {
        LoseKeepsNodes(s, op, act);
      }
    case BeginIO(op) => BeginIOKeepsNodes(s, op);
    case EndIO(op) => EndIOKeepsNodes(s, op);
    case Rebind(fid, n) => RebindKeepsNodes(s, fid, n);
    case Clunk(fid, remove) => ClunkKeepsNodes(s, fid, remove);
    case ClunkAll(drained) => ClunkAllKeepsNodes(s, drained);
    case End(fs, act) => EndKeepsNodes(s, fs, act);
  }

  lemma {:induction false} LiveRunKeepsNodes(run: seq<State>, steps: seq<Step>, i: nat)
    requires LiveRun(run, steps) && i < |run|
    ensures Nodes(run[i])
  {
    if i > 0 {
      LiveRunKeepsNodes(run, steps, i - 1);
      RunKeepsBase(run, steps, i - 1);
      StepKeepsNodes(run[i - 1], steps[i - 1]);
    }
  }
}
