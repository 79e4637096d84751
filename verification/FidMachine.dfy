/**
 Fids, open handles and nodes of one server connection: every handler that binds, opens, uses or
 ends a fid, interleaved (server/fid.go, server/inode.go, the handlers of server/dispatch.go and
 server/bridge.go, and the sweep of server/cleanup.go and handleReVersion in server/conn.go).

 A step is one critical section, one call into a node, or one release. A change of the fid table and
 the reference count that follows it are one step. Attach stands for every bind of a node that its
 file system keeps and hands out again; Rebind is the same for an in-place walk.

 History variables: `fidOf` is the number a fid state was bound under, `home` is where a handle is
 kept, `closer` is the fid state that took a node's last reference and is to close it, `born` is the
 handler whose Lookup or Create made a node. They decide no step; `born` only keeps new nodes apart
 from old.
 */
module FidMachine {
  import opened Common

  type Fid = nat
  type Fs = nat      // a *fidState
  type Node = nat
  type Handle = nat
  type Op = nat      // a handler in progress

  datatype Status = Allocated | Opened | XattrRead | XattrWrite

  /** How far the teardown of a fid state has got. */
  datatype Life =
    | Bound
    | Unbound(remove: bool)               // out of the table; its reference not yet dropped
    | Unreffed(remove: bool, last: bool)  // reference dropped; finishClunk not yet run
    | Deferred(last: bool)                // closing, with I/O still registered
    | ReleaseDue(last: bool)              // releaseNow decided, not yet run
    | Swept(drained: bool)                // taken by clunkAll
    | Released
    | Dropped                             // an xattr-write fid, committed at clunk
    | Leaked                              // swept after a drain that timed out

  datatype OpState =
    | Holding(fs: Fs)                     // resolved an open fid; about to beginIO
    | Running(fs: Fs)                     // registered I/O
    | Opening(fid: Fid)
    | OpenedUp(fid: Fid, h: Option<Handle>)
    | Creating(fid: Fid)
    | Created(fid: Fid, n: Node, h: Option<Handle>)
    | Resolved(n: Node)                   // a walk holding the node its last Lookup made
    | Aliasing(n: Node)                   // a clone or xattrwalk holding its source's node

  datatype Home = Loose(op: Op) | At(fs: Fs) | Gone

  datatype State = State(
    table: map<Fid, Fs>,
    life: map<Fs, Life>,
    node: map<Fs, Node>,
    status: map<Fs, Status>,
    handle: map<Fs, Handle>,
    ioRefs: map<Fs, int>,
    closing: set<Fs>,
    ops: map<Op, OpState>,
    refs: map<Node, int>,
    closed: set<Node>, released: set<Handle>,
    fidOf: map<Fs, Fid>,
    home: map<Handle, Home>,
    closer: map<Node, Fs>,
    born: map<Node, Op>)

  const INIT := State(map[], map[], map[], map[], map[], map[], {}, map[], map[], {}, {},
                      map[], map[], map[], map[])

  datatype BindAct = Attach(n: Node) | WalkBind(op: Op) | AliasBind(op: Op, xattr: bool)

  datatype OpAct =
    | LookUp(n: Node)
    | WalkDrop
    | AliasRead(fid: Fid)
    | OpenBegin(fid: Fid)
    | OpenReturn(h: Option<Handle>)
    | CreateBegin(fid: Fid)
    | CreateReturn(n: Node, h: Option<Handle>)
    | Get(fid: Fid)
    | Fail                                // the handler returns an error, holding nothing

  datatype StoreAct = WalkInPlace(fid: Fid) | OpenStore | CreateStore

  datatype EndAct = DecRef | FinishClunk | ReleaseNow | SweepOne | XattrCreate

  datatype Step =
    | Bind(fid: Fid, fs: Fs, bind: BindAct)
    | OnOp(op: Op, act: OpAct)
    | Store(op: Op, store: StoreAct)
    | BeginIO(op: Op)
    | EndIO(op: Op)
    | Rebind(fid: Fid, n: Node)           // an in-place walk to a node that Lookup shares between calls
    | Clunk(fid: Fid, remove: bool)
    | ClunkAll(drained: bool)
    | End(fs: Fs, end: EndAct)

  // ---------------------------------------------------------------- what each step needs

  /** The node a bind puts under the new fid, if it may run. */
  function BindNode(s: State, act: BindAct): Option<Node> {
    match act
    case Attach(n) => if n in s.born then None else Some(n)
    case WalkBind(op) => if op in s.ops && s.ops[op].Resolved? then Some(s.ops[op].n) else None
    case AliasBind(op, _) => if op in s.ops && s.ops[op].Aliasing? then Some(s.ops[op].n) else None
  }

  predicate CanBind(s: State, fid: Fid, fs: Fs, act: BindAct) {
    fid !in s.table && fs !in s.life && BindNode(s, act).Some?
  }

  predicate Known(s: State, fs: Fs) {
    fs in s.life && fs in s.node && fs in s.status && fs in s.ioRefs
  }

  /** The fid names a fid state in the given status. */
  predicate Names(s: State, fid: Fid, status: Status) {
    fid in s.table && Known(s, s.table[fid]) && s.status[s.table[fid]] == status
  }

  predicate IsNew(s: State, n: Node) { n !in s.born && n !in s.refs && n !in s.closed }

  predicate IsNewHandle(s: State, h: Option<Handle>) { h.Some? ==> h.value !in s.home }

  predicate CanOp(s: State, op: Op, act: OpAct) {
    match act
    case LookUp(n) => op !in s.ops && IsNew(s, n)
    case AliasRead(fid) => op !in s.ops && fid in s.table && Known(s, s.table[fid])
    case OpenBegin(fid) => op !in s.ops && Names(s, fid, Allocated)
    case CreateBegin(fid) => op !in s.ops && Names(s, fid, Allocated)
    case Get(fid) => op !in s.ops && Names(s, fid, Opened)
    case WalkDrop => op in s.ops && s.ops[op].Resolved?
    case OpenReturn(h) => op in s.ops && s.ops[op].Opening? && IsNewHandle(s, h)
    case CreateReturn(n, h) => op in s.ops && s.ops[op].Creating? && IsNew(s, n) && IsNewHandle(s, h)
    case Fail => op in s.ops && (s.ops[op].Opening? || s.ops[op].Creating? || s.ops[op].Aliasing? || s.ops[op].Holding?)
  }

  predicate CanStore(s: State, op: Op, act: StoreAct) {
    && op in s.ops
    && match act
       case WalkInPlace(fid) => s.ops[op].Resolved? && fid in s.table && Known(s, s.table[fid])
       case OpenStore => s.ops[op].OpenedUp?
       case CreateStore => s.ops[op].Created?
  }

  predicate CanEnd(s: State, fs: Fs, act: EndAct) {
    && Known(s, fs)
    && match act
       case DecRef => s.life[fs].Unbound?
       case FinishClunk => s.life[fs].Unreffed?
       case ReleaseNow => s.life[fs].ReleaseDue?
       case SweepOne => s.life[fs].Swept?
       case XattrCreate => s.status[fs].Allocated?
  }

  predicate CanBeginIO(s: State, op: Op) { op in s.ops && s.ops[op].Holding? && Known(s, s.ops[op].fs) }

  predicate CanEndIO(s: State, op: Op) { op in s.ops && s.ops[op].Running? && Known(s, s.ops[op].fs) }

  predicate CanRebind(s: State, fid: Fid, n: Node) { fid in s.table && Known(s, s.table[fid]) && n !in s.born }

  predicate Enabled(s: State, step: Step) {
    match step
    case Bind(fid, fs, act) => CanBind(s, fid, fs, act)
    case OnOp(op, act) => CanOp(s, op, act)
    case Store(op, act) => CanStore(s, op, act)
    case BeginIO(op) => CanBeginIO(s, op)
    case EndIO(op) => CanEndIO(s, op)
    case Rebind(fid, n) => CanRebind(s, fid, n)
    case Clunk(fid, _) => fid in s.table
    case ClunkAll(_) => true
    case End(fs, act) => CanEnd(s, fs, act)
  }

  // ---------------------------------------------------------------- what each step does

  function RefsOf(refs: map<Node, int>, n: Node): int { if n in refs then refs[n] else 0 }

  function Inc(refs: map<Node, int>, n: Node): map<Node, int> { refs[n := RefsOf(refs, n) + 1] }

  function Dec(refs: map<Node, int>, n: Node): map<Node, int> { refs[n := RefsOf(refs, n) - 1] }

  /** fids.add plus incRefNode. */
  function DoBind(s: State, fid: Fid, fs: Fs, act: BindAct): State
    requires CanBind(s, fid, fs, act)
  {
    var n := BindNode(s, act).value;
    s.(table := s.table[fid := fs],
       life := s.life[fs := Bound],
       node := s.node[fs := n],
       status := s.status[fs := if act.AliasBind? && act.xattr then XattrRead else Allocated],
       ioRefs := s.ioRefs[fs := 0],
       ops := if act.Attach? then s.ops else s.ops - {act.op},
       refs := Inc(s.refs, n),
       fidOf := s.fidOf[fs := fid])
  }

  function NewOp(s: State, op: Op, act: OpAct): Option<OpState>
    requires CanOp(s, op, act)
  {
    match act
    case LookUp(n) => Some(Resolved(n))
    case AliasRead(fid) => Some(Aliasing(s.node[s.table[fid]]))
    case OpenBegin(fid) => Some(Opening(fid))
    case CreateBegin(fid) => Some(Creating(fid))
    case Get(fid) => Some(Holding(s.table[fid]))
    case OpenReturn(h) => Some(OpenedUp(s.ops[op].fid, h))
    case CreateReturn(n, h) => Some(Created(s.ops[op].fid, n, h))
    case WalkDrop => None
    case Fail => None
  }

  /** The handle, if any, that an open or create just produced. */
  function NewHandle(act: OpAct): Option<Handle> {
    match act
    case OpenReturn(h) => h
    case CreateReturn(_, h) => h
    case _ => None
  }

  /** The node, if any, that a Lookup or Create just made. */
  function NewNode(act: OpAct): Option<Node> {
    match act
    case LookUp(n) => Some(n)
    case CreateReturn(n, _) => Some(n)
    case _ => None
  }

  /** closeUnboundNode leaves a node with live references alone. */
  function Unwanted(s: State, op: Op, act: OpAct): set<Node>
    requires CanOp(s, op, act)
  {
    if act.WalkDrop? && RefsOf(s.refs, s.ops[op].n) == 0 then {s.ops[op].n} else {}
  }

  function DoOp(s: State, op: Op, act: OpAct): State
    requires CanOp(s, op, act)
  {
    var o, h, n := NewOp(s, op, act), NewHandle(act), NewNode(act);
    s.(ops := if o.Some? then s.ops[op := o.value] else s.ops - {op},
       born := if n.Some? then s.born[n.value := op] else s.born,
       home := if h.Some? then s.home[h.value := Loose(op)] else s.home,
       closed := s.closed + Unwanted(s, op, act))
  }

  /** markOpenedWithHandle and updateAndOpen find the fid, still unopened. */
  predicate Stores(s: State, op: Op, act: StoreAct)
    requires CanStore(s, op, act)
  {
    match act
    case WalkInPlace(_) => true
    case OpenStore => Names(s, s.ops[op].fid, Allocated)
    case CreateStore => Names(s, s.ops[op].fid, Allocated)
  }

  function StoreFid(s: State, op: Op, act: StoreAct): Fid
    requires CanStore(s, op, act)
  {
    if act.WalkInPlace? then act.fid else s.ops[op].fid
  }

  function StoreHandle(s: State, op: Op, act: StoreAct): Option<Handle>
    requires CanStore(s, op, act)
  {
    if act.WalkInPlace? then None else s.ops[op].h
  }

  function SetHome(home: map<Handle, Home>, h: Option<Handle>, at: Home): map<Handle, Home> {
    if h.Some? then home[h.value := at] else home
  }

  function AsSet<T>(x: Option<T>): set<T> { if x.Some? then {x.value} else {} }

  /** The swap that succeeded. */
  function DoStore(s: State, op: Op, act: StoreAct): State
    requires CanStore(s, op, act) && Stores(s, op, act)
  {
    var fs := s.table[StoreFid(s, op, act)];
    var h := StoreHandle(s, op, act);
    var swaps := !act.OpenStore?;
    s.(ops := s.ops - {op},
       node := if swaps then s.node[fs := s.ops[op].n] else s.node,
       refs := if swaps then Dec(Inc(s.refs, s.ops[op].n), s.node[fs]) else s.refs,
       status := if act.WalkInPlace? then s.status else s.status[fs := Opened],
       handle := if h.Some? then s.handle[fs := h.value] else s.handle,
       home := SetHome(s.home, h, At(fs)))
  }

  /** closeOrphanNode: the child of a create that lost its race. */
  function Orphan(s: State, op: Op, act: StoreAct): set<Node>
    requires CanStore(s, op, act)
  {
    if act.CreateStore? then {s.ops[op].n} else {}
  }

  /** The swap that lost its race: the handle is released and a created child closed. */
  function DoLose(s: State, op: Op, act: StoreAct): State
    requires CanStore(s, op, act) && !act.WalkInPlace?
  {
    s.(ops := s.ops - {op},
       released := s.released + AsSet(s.ops[op].h),
       home := SetHome(s.home, s.ops[op].h, Gone),
       closed := s.closed + Orphan(s, op, act))
  }

  /** A clunked fid is torn down once no I/O is registered on it. */
  predicate TearsDown(closing: bool, ioRefs: int) { closing && ioRefs == 0 }

  function DoBeginIO(s: State, op: Op): State
    requires CanBeginIO(s, op)
  {
    var fs := s.ops[op].fs;
    s.(ops := if fs in s.closing then s.ops - {op} else s.ops[op := Running(fs)],
       ioRefs := if fs in s.closing then s.ioRefs else s.ioRefs[fs := s.ioRefs[fs] + 1])
  }

  function DoEndIO(s: State, op: Op): State
    requires CanEndIO(s, op)
  {
    var fs := s.ops[op].fs;
    var release := TearsDown(fs in s.closing, s.ioRefs[fs] - 1);
    s.(ops := s.ops - {op},
       ioRefs := s.ioRefs[fs := s.ioRefs[fs] - 1],
       life := if release then s.life[fs := ReleaseDue(s.life[fs].Deferred? && s.life[fs].last)] else s.life)
  }

  function DoRebind(s: State, fid: Fid, n: Node): State
    requires CanRebind(s, fid, n)
  {
    var fs := s.table[fid];
    s.(node := s.node[fs := n], refs := Dec(Inc(s.refs, n), s.node[fs]))
  }

  function DoClunk(s: State, fid: Fid, remove: bool): State
    requires fid in s.table
  {
    s.(table := s.table - {fid}, life := s.life[s.table[fid] := Unbound(remove)])
  }

  function DoClunkAll(s: State, drained: bool): State {
    s.(table := map[], life := map fs | fs in s.life :: if s.life[fs].Bound? then Swept(drained) else s.life[fs])
  }

  function LastRef(s: State, fs: Fs): bool
    requires fs in s.node
  {
    RefsOf(s.refs, s.node[fs]) == 1
  }

  /** finishClunk and the xattr branch of handleClunk. */
  function FinishLife(s: State, fs: Fs): Life
    requires CanEnd(s, fs, FinishClunk)
  {
    if s.status[fs].XattrWrite? && !s.life[fs].remove then Dropped
    else if TearsDown(true, s.ioRefs[fs]) then ReleaseDue(s.life[fs].last)
    else Deferred(s.life[fs].last)
  }

  /** Some handler has I/O registered on the fid state. */
  predicate InUse(ops: map<Op, OpState>, fs: Fs) {
    exists op :: op in ops && ops[op] == Running(fs)
  }

  /** The clunk of an xattr-write fid commits it and does not close its node. */
  predicate WillDrop(s: State, fs: Fs)
    requires Known(s, fs) && s.life[fs].Unbound?
  {
    s.status[fs].XattrWrite? && !s.life[fs].remove
  }

  /** decRefNode. */
  function DoDecRef(s: State, fs: Fs): State
    requires CanEnd(s, fs, DecRef)
  {
    s.(life := s.life[fs := Unreffed(s.life[fs].remove, LastRef(s, fs))],
       refs := Dec(s.refs, s.node[fs]),
       closer := if LastRef(s, fs) && !WillDrop(s, fs) then s.closer[s.node[fs] := fs] else s.closer)
  }

  function DoFinishClunk(s: State, fs: Fs): State
    requires CanEnd(s, fs, FinishClunk)
  {
    s.(life := s.life[fs := FinishLife(s, fs)],
       closing := s.closing + {fs})
  }

  function HandleOf(s: State, fs: Fs): set<Handle> {
    if fs in s.handle then {s.handle[fs]} else {}
  }

  function DoReleaseNow(s: State, fs: Fs): State
    requires CanEnd(s, fs, ReleaseNow)
  {
    s.(life := s.life[fs := Released],
       released := s.released + HandleOf(s, fs),
       home := if fs in s.handle then s.home[s.handle[fs] := Gone] else s.home,
       closed := if s.life[fs].last then s.closed + {s.node[fs]} else s.closed)
  }

  /** The body of the sweep's loop. */
  function DoSweepOne(s: State, fs: Fs): State
    requires CanEnd(s, fs, SweepOne)
  {
    s.(life := s.life[fs := if s.life[fs].drained then ReleaseDue(LastRef(s, fs)) else Leaked],
       refs := Dec(s.refs, s.node[fs]),
       closer := if LastRef(s, fs) && s.life[fs].drained then s.closer[s.node[fs] := fs] else s.closer)
  }

  /** A clunk already under way will now commit the attribute and leave its node open. */
  function DoXattrCreate(s: State, fs: Fs): State
    requires CanEnd(s, fs, XattrCreate)
  {
    s.(status := s.status[fs := XattrWrite],
       closer := if s.life[fs].Unreffed? && s.life[fs].last && !s.life[fs].remove
                 then s.closer - {s.node[fs]}
                 else s.closer)
  }

  function DoEnd(s: State, fs: Fs, act: EndAct): State
    requires CanEnd(s, fs, act)
  {
    match act
    case DecRef => DoDecRef(s, fs)
    case FinishClunk => DoFinishClunk(s, fs)
    case ReleaseNow => DoReleaseNow(s, fs)
    case SweepOne => DoSweepOne(s, fs)
    case XattrCreate => DoXattrCreate(s, fs)
  }

  function Apply(s: State, step: Step): State
    requires Enabled(s, step)
  {
    match step
    case Bind(fid, fs, act) => DoBind(s, fid, fs, act)
    case OnOp(op, act) => DoOp(s, op, act)
    case Store(op, act) => if Stores(s, op, act) then DoStore(s, op, act) else DoLose(s, op, act)
    case BeginIO(op) => DoBeginIO(s, op)
    case EndIO(op) => DoEndIO(s, op)
    case Rebind(fid, n) => DoRebind(s, fid, n)
    case Clunk(fid, remove) => DoClunk(s, fid, remove)
    case ClunkAll(drained) => DoClunkAll(s, drained)
    case End(fs, act) => DoEnd(s, fs, act)
  }

  /** The handles a step releases. */
  function ReleasedBy(s: State, step: Step): set<Handle>
    requires Enabled(s, step)
  {
    match step
    case Store(op, act) => if Stores(s, op, act) then {} else AsSet(s.ops[op].h)
    case End(fs, act) => if act.ReleaseNow? then HandleOf(s, fs) else {}
    case _ => {}
  }

  /** The nodes a step closes. */
  function ClosedBy(s: State, step: Step): set<Node>
    requires Enabled(s, step)
  {
    match step
    case OnOp(op, act) => Unwanted(s, op, act)
    case Store(op, act) => if Stores(s, op, act) then {} else Orphan(s, op, act)
    case End(fs, act) => if act.ReleaseNow? && s.life[fs].last then {s.node[fs]} else {}
    case _ => {}
  }

  // ---------------------------------------------------------------- runs

  ghost predicate Run(run: seq<State>, steps: seq<Step>) {
    && |run| == |steps| + 1
    && run[0] == INIT
    && forall i :: 0 <= i < |steps| ==> Enabled(run[i], steps[i]) && run[i + 1] == Apply(run[i], steps[i])
  }

  ghost predicate Next(s: State, step: Step, s': State) { Enabled(s, step) && s' == Apply(s, step) }

  ghost predicate NextAt(run: seq<State>, steps: seq<Step>, i: nat) {
    i < |steps| && i + 1 < |run| && Next(run[i], steps[i], run[i + 1])
  }

  /** Steps taken one after the other from any state. */
  ghost predicate Chain(run: seq<State>, steps: seq<Step>) {
    |run| == |steps| + 1 && forall i: nat :: i < |steps| ==> NextAt(run, steps, i)
  }

  predicate Settled(life: Life) { life.Bound? || life.Released? || life.Dropped? || life.Leaked? }

  /** No handler is in progress, as after a drain that succeeded. */
  ghost predicate Quiescent(s: State) {
    s.ops == map[] && forall fs :: fs in s.life ==> Settled(s.life[fs])
  }

  /** The fid state took its node's last reference and is going to close it. */
  predicate CloseDue(life: Life, status: Status) {
    && (life.Unreffed? || life.Deferred? || life.ReleaseDue?) && life.last
    && !(life.Unreffed? && !life.remove && status.XattrWrite?)
  }

  predicate OwesClose(s: State, fs: Fs, n: Node) {
    Known(s, fs) && s.node[fs] == n && CloseDue(s.life[fs], s.status[fs])
  }

  /** A node that some clunk or sweep has closed, or has still to close. */
  ghost predicate Doomed(s: State, n: Node) { n in s.closed || exists fs :: OwesClose(s, fs, n) }

  predicate OnFs(o: OpState) { o.Holding? || o.Running? }

  /** A sweep that releases handles finds no handler that has resolved a fid it takes. */
  ghost predicate SweepsIdle(s: State, step: Step) {
    step.ClunkAll? && step.drained ==>
      forall op :: op in s.ops && OnFs(s.ops[op]) && s.ops[op].fs in s.life ==> !s.life[s.ops[op].fs].Bound?
  }

  /** The node of an alias about to be bound, if Lookup or Create made it. */
  function AliasNode(s: State, step: Step): Option<Node> {
    if step.Bind? && step.bind.AliasBind? && BindNode(s, step.bind).Some? && BindNode(s, step.bind).value in s.born
    then BindNode(s, step.bind) else None
  }

  /** A clone or xattrwalk binds its node only while some fid still holds it: its reference count is not zero. */
  predicate AliasesHeld(s: State, step: Step) {
    AliasNode(s, step).Some? ==> RefsOf(s.refs, AliasNode(s, step).value) > 0
  }

  /** The weaker condition: nobody has closed the node or is going to. */
  ghost predicate AliasesLive(s: State, step: Step) {
    AliasNode(s, step).Some? ==> !Doomed(s, AliasNode(s, step).value)
  }

  ghost predicate DrainedRun(run: seq<State>, steps: seq<Step>) {
    Run(run, steps) && forall i :: 0 <= i < |steps| ==> SweepsIdle(run[i], steps[i])
  }

  ghost predicate HeldRun(run: seq<State>, steps: seq<Step>) {
    Run(run, steps) && forall i :: 0 <= i < |steps| ==> AliasesHeld(run[i], steps[i])
  }

  ghost predicate LiveRun(run: seq<State>, steps: seq<Step>) {
    Run(run, steps) && forall i :: 0 <= i < |steps| ==> AliasesLive(run[i], steps[i])
  }
}
