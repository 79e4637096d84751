/** What every step of the fid machine keeps. */
module FidProof {
  import opened Common
  import opened FidMachine

  // ---------------------------------------------------------------- invariants

  predicate HoldsRef(life: Life) { life.Bound? || life.Unbound? || life.Swept? }

  /** The handlers with I/O registered on a fid state. */
  function Runners(ops: map<Op, OpState>, fs: Fs): set<Op> {
    set op | op in ops && ops[op] == Running(fs)
  }

  /** The fid states that hold a reference on a node. */
  function Holders(life: map<Fs, Life>, node: map<Fs, Node>, n: Node): set<Fs> {
    set fs | fs in life && fs in node && HoldsRef(life[fs]) && node[fs] == n
  }

  function LooseHandle(o: OpState): Option<Handle> {
    if o.OpenedUp? || o.Created? then o.h else None
  }

  predicate HasNew(o: OpState) { o.Resolved? || o.Created? }

  ghost predicate Keys(s: State) {
    forall fs :: fs in s.life ==> Known(s, fs)
  }

  /** The table and the bound fid states name each other. */
  ghost predicate TableOk(table: map<Fid, Fs>, life: map<Fs, Life>, fidOf: map<Fs, Fid>) {
    && (forall fid :: fid in table ==>
          && table[fid] in life && life[table[fid]].Bound?
          && table[fid] in fidOf && fidOf[table[fid]] == fid)
    && (forall fs :: fs in life && life[fs].Bound? ==>
          fs in fidOf && fidOf[fs] in table && table[fidOf[fs]] == fs)
  }

  /** ioRefs counts the registered I/O calls. */
  ghost predicate IoOk(life: map<Fs, Life>, ioRefs: map<Fs, int>, ops: map<Op, OpState>) {
    forall fs :: fs in life ==> fs in ioRefs && ioRefs[fs] == |Runners(ops, fs)|
  }

  /** Handlers work on fid states that were open when they looked. */
  ghost predicate OpenOk(life: map<Fs, Life>, status: map<Fs, Status>, ops: map<Op, OpState>) {
    forall op :: op in ops && OnFs(ops[op]) ==>
      ops[op].fs in life && ops[op].fs in status && status[ops[op].fs].Opened?
  }

  predicate PastFinish(life: Life) { life.Deferred? || life.ReleaseDue? || life.Released? || life.Dropped? }

  /** Once closing, a release is outstanding exactly while I/O is. */
  ghost predicate ClosingOk(life: map<Fs, Life>, closing: set<Fs>, ioRefs: map<Fs, int>) {
    && (forall fs :: fs in closing ==>
          && fs in life && fs in ioRefs && PastFinish(life[fs])
          && (life[fs].Deferred? <==> ioRefs[fs] != 0))
    && (forall fs :: fs in life && life[fs].Deferred? ==> fs in closing)
  }

  /** A handle is loose in one handler, kept by one fid state, or gone. */
  ghost predicate StoredOk(life: map<Fs, Life>, status: map<Fs, Status>, handle: map<Fs, Handle>,
                           home: map<Handle, Home>) {
    forall fs :: fs in handle ==>
      && fs in life && fs in status && status[fs].Opened? && !life[fs].Dropped?
      && handle[fs] in home && home[handle[fs]] == (if life[fs].Released? then Gone else At(fs))
  }

  ghost predicate LooseOk(ops: map<Op, OpState>, home: map<Handle, Home>) {
    forall op :: op in ops && LooseHandle(ops[op]).Some? ==>
      LooseHandle(ops[op]).value in home && home[LooseHandle(ops[op]).value] == Loose(op)
  }

  ghost predicate HomeOk(handle: map<Fs, Handle>, ops: map<Op, OpState>, released: set<Handle>,
                         home: map<Handle, Home>) {
    && (forall h :: h in released ==> h in home)
    && (forall h :: h in home ==>
          && (home[h].Gone? <==> h in released)
          && (home[h].At? ==> home[h].fs in handle && handle[home[h].fs] == h)
          && (home[h].Loose? ==> home[h].op in ops && LooseHandle(ops[home[h].op]) == Some(h)))
  }

  /** The reference count of a node is the number of fid states that hold it. */
  ghost predicate RefsOk(life: map<Fs, Life>, node: map<Fs, Node>, refs: map<Node, int>) {
    && (forall n :: RefsOf(refs, n) == |Holders(life, node, n)|)
    && (forall fs :: fs in life && fs in node ==> node[fs] in refs)
  }

  ghost predicate Base(s: State) {
    && Keys(s)
    && TableOk(s.table, s.life, s.fidOf)
    && IoOk(s.life, s.ioRefs, s.ops)
    && OpenOk(s.life, s.status, s.ops)
    && ClosingOk(s.life, s.closing, s.ioRefs)
    && StoredOk(s.life, s.status, s.handle, s.home)
    && LooseOk(s.ops, s.home)
    && HomeOk(s.handle, s.ops, s.released, s.home)
    && RefsOk(s.life, s.node, s.refs)
  }

  // ---------------------------------------------------------------- counting

  lemma SameRunners(ops: map<Op, OpState>, ops': map<Op, OpState>, fs: Fs)
    requires forall op :: (op in ops && ops[op] == Running(fs)) <==> (op in ops' && ops'[op] == Running(fs))
    ensures Runners(ops', fs) == Runners(ops, fs)
  {}

  lemma MoreRunners(ops: map<Op, OpState>, op: Op, fs: Fs)
    requires op in ops ==> ops[op] != Running(fs)
    ensures |Runners(ops[op := Running(fs)], fs)| == |Runners(ops, fs)| + 1
  {
    var after := Runners(ops[op := Running(fs)], fs);
    assert Runners(ops, fs) == after - {op};
    assert op in after;
  }

  lemma FewerRunners(ops: map<Op, OpState>, op: Op, fs: Fs)
    requires op in ops && ops[op] == Running(fs)
    ensures |Runners(ops - {op}, fs)| == |Runners(ops, fs)| - 1
  {
    assert Runners(ops, fs) == Runners(ops - {op}, fs) + {op};
  }

  /** Steps of handlers that run no I/O leave the I/O counts alone. */
  lemma IoUnmoved(life: map<Fs, Life>, ioRefs: map<Fs, int>, ops: map<Op, OpState>, ops': map<Op, OpState>)
    requires IoOk(life, ioRefs, ops)
    requires forall op :: op in ops && ops[op].Running? ==> op in ops' && ops'[op] == ops[op]
    requires forall op :: op in ops' && ops'[op].Running? ==> op in ops && ops'[op] == ops[op]
    ensures IoOk(life, ioRefs, ops')
  {
    forall fs | fs in life ensures Runners(ops', fs) == Runners(ops, fs) {
      SameRunners(ops, ops', fs);
    }
  }

  /** Moving a fid state between stages that hold their reference alike leaves the counts alone. */
  lemma RefsUnmoved(life: map<Fs, Life>, life': map<Fs, Life>, node: map<Fs, Node>, refs: map<Node, int>)
    requires RefsOk(life, node, refs)
    requires forall fs :: fs in life <==> fs in life'
    requires forall fs :: fs in life && fs in life' ==> HoldsRef(life[fs]) == HoldsRef(life'[fs])
    ensures RefsOk(life', node, refs)
  {
    forall n ensures Holders(life', node, n) == Holders(life, node, n) {}
  }

  lemma HoldersAdded(life: map<Fs, Life>, node: map<Fs, Node>, fs: Fs, n: Node, m: Node)
    requires fs !in life
    ensures |Holders(life[fs := Bound], node[fs := n], m)| == |Holders(life, node, m)| + (if m == n then 1 else 0)
  {
    var before, after := Holders(life, node, m), Holders(life[fs := Bound], node[fs := n], m);
    if m == n {
      assert after == before + {fs};
      assert fs !in before;
    } else {
      assert after == before;
    }
  }

  lemma RefsAdded(life: map<Fs, Life>, node: map<Fs, Node>, refs: map<Node, int>, fs: Fs, n: Node)
    requires RefsOk(life, node, refs)
    requires fs !in life
    ensures RefsOk(life[fs := Bound], node[fs := n], Inc(refs, n))
  {
    forall m ensures RefsOf(Inc(refs, n), m) == |Holders(life[fs := Bound], node[fs := n], m)| {
      HoldersAdded(life, node, fs, n, m);
    }
  }

  lemma RefsDropped(life: map<Fs, Life>, node: map<Fs, Node>, refs: map<Node, int>, fs: Fs, after: Life)
    requires RefsOk(life, node, refs)
    requires fs in life && fs in node && HoldsRef(life[fs]) && !HoldsRef(after)
    ensures RefsOk(life[fs := after], node, Dec(refs, node[fs]))
    ensures RefsOf(refs, node[fs]) >= 1
  {
    forall m ensures RefsOf(Dec(refs, node[fs]), m) == |Holders(life[fs := after], node, m)| {
      assert Holders(life, node, m) == Holders(life[fs := after], node, m) + (if m == node[fs] then {fs} else {});
      assert fs !in Holders(life[fs := after], node, m);
    }
    assert fs in Holders(life, node, node[fs]);
  }

  lemma RefsSwapped(life: map<Fs, Life>, node: map<Fs, Node>, refs: map<Node, int>, fs: Fs, n: Node)
    requires RefsOk(life, node, refs)
    requires fs in life && fs in node && HoldsRef(life[fs])
    ensures RefsOk(life, node[fs := n], Dec(Inc(refs, n), node[fs]))
  {
    var refs' := Dec(Inc(refs, n), node[fs]);
    forall m ensures RefsOf(refs', m) == |Holders(life, node[fs := n], m)| {
      var before, after := Holders(life, node, m), Holders(life, node[fs := n], m);
      assert before - {fs} == after - {fs};
      assert fs in before <==> m == node[fs];
      assert fs in after <==> m == n;
      assert |before - {fs}| == |before| - (if m == node[fs] then 1 else 0);
      assert |after - {fs}| == |after| - (if m == n then 1 else 0);
    }
  }

  // ---------------------------------------------------------------- binding a fid

  lemma TableAdded(table: map<Fid, Fs>, life: map<Fs, Life>, fidOf: map<Fs, Fid>, fid: Fid, fs: Fs)
    requires TableOk(table, life, fidOf)
    requires fid !in table && fs !in life
    ensures TableOk(table[fid := fs], life[fs := Bound], fidOf[fs := fid])
  {}

  lemma IoAdded(life: map<Fs, Life>, ioRefs: map<Fs, int>, ops: map<Op, OpState>, fs: Fs)
    requires IoOk(life, ioRefs, ops)
    requires forall op :: op in ops && ops[op].Running? ==> ops[op].fs in life
    requires fs !in life
    ensures IoOk(life[fs := Bound], ioRefs[fs := 0], ops)
  {
    assert Runners(ops, fs) == {};
  }

  lemma ClosingAdded(life: map<Fs, Life>, closing: set<Fs>, ioRefs: map<Fs, int>, fs: Fs)
    requires ClosingOk(life, closing, ioRefs) && fs !in life
    ensures ClosingOk(life[fs := Bound], closing, ioRefs[fs := 0])
  {}

  lemma BindKeepsUse(s: State, fid: Fid, fs: Fs, act: BindAct)
    requires IoOk(s.life, s.ioRefs, s.ops) && OpenOk(s.life, s.status, s.ops)
    requires CanBind(s, fid, fs, act)
    ensures var s' := DoBind(s, fid, fs, act); IoOk(s'.life, s'.ioRefs, s'.ops) && OpenOk(s'.life, s'.status, s'.ops)
  {
    var s' := DoBind(s, fid, fs, act);
    IoUnmoved(s.life, s.ioRefs, s.ops, s'.ops);
    IoAdded(s.life, s.ioRefs, s'.ops, fs);
  }

  lemma BindKeepsHandles(s: State, fid: Fid, fs: Fs, act: BindAct)
    requires StoredOk(s.life, s.status, s.handle, s.home) && LooseOk(s.ops, s.home)
    requires HomeOk(s.handle, s.ops, s.released, s.home)
    requires CanBind(s, fid, fs, act)
    ensures var s' := DoBind(s, fid, fs, act);
            && StoredOk(s'.life, s'.status, s'.handle, s'.home) && LooseOk(s'.ops, s'.home)
            && HomeOk(s'.handle, s'.ops, s'.released, s'.home)
  {}

  lemma BindKeepsBase(s: State, fid: Fid, fs: Fs, act: BindAct)
    requires Base(s) && CanBind(s, fid, fs, act)
    ensures Base(DoBind(s, fid, fs, act))
  {
    TableAdded(s.table, s.life, s.fidOf, fid, fs);
    ClosingAdded(s.life, s.closing, s.ioRefs, fs);
    BindKeepsUse(s, fid, fs, act);
    BindKeepsHandles(s, fid, fs, act);
    RefsAdded(s.life, s.node, s.refs, fs, BindNode(s, act).value);
  }

  // ---------------------------------------------------------------- a handler between its critical sections

  lemma OpKeepsIo(s: State, op: Op, act: OpAct)
    requires IoOk(s.life, s.ioRefs, s.ops) && CanOp(s, op, act)
    ensures var s' := DoOp(s, op, act); IoOk(s'.life, s'.ioRefs, s'.ops)
  {
    IoUnmoved(s.life, s.ioRefs, s.ops, DoOp(s, op, act).ops);
  }

  lemma OpKeepsOpen(s: State, op: Op, act: OpAct)
    requires OpenOk(s.life, s.status, s.ops) && CanOp(s, op, act)
    ensures var s' := DoOp(s, op, act); OpenOk(s'.life, s'.status, s'.ops)
  {}

  lemma OpKeepsLoose(s: State, op: Op, act: OpAct)
    requires LooseOk(s.ops, s.home) && CanOp(s, op, act)
    ensures var s' := DoOp(s, op, act); LooseOk(s'.ops, s'.home)
  {}

  lemma OpKeepsHomes(s: State, op: Op, act: OpAct)
    requires StoredOk(s.life, s.status, s.handle, s.home) && HomeOk(s.handle, s.ops, s.released, s.home)
    requires CanOp(s, op, act)
    ensures var s' := DoOp(s, op, act);
            StoredOk(s'.life, s'.status, s'.handle, s'.home) && HomeOk(s'.handle, s'.ops, s'.released, s'.home)
  {}

  lemma OpKeepsBase(s: State, op: Op, act: OpAct)
    requires Base(s) && CanOp(s, op, act)
    ensures Base(DoOp(s, op, act))
  {
    OpKeepsIo(s, op, act);
    OpKeepsOpen(s, op, act);
    OpKeepsLoose(s, op, act);
    OpKeepsHomes(s, op, act);
  }

  // ---------------------------------------------------------------- publishing an open, a create or an in-place walk

  lemma StoreKeepsUse(s: State, op: Op, act: StoreAct)
    requires IoOk(s.life, s.ioRefs, s.ops) && OpenOk(s.life, s.status, s.ops)
    requires CanStore(s, op, act) && Stores(s, op, act)
    ensures var s' := DoStore(s, op, act); IoOk(s'.life, s'.ioRefs, s'.ops) && OpenOk(s'.life, s'.status, s'.ops)
  {
    IoUnmoved(s.life, s.ioRefs, s.ops, DoStore(s, op, act).ops);
  }

  lemma StoreKeepsHandles(s: State, op: Op, act: StoreAct)
    requires TableOk(s.table, s.life, s.fidOf)
    requires StoredOk(s.life, s.status, s.handle, s.home) && LooseOk(s.ops, s.home)
    requires HomeOk(s.handle, s.ops, s.released, s.home)
    requires CanStore(s, op, act) && Stores(s, op, act)
    ensures var s' := DoStore(s, op, act);
            && StoredOk(s'.life, s'.status, s'.handle, s'.home) && LooseOk(s'.ops, s'.home)
            && HomeOk(s'.handle, s'.ops, s'.released, s'.home)
  {}

  lemma StoreKeepsBase(s: State, op: Op, act: StoreAct)
    requires Base(s) && CanStore(s, op, act) && Stores(s, op, act)
    ensures Base(DoStore(s, op, act))
  {
    StoreKeepsUse(s, op, act);
    StoreKeepsHandles(s, op, act);
    if !act.OpenStore? {
      RefsSwapped(s.life, s.node, s.refs, s.table[StoreFid(s, op, act)], s.ops[op].n);
    }
  }

  lemma RebindKeepsBase(s: State, fid: Fid, n: Node)
    requires Base(s) && CanRebind(s, fid, n)
    ensures Base(DoRebind(s, fid, n))
  {
    RefsSwapped(s.life, s.node, s.refs, s.table[fid], n);
  }

  lemma LoseKeepsHandles(s: State, op: Op, act: StoreAct)
    requires StoredOk(s.life, s.status, s.handle, s.home) && LooseOk(s.ops, s.home)
    requires HomeOk(s.handle, s.ops, s.released, s.home)
    requires CanStore(s, op, act) && !act.WalkInPlace?
    ensures var s' := DoLose(s, op, act);
            && StoredOk(s'.life, s'.status, s'.handle, s'.home) && LooseOk(s'.ops, s'.home)
            && HomeOk(s'.handle, s'.ops, s'.released, s'.home)
  {}

  lemma LoseKeepsBase(s: State, op: Op, act: StoreAct)
    requires Base(s) && CanStore(s, op, act) && !act.WalkInPlace?
    ensures Base(DoLose(s, op, act))
  {
    LoseKeepsHandles(s, op, act);
    IoUnmoved(s.life, s.ioRefs, s.ops, DoLose(s, op, act).ops);
  }

  // ---------------------------------------------------------------- registering I/O

  lemma IoBegun(life: map<Fs, Life>, ioRefs: map<Fs, int>, ops: map<Op, OpState>, op: Op)
    requires IoOk(life, ioRefs, ops)
    requires op in ops && ops[op].Holding? && ops[op].fs in life
    ensures IoOk(life, ioRefs[ops[op].fs := ioRefs[ops[op].fs] + 1], ops[op := Running(ops[op].fs)])
  {
    var mine := ops[op].fs;
    var ops' := ops[op := Running(mine)];
    MoreRunners(ops, op, mine);
    forall fs | fs in life && fs != mine ensures Runners(ops', fs) == Runners(ops, fs) {
      SameRunners(ops, ops', fs);
    }
  }

  lemma IoEnded(life: map<Fs, Life>, ioRefs: map<Fs, int>, ops: map<Op, OpState>, op: Op)
    requires IoOk(life, ioRefs, ops)
    requires op in ops && ops[op].Running? && ops[op].fs in life
    ensures IoOk(life, ioRefs[ops[op].fs := ioRefs[ops[op].fs] - 1], ops - {op})
    ensures ioRefs[ops[op].fs] >= 1
  {
    var mine := ops[op].fs;
    FewerRunners(ops, op, mine);
    forall fs | fs in life && fs != mine ensures Runners(ops - {op}, fs) == Runners(ops, fs) {
      SameRunners(ops, ops - {op}, fs);
    }
    assert op in Runners(ops, mine);
  }

  /** A handler that keeps no handle may come and go. */
  lemma HandlesUnmoved(handle: map<Fs, Handle>, ops: map<Op, OpState>, ops': map<Op, OpState>, released: set<Handle>,
                       home: map<Handle, Home>)
    requires LooseOk(ops, home) && HomeOk(handle, ops, released, home)
    requires forall op :: op in ops && LooseHandle(ops[op]).Some? ==> op in ops' && ops'[op] == ops[op]
    requires forall op :: op in ops' && LooseHandle(ops'[op]).Some? ==> op in ops && ops'[op] == ops[op]
    ensures LooseOk(ops', home) && HomeOk(handle, ops', released, home)
  {}

  lemma OpenBegun(life: map<Fs, Life>, status: map<Fs, Status>, ops: map<Op, OpState>, op: Op)
    requires OpenOk(life, status, ops)
    requires op in ops && ops[op].Holding?
    ensures OpenOk(life, status, ops[op := Running(ops[op].fs)])
    ensures OpenOk(life, status, ops - {op})
  {}

  lemma ClosingBegun(life: map<Fs, Life>, closing: set<Fs>, ioRefs: map<Fs, int>, fs: Fs, n: int)
    requires ClosingOk(life, closing, ioRefs) && fs !in closing
    ensures ClosingOk(life, closing, ioRefs[fs := n])
  {}

  lemma BeginIOKeepsIo(s: State, op: Op)
    requires IoOk(s.life, s.ioRefs, s.ops) && OpenOk(s.life, s.status, s.ops)
    requires CanBeginIO(s, op)
    ensures var s' := DoBeginIO(s, op); IoOk(s'.life, s'.ioRefs, s'.ops) && OpenOk(s'.life, s'.status, s'.ops)
  {
    var s', fs := DoBeginIO(s, op), s.ops[op].fs;
    OpenBegun(s.life, s.status, s.ops, op);
    if fs in s.closing {
      assert s'.ioRefs == s.ioRefs && s'.ops == s.ops - {op};
      IoUnmoved(s.life, s.ioRefs, s.ops, s.ops - {op});
    } else {
      assert s'.ioRefs == s.ioRefs[fs := s.ioRefs[fs] + 1] && s'.ops == s.ops[op := Running(fs)];
      IoBegun(s.life, s.ioRefs, s.ops, op);
    }
  }

  lemma BeginIOKeepsClosing(s: State, op: Op)
    requires ClosingOk(s.life, s.closing, s.ioRefs)
    requires CanBeginIO(s, op)
    ensures var s' := DoBeginIO(s, op); ClosingOk(s'.life, s'.closing, s'.ioRefs)
  {
    var s', fs := DoBeginIO(s, op), s.ops[op].fs;
    if fs in s.closing {
      assert s'.ioRefs == s.ioRefs;
    } else {
      assert s'.ioRefs == s.ioRefs[fs := s.ioRefs[fs] + 1];
      ClosingBegun(s.life, s.closing, s.ioRefs, fs, s.ioRefs[fs] + 1);
    }
  }

  lemma BeginIOKeepsHandles(s: State, op: Op)
    requires LooseOk(s.ops, s.home) && HomeOk(s.handle, s.ops, s.released, s.home)
    requires CanBeginIO(s, op)
    ensures var s' := DoBeginIO(s, op); LooseOk(s'.ops, s'.home) && HomeOk(s'.handle, s'.ops, s'.released, s'.home)
  {
    HandlesUnmoved(s.handle, s.ops, DoBeginIO(s, op).ops, s.released, s.home);
  }

  lemma BeginIOKeepsBase(s: State, op: Op)
    requires Base(s) && CanBeginIO(s, op)
    ensures Base(DoBeginIO(s, op))
  {
    BeginIOKeepsIo(s, op);
    BeginIOKeepsClosing(s, op);
    BeginIOKeepsHandles(s, op);
  }

  lemma EndIOKeepsClosing(s: State, op: Op)
    requires ClosingOk(s.life, s.closing, s.ioRefs) && TableOk(s.table, s.life, s.fidOf)
    requires CanEndIO(s, op) && s.ioRefs[s.ops[op].fs] >= 1
    ensures var s' := DoEndIO(s, op);
            ClosingOk(s'.life, s'.closing, s'.ioRefs) && TableOk(s'.table, s'.life, s'.fidOf)
  {}

  /** A fid state past its clunk changes stage, short of Released. */
  lemma StoredUnmoved(life: map<Fs, Life>, status: map<Fs, Status>, handle: map<Fs, Handle>, home: map<Handle, Home>,
                      fs: Fs, after: Life)
    requires StoredOk(life, status, handle, home)
    requires fs in life && !life[fs].Released? && !after.Released?
    requires after.Dropped? ==> fs in status && !status[fs].Opened?
    ensures StoredOk(life[fs := after], status, handle, home)
  {}

  lemma EndIOKeepsBase(s: State, op: Op)
    requires Base(s) && CanEndIO(s, op)
    ensures Base(DoEndIO(s, op))
  {
    var s' := DoEndIO(s, op);
    var fs := s.ops[op].fs;
    IoEnded(s.life, s.ioRefs, s.ops, op);
    HandlesUnmoved(s.handle, s.ops, s'.ops, s.released, s.home);
    EndIOKeepsClosing(s, op);
    if s'.life != s.life {
      StoredUnmoved(s.life, s.status, s.handle, s.home, fs, s'.life[fs]);
    }
    RefsUnmoved(s.life, s'.life, s.node, s.refs);
  }

  // ---------------------------------------------------------------- the end of a fid

  lemma ClunkKeepsTable(s: State, fid: Fid, remove: bool)
    requires Keys(s) && TableOk(s.table, s.life, s.fidOf) && fid in s.table
    ensures var s' := DoClunk(s, fid, remove); Keys(s') && TableOk(s'.table, s'.life, s'.fidOf)
  {}

  lemma ClunkKeepsIo(s: State, fid: Fid, remove: bool)
    requires Keys(s) && fid in s.table
    requires IoOk(s.life, s.ioRefs, s.ops) && OpenOk(s.life, s.status, s.ops) && ClosingOk(s.life, s.closing, s.ioRefs)
    requires TableOk(s.table, s.life, s.fidOf)
    ensures var s' := DoClunk(s, fid, remove);
            && IoOk(s'.life, s'.ioRefs, s'.ops) && OpenOk(s'.life, s'.status, s'.ops)
            && ClosingOk(s'.life, s'.closing, s'.ioRefs)
  {}

  lemma ClunkKeepsBase(s: State, fid: Fid, remove: bool)
    requires Base(s) && fid in s.table
    ensures Base(DoClunk(s, fid, remove))
  {
    var s' := DoClunk(s, fid, remove);
    ClunkKeepsTable(s, fid, remove);
    ClunkKeepsIo(s, fid, remove);
    StoredUnmoved(s.life, s.status, s.handle, s.home, s.table[fid], Unbound(remove));
    RefsUnmoved(s.life, s'.life, s.node, s.refs);
  }

  lemma ClunkAllKeepsBase(s: State, drained: bool)
    requires Base(s)
    ensures Base(DoClunkAll(s, drained))
  {
    RefsUnmoved(s.life, DoClunkAll(s, drained).life, s.node, s.refs);
  }

  /** A fid state leaves one unbound stage for another. */
  lemma StageKeeps(s: State, fs: Fs, after: Life)
    requires Keys(s) && TableOk(s.table, s.life, s.fidOf)
    requires IoOk(s.life, s.ioRefs, s.ops) && OpenOk(s.life, s.status, s.ops)
    requires fs in s.life && !s.life[fs].Bound? && !after.Bound?
    ensures var s' := s.(life := s.life[fs := after]);
            && Keys(s') && TableOk(s'.table, s'.life, s'.fidOf)
            && IoOk(s'.life, s'.ioRefs, s'.ops) && OpenOk(s'.life, s'.status, s'.ops)
  {}

  lemma ReleaseKeepsHandles(s: State, fs: Fs)
    requires StoredOk(s.life, s.status, s.handle, s.home) && LooseOk(s.ops, s.home)
    requires HomeOk(s.handle, s.ops, s.released, s.home)
    requires CanEnd(s, fs, ReleaseNow)
    ensures var s' := DoReleaseNow(s, fs);
            && StoredOk(s'.life, s'.status, s'.handle, s'.home) && LooseOk(s'.ops, s'.home)
            && HomeOk(s'.handle, s'.ops, s'.released, s'.home)
  {}

  /** An xattr-write fid has no I/O registered: only an open fid can have any. */
  lemma XattrFidIsIdle(life: map<Fs, Life>, status: map<Fs, Status>, ioRefs: map<Fs, int>, ops: map<Op, OpState>,
                       fs: Fs)
    requires IoOk(life, ioRefs, ops) && OpenOk(life, status, ops)
    requires fs in life && fs in status && status[fs].XattrWrite?
    ensures ioRefs[fs] == 0
  {
    assert Runners(ops, fs) == {};
  }

  lemma ClosingFinished(life: map<Fs, Life>, closing: set<Fs>, ioRefs: map<Fs, int>, fs: Fs, after: Life)
    requires ClosingOk(life, closing, ioRefs)
    requires fs in life && fs in ioRefs && PastFinish(after) && (after.Deferred? <==> ioRefs[fs] != 0)
    ensures ClosingOk(life[fs := after], closing + {fs}, ioRefs)
  {}

  lemma ClosingUnmoved(life: map<Fs, Life>, closing: set<Fs>, ioRefs: map<Fs, int>, fs: Fs, after: Life)
    requires ClosingOk(life, closing, ioRefs)
    requires fs in life && !life[fs].Deferred? && !after.Deferred? && (PastFinish(life[fs]) ==> PastFinish(after))
    ensures ClosingOk(life[fs := after], closing, ioRefs)
  {}

  lemma FinishLifeOk(s: State, fs: Fs)
    requires IoOk(s.life, s.ioRefs, s.ops) && OpenOk(s.life, s.status, s.ops)
    requires CanEnd(s, fs, FinishClunk)
    ensures PastFinish(FinishLife(s, fs)) && (FinishLife(s, fs).Deferred? <==> s.ioRefs[fs] != 0)
  {
    if s.status[fs].XattrWrite? {
      XattrFidIsIdle(s.life, s.status, s.ioRefs, s.ops, fs);
    }
  }

  lemma FinishKeepsClosing(s: State, fs: Fs)
    requires IoOk(s.life, s.ioRefs, s.ops) && OpenOk(s.life, s.status, s.ops)
    requires ClosingOk(s.life, s.closing, s.ioRefs)
    requires CanEnd(s, fs, FinishClunk)
    ensures var s' := DoFinishClunk(s, fs); ClosingOk(s'.life, s'.closing, s'.ioRefs)
  {
    FinishLifeOk(s, fs);
    ClosingFinished(s.life, s.closing, s.ioRefs, fs, FinishLife(s, fs));
  }

  lemma FinishKeepsRest(s: State, fs: Fs)
    requires StoredOk(s.life, s.status, s.handle, s.home) && RefsOk(s.life, s.node, s.refs)
    requires CanEnd(s, fs, FinishClunk)
    ensures var s' := DoFinishClunk(s, fs);
            StoredOk(s'.life, s'.status, s'.handle, s'.home) && RefsOk(s'.life, s'.node, s'.refs)
  {
    var s' := DoFinishClunk(s, fs);
    StoredUnmoved(s.life, s.status, s.handle, s.home, fs, FinishLife(s, fs));
    RefsUnmoved(s.life, s'.life, s.node, s.refs);
  }

  lemma FinishKeepsStage(s: State, fs: Fs)
    requires Keys(s) && TableOk(s.table, s.life, s.fidOf)
    requires IoOk(s.life, s.ioRefs, s.ops) && OpenOk(s.life, s.status, s.ops)
    requires CanEnd(s, fs, FinishClunk)
    ensures var s' := DoFinishClunk(s, fs);
            && Keys(s') && TableOk(s'.table, s'.life, s'.fidOf)
            && IoOk(s'.life, s'.ioRefs, s'.ops) && OpenOk(s'.life, s'.status, s'.ops)
  {
    StageKeeps(s, fs, FinishLife(s, fs));
  }

  lemma FinishKeepsBase(s: State, fs: Fs)
    requires Base(s) && CanEnd(s, fs, FinishClunk)
    ensures Base(DoFinishClunk(s, fs))
  {
    FinishKeepsStage(s, fs);
    FinishKeepsClosing(s, fs);
    FinishKeepsRest(s, fs);
  }

  /** Dropping the reference, alone or in a sweep. */
  lemma DropKeepsBase(s: State, fs: Fs, act: EndAct)
    requires Base(s) && CanEnd(s, fs, act) && (act.DecRef? || act.SweepOne?)
    ensures Base(DoEnd(s, fs, act))
  {
    var s' := DoEnd(s, fs, act);
    StageKeeps(s, fs, s'.life[fs]);
    StoredUnmoved(s.life, s.status, s.handle, s.home, fs, s'.life[fs]);
    ClosingUnmoved(s.life, s.closing, s.ioRefs, fs, s'.life[fs]);
    RefsDropped(s.life, s.node, s.refs, fs, s'.life[fs]);
  }

  lemma ReleaseKeepsBase(s: State, fs: Fs)
    requires Base(s) && CanEnd(s, fs, ReleaseNow)
    ensures Base(DoReleaseNow(s, fs))
  {
    var s' := DoReleaseNow(s, fs);
    StageKeeps(s, fs, Released);
    ReleaseKeepsHandles(s, fs);
    ClosingUnmoved(s.life, s.closing, s.ioRefs, fs, Released);
    RefsUnmoved(s.life, s'.life, s.node, s.refs);
  }

  lemma XattrCreateKeepsBase(s: State, fs: Fs)
    requires Base(s) && CanEnd(s, fs, XattrCreate)
    ensures Base(DoEnd(s, fs, XattrCreate))
  {}

  lemma EndKeepsBase(s: State, fs: Fs, act: EndAct)
    requires Base(s) && CanEnd(s, fs, act)
    ensures Base(DoEnd(s, fs, act))
  {
    match act
    case DecRef => DropKeepsBase(s, fs, act);
    case FinishClunk => FinishKeepsBase(s, fs);
    case ReleaseNow => ReleaseKeepsBase(s, fs);
    case SweepOne => DropKeepsBase(s, fs, act);
    case XattrCreate => XattrCreateKeepsBase(s, fs);
  }

  lemma StepKeepsBase(s: State, step: Step)
    requires Base(s) && Enabled(s, step)
    ensures Base(Apply(s, step))
  {
    match step
    case Bind(fid, fs, act) => BindKeepsBase(s, fid, fs, act);
    case OnOp(op, act) => OpKeepsBase(s, op, act);
    case Store(op, act) =>
      if Stores(s, op, act) {
        StoreKeepsBase(s, op, act);
      } else {
        LoseKeepsBase(s, op, act);
      }
    case BeginIO(op) => BeginIOKeepsBase(s, op);
    case EndIO(op) => EndIOKeepsBase(s, op);
    case Rebind(fid, n) => RebindKeepsBase(s, fid, n);
    case Clunk(fid, remove) => ClunkKeepsBase(s, fid, remove);
    case ClunkAll(drained) => ClunkAllKeepsBase(s, drained);
    case End(fs, act) => EndKeepsBase(s, fs, act);
  }

  lemma {:induction false} RunKeepsBase(run: seq<State>, steps: seq<Step>, i: nat)
    requires Run(run, steps) && i < |run|
    ensures Base(run[i])
  {
    if i > 0 {
      RunKeepsBase(run, steps, i - 1);
      StepKeepsBase(run[i - 1], steps[i - 1]);
    } else {
      forall n ensures Holders(INIT.life, INIT.node, n) == {} {}
    }
  }
}
