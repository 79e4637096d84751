/** Every step of the client multiplexer keeps its invariant. */
module ClientMuxProof {
  import opened Common
  import opened ClientMux

  // ---------------------------------------------------------------- every step goes forward

  /** From s to s', call c alone moves, and forward. */
  ghost predicate Advances(s: State, s': State, c: Call) {
    && c in s.phase && c in s'.phase
    && s'.phase == s.phase[c := s'.phase[c]]
    && Rank(s.phase[c]) < Rank(s'.phase[c])
    && s'.stage == s.stage
    && s.quarantined <= s'.quarantined
  }

  lemma GateAdvances(s: State, c: Call, act: GateAct)
    requires CanGate(s, c, act) && !act.Admit?
    ensures Advances(s, DoGate(s, c, act), c)
  {
  }

  lemma WriteAdvances(s: State, x: Slot, act: WriteAct)
    requires CanWrite(s, x, act)
    ensures Advances(s, DoWrite(s, x, act), x.c)
  {
  }

  lemma WaitAdvances(s: State, c: Call, act: WaitAct)
    requires CanWait(s, c, act)
    ensures Advances(s, DoWait(s, c, act), c)
  {
  }

  lemma EndAdvances(s: State, c: Call, act: EndAct)
    requires CanEnd(s, c, act)
    ensures Advances(s, DoEnd(s, c, act), c)
  {
  }

  ghost predicate Unmoved(s: State, s': State) {
    s'.phase == s.phase && s'.quarantined == s.quarantined && (s'.stage.Up? ==> s.stage.Up?)
  }

  lemma DeliverMovesNoCall(s: State)
    requires Enabled(s, Deliver)
    ensures Unmoved(s, DoDeliver(s))
  {
  }

  lemma ShutdownMovesNoCall(s: State)
    requires Enabled(s, Shutdown)
    ensures Unmoved(s, DoShutdown(s))
  {
  }

  /** The wire, the server and shutdown move no call. */
  lemma OthersMoveNoCall(s: State, step: Step)
    requires Enabled(s, step) && (step.Answer? || step.Misbehave? || step.Deliver? || step.Shutdown?)
    ensures Unmoved(s, Apply(s, step))
  {
    match step
    case Deliver => DeliverMovesNoCall(s);
    case Shutdown => ShutdownMovesNoCall(s);
    case Answer(x) => assert Unmoved(s, DoAnswer(s, x));
    case Misbehave(x) => assert Unmoved(s, s.(inbox := s.inbox + [x]));
  }

  // ---------------------------------------------------------------- tags

  ghost predicate TagsOf(s: State) {
    TagsOk(s.n, s.free, s.quarantined, s.holder, s.tagOf, s.phase)
  }

  lemma MoveTags(n: nat, free: set<Tag>, quar: set<Tag>, holder: map<Tag, Call>, tagOf: map<Call, Tag>,
                 phase: map<Call, Phase>, c: Call, p: Phase)
    requires TagsOk(n, free, quar, holder, tagOf, phase)
    requires c in phase && Holds(phase[c]) && Holds(p)
    ensures TagsOk(n, free, quar, holder, tagOf, phase[c := p])
  {
  }

  lemma AcquireTags(n: nat, free: set<Tag>, quar: set<Tag>, holder: map<Tag, Call>, tagOf: map<Call, Tag>,
                    phase: map<Call, Phase>, c: Call, t: Tag)
    requires TagsOk(n, free, quar, holder, tagOf, phase)
    requires c in phase && phase[c].Acquiring? && t in free
    ensures TagsOk(n, free - {t}, quar, holder[t := c], tagOf[c := t], phase[c := HasTag])
  {
  }

  lemma GiveBackTags(n: nat, free: set<Tag>, quar: set<Tag>, holder: map<Tag, Call>, tagOf: map<Call, Tag>,
                     phase: map<Call, Phase>, c: Call, out: Outcome)
    requires TagsOk(n, free, quar, holder, tagOf, phase)
    requires c in phase && Holds(phase[c]) && c in tagOf
    ensures TagsOk(n, free + {tagOf[c]}, quar, holder - {tagOf[c]}, tagOf, phase[c := Returned(out)])
    ensures TagsOk(n, free, quar + {tagOf[c]}, holder - {tagOf[c]}, tagOf, phase[c := Returned(out)])
  {
  }

  lemma IdleTags(n: nat, free: set<Tag>, quar: set<Tag>, holder: map<Tag, Call>, tagOf: map<Call, Tag>,
                 phase: map<Call, Phase>, c: Call, p: Phase)
    requires TagsOk(n, free, quar, holder, tagOf, phase)
    requires c in phase ==> phase[c].Acquiring?
    requires p == Acquiring || p == Returned(Failed)
    requires c in tagOf ==> p == Returned(Failed)
    ensures TagsOk(n, free, quar, holder, tagOf, phase[c := p])
  {
  }

  lemma GateKeepsTags(s: State, c: Call, act: GateAct)
    requires TagsOf(s) && CanGate(s, c, act)
    ensures TagsOf(DoGate(s, c, act))
  {
    match act
    case Admit(_, _) => IdleTags(s.n, s.free, s.quarantined, s.holder, s.tagOf, s.phase, c, Acquiring);
    case Acquire(t) => AcquireTags(s.n, s.free, s.quarantined, s.holder, s.tagOf, s.phase, c, t);
    case AcquireFails => IdleTags(s.n, s.free, s.quarantined, s.holder, s.tagOf, s.phase, c, Returned(Failed));
    case Register => MoveTags(s.n, s.free, s.quarantined, s.holder, s.tagOf, s.phase, c, Registered);
  }

  lemma WriteKeepsTags(s: State, x: Slot, act: WriteAct)
    requires TagsOf(s) && CanWrite(s, x, act)
    ensures TagsOf(DoWrite(s, x, act))
  {
    MoveTags(s.n, s.free, s.quarantined, s.holder, s.tagOf, s.phase, x.c, WritePhase(x, act));
  }

  lemma WaitKeepsTags(s: State, c: Call, act: WaitAct)
    requires TagsOf(s) && CanWait(s, c, act)
    ensures TagsOf(DoWait(s, c, act))
  {
    if act.Abandon? {
      GiveBackTags(s.n, s.free, s.quarantined, s.holder, s.tagOf, s.phase, c, Failed);
    } else {
      MoveTags(s.n, s.free, s.quarantined, s.holder, s.tagOf, s.phase, c, DoWait(s, c, act).phase[c]);
    }
  }

  lemma EndKeepsTags(s: State, c: Call, act: EndAct)
    requires TagsOf(s) && CanEnd(s, c, act)
    ensures TagsOf(DoEnd(s, c, act))
  {
    if act.Release? {
      GiveBackTags(s.n, s.free, s.quarantined, s.holder, s.tagOf, s.phase, c, s.phase[c].out);
    } else {
      MoveTags(s.n, s.free, s.quarantined, s.holder, s.tagOf, s.phase, c, DoEnd(s, c, act).phase[c]);
    }
  }

  // ---------------------------------------------------------------- entries and channels

  lemma MoveEntries(entries: map<Tag, Slot>, closed: set<Slot>, tagOf: map<Call, Tag>, phase: map<Call, Phase>,
                    c: Call, p: Phase)
    requires EntriesOk(entries, closed, tagOf, phase)
    requires c in phase && Rank(phase[c]) < Rank(p)
    requires OrigReg(phase[c]) ==> OrigReg(p)
    requires FlushReg(phase[c]) ==> FlushReg(p)
    ensures EntriesOk(entries, closed, tagOf, phase[c := p])
  {
  }

  lemma AddEntry(entries: map<Tag, Slot>, closed: set<Slot>, tagOf: map<Call, Tag>, phase: map<Call, Phase>, x: Slot)
    requires EntriesOk(entries, closed, tagOf, phase)
    requires x !in closed && x.c in tagOf && x.c in phase
    requires if x.Orig? then OrigReg(phase[x.c]) else FlushReg(phase[x.c])
    ensures EntriesOk(entries[TagOf(tagOf, x) := x], closed, tagOf, phase)
  {
  }

  lemma DropEntry(entries: map<Tag, Slot>, closed: set<Slot>, tagOf: map<Call, Tag>, phase: map<Call, Phase>, x: Slot,
                  p: Phase)
    requires EntriesOk(entries, closed, tagOf, phase)
    requires x.c in tagOf && x.c in phase && Rank(phase[x.c]) < Rank(p)
    requires x.Flsh? && OrigReg(phase[x.c]) ==> OrigReg(p)
    requires x.Orig? && FlushReg(phase[x.c]) ==> FlushReg(p)
    ensures EntriesOk(entries - {TagOf(tagOf, x)}, closed, tagOf, phase[x.c := p])
  {
  }

  ghost predicate EntriesOf(s: State) {
    EntriesOk(s.entries, s.closed, s.tagOf, s.phase)
  }

  lemma GateKeepsEntries(s: State, c: Call, act: GateAct)
    requires EntriesOf(s) && TagsOf(s) && CanGate(s, c, act)
    ensures EntriesOf(DoGate(s, c, act))
  {
    if act.Register? {
      MoveEntries(s.entries, s.closed, s.tagOf, s.phase, c, Registered);
      AddEntry(s.entries, s.closed, s.tagOf, s.phase[c := Registered], Orig(c));
    }
  }

  lemma WriteKeepsEntries(s: State, x: Slot, act: WriteAct)
    requires EntriesOf(s) && CanWrite(s, x, act)
    ensures EntriesOf(DoWrite(s, x, act))
  {
    MoveEntries(s.entries, s.closed, s.tagOf, s.phase, x.c, WritePhase(x, act));
  }

  lemma WaitKeepsEntries(s: State, c: Call, act: WaitAct)
    requires EntriesOf(s) && CanWait(s, c, act)
    ensures EntriesOf(DoWait(s, c, act))
  {
    var p := DoWait(s, c, act).phase[c];
    if act.Abandon? {
      DropEntry(s.entries, s.closed, s.tagOf, s.phase, Orig(c), p);
    } else {
      MoveEntries(s.entries, s.closed, s.tagOf, s.phase, c, p);
      if act.RegisterFlush? {
        AddEntry(s.entries, s.closed, s.tagOf, s.phase[c := p], Flsh(c));
      }
    }
  }

  lemma EndKeepsEntries(s: State, c: Call, act: EndAct)
    requires EntriesOf(s) && CanEnd(s, c, act)
    ensures EntriesOf(DoEnd(s, c, act))
  {
    var p := DoEnd(s, c, act).phase[c];
    match act
    case UnregisterFlush => DropEntry(s.entries, s.closed, s.tagOf, s.phase, Flsh(c), p);
    case Unregister => DropEntry(s.entries, s.closed, s.tagOf, s.phase, Orig(c), p);
    case Release => MoveEntries(s.entries, s.closed, s.tagOf, s.phase, c, p);
  }

  lemma CloseEntries(entries: map<Tag, Slot>, closed: set<Slot>, tagOf: map<Call, Tag>, phase: map<Call, Phase>)
    requires EntriesOk(entries, closed, tagOf, phase)
    ensures EntriesOk(map[], closed + Registrations(entries), tagOf, phase)
  {
  }

  lemma ShutdownKeepsEntries(s: State)
    requires EntriesOf(s) && !s.stage.Down?
    ensures EntriesOf(DoShutdown(s))
  {
    if s.stage.ChannelClosed? {
      CloseEntries(s.entries, s.closed, s.tagOf, s.phase);
    }
  }

  // ---------------------------------------------------------------- frames

  ghost predicate FramesOf(s: State) {
    FramesOk(s.pending, s.inbox, s.buf, s.tagOf, s.phase)
  }

  lemma MoveFrames(pending: set<Slot>, inbox: seq<Slot>, buf: map<Slot, Slot>, tagOf: map<Call, Tag>,
                   phase: map<Call, Phase>, c: Call, p: Phase)
    requires FramesOk(pending, inbox, buf, tagOf, phase)
    requires c in phase && Rank(phase[c]) < Rank(p)
    ensures FramesOk(pending, inbox, buf, tagOf, phase[c := p])
  {
  }

  lemma SendFrame(pending: set<Slot>, inbox: seq<Slot>, buf: map<Slot, Slot>, tagOf: map<Call, Tag>,
                  phase: map<Call, Phase>, x: Slot, p: Phase)
    requires FramesOk(pending, inbox, buf, tagOf, phase)
    requires x.c in phase && x.c in tagOf && phase[x.c] == QueuedPhase(x) && p == WritingPhase(x)
    ensures FramesOk(pending + {x}, inbox, buf, tagOf, phase[x.c := p])
  {
    MoveFrames(pending, inbox, buf, tagOf, phase, x.c, p);
    assert x !in inbox && forall ch :: ch in buf ==> buf[ch] != x;
  }

  lemma GateKeepsFrames(s: State, c: Call, act: GateAct)
    requires FramesOf(s) && TagsOf(s) && CanGate(s, c, act)
    ensures FramesOf(DoGate(s, c, act))
  {
    if !act.Admit? {
      MoveFrames(s.pending, s.inbox, s.buf, s.tagOf, s.phase, c, DoGate(s, c, act).phase[c]);
    }
  }

  lemma WriteKeepsFrames(s: State, x: Slot, act: WriteAct)
    requires FramesOf(s) && CanWrite(s, x, act)
    ensures FramesOf(DoWrite(s, x, act))
  {
    var p := WritePhase(x, act);
    MoveFrames(s.pending, s.inbox, s.buf, s.tagOf, s.phase, x.c, p);
    if act.Begin? {
      SendFrame(s.pending, s.inbox, s.buf, s.tagOf, s.phase, x, p);
    }
  }

  lemma DrainFrames(pending: set<Slot>, inbox: seq<Slot>, buf: map<Slot, Slot>, tagOf: map<Call, Tag>,
                    phase: map<Call, Phase>, gone: set<Slot>)
    requires FramesOk(pending, inbox, buf, tagOf, phase)
    ensures FramesOk(pending, inbox, buf - gone, tagOf, phase)
  {
  }

  /** The channels a waiting caller empties. */
  function Taken(c: Call, act: WaitAct): set<Slot> {
    match act
    case Receive => {Orig(c)}
    case Abandon => {Orig(c)}
    case TakeOrig => {Orig(c), Flsh(c)}
    case TakeRflush => {Orig(c), Flsh(c)}
    case _ => {}
  }

  lemma WaitMoves(s: State, c: Call, act: WaitAct)
    requires CanWait(s, c, act)
    ensures var s' := DoWait(s, c, act);
            && s'.buf == s.buf - Taken(c, act)
            && s'.pending == s.pending && s'.inbox == s.inbox && s'.tagOf == s.tagOf
            && s'.quarantined == if act.Abandon? then s.quarantined + {s.tagOf[c]} else s.quarantined
  {
  }

  lemma WaitKeepsFrames(s: State, c: Call, act: WaitAct)
    requires FramesOf(s) && CanWait(s, c, act)
    ensures FramesOf(DoWait(s, c, act))
  {
    WaitMoves(s, c, act);
    WaitAdvances(s, c, act);
    var p := DoWait(s, c, act).phase[c];
    MoveFrames(s.pending, s.inbox, s.buf, s.tagOf, s.phase, c, p);
    DrainFrames(s.pending, s.inbox, s.buf, s.tagOf, s.phase[c := p], Taken(c, act));
  }

  lemma EndKeepsFrames(s: State, c: Call, act: EndAct)
    requires FramesOf(s) && CanEnd(s, c, act)
    ensures FramesOf(DoEnd(s, c, act))
  {
    MoveFrames(s.pending, s.inbox, s.buf, s.tagOf, s.phase, c, DoEnd(s, c, act).phase[c]);
  }

  lemma AnswerKeepsFrames(s: State, x: Slot)
    requires FramesOf(s) && x in s.pending
    ensures FramesOf(DoAnswer(s, x))
  {
  }

  lemma DeliverKeepsFrames(s: State)
    requires FramesOf(s) && EntriesOf(s) && Enabled(s, Deliver)
    ensures FramesOf(DoDeliver(s))
  {
    var s' := DoDeliver(s);
    assert forall i :: 0 <= i < |s'.inbox| ==> s'.inbox[i] == s.inbox[i + 1];
    assert s.inbox[0] !in s'.inbox;
  }

  // ---------------------------------------------------------------- users

  ghost predicate UsersOf(s: State) {
    UsersOk(s.pending, s.inbox, s.tagOf, s.phase, s.user)
  }

  lemma MoveUsers(pending: set<Slot>, inbox: seq<Slot>, tagOf: map<Call, Tag>, phase: map<Call, Phase>,
                  user: map<Tag, Call>, c: Call, p: Phase)
    requires UsersOk(pending, inbox, tagOf, phase, user)
    requires c in phase && (PastCheck(p) ==> PastCheck(phase[c]))
    ensures UsersOk(pending, inbox, tagOf, phase[c := p], user)
  {
  }

  lemma GateKeepsUsers(s: State, c: Call, act: GateAct)
    requires UsersOf(s) && FramesOf(s) && TagsOf(s) && CanGate(s, c, act)
    ensures UsersOf(DoGate(s, c, act))
  {
    if !act.Admit? {
      MoveUsers(s.pending, s.inbox, s.tagOf, s.phase, s.user, c, DoGate(s, c, act).phase[c]);
    }
  }

  /** At the write check, nobody else's request can still be answered under this tag. */
  lemma BeginKeepsUsers(s: State, c: Call)
    requires UsersOf(s) && FramesOf(s) && TagsOf(s) && CanWrite(s, Orig(c), Begin)
    requires QuietOf(s)
    ensures UsersOf(DoWrite(s, Orig(c), Begin))
  {
    var s' := DoWrite(s, Orig(c), Begin);
    forall x | x in s.pending || x in s.inbox
      ensures x.Orig? && x.c in s.tagOf && s.tagOf[x.c] == s.tagOf[c] ==> x.c == c
    {
      assert s.holder[s.tagOf[c]] == c;
    }
  }

  lemma WriteKeepsUsers(s: State, x: Slot, act: WriteAct)
    requires UsersOf(s) && CanWrite(s, x, act) && !(act.Begin? && x.Orig?)
    ensures UsersOf(DoWrite(s, x, act))
  {
    MoveUsers(s.pending, s.inbox, s.tagOf, s.phase, s.user, x.c, WritePhase(x, act));
  }

  lemma WaitKeepsUsers(s: State, c: Call, act: WaitAct)
    requires UsersOf(s) && CanWait(s, c, act)
    ensures UsersOf(DoWait(s, c, act))
  {
    MoveUsers(s.pending, s.inbox, s.tagOf, s.phase, s.user, c, DoWait(s, c, act).phase[c]);
  }

  lemma EndKeepsUsers(s: State, c: Call, act: EndAct)
    requires UsersOf(s) && CanEnd(s, c, act)
    ensures UsersOf(DoEnd(s, c, act))
  {
    MoveUsers(s.pending, s.inbox, s.tagOf, s.phase, s.user, c, DoEnd(s, c, act).phase[c]);
  }

  lemma NetworkKeepsUsers(s: State, step: Step)
    requires UsersOf(s) && (step.Answer? || step.Deliver?) && Enabled(s, step)
    ensures UsersOf(Apply(s, step))
  {
  }

  // ---------------------------------------------------------------- quiet tags

  ghost predicate FlushedOf(s: State) {
    FlushedOk(s.pending, s.inbox)
  }

  ghost predicate QuietOf(s: State) {
    Quiet(s.pending, s.inbox, s.buf, s.tagOf, s.phase, s.quarantined, s.holder, Takeable(s))
  }

  ghost predicate HeardOf(s: State) {
    HeardOk(s.pending, s.inbox, s.buf, s.tagOf, s.phase)
  }

  // Once no tag can be taken for use, none can be again.

  lemma AdvanceTakesNothing(s: State, s': State, c: Call)
    requires Advances(s, s', c)
    ensures Takeable(s') ==> Takeable(s)
  {
  }

  lemma GateTakesNothing(s: State, c: Call, act: GateAct)
    requires CanGate(s, c, act)
    ensures Takeable(DoGate(s, c, act)) ==> Takeable(s)
    ensures act.Acquire? && !IsClosed(s) ==> Takeable(s)
  {
    if !act.Admit? {
      GateAdvances(s, c, act);
      AdvanceTakesNothing(s, DoGate(s, c, act), c);
    }
  }

  lemma MoveQuiet(pending: set<Slot>, inbox: seq<Slot>, buf: map<Slot, Slot>, tagOf: map<Call, Tag>,
                  phase: map<Call, Phase>, quarantined: set<Tag>, holder: map<Tag, Call>, taking: bool, c: Call,
                  p: Phase)
    requires Quiet(pending, inbox, buf, tagOf, phase, quarantined, holder, taking)
    requires c in phase && Rank(phase[c]) < Rank(p)
    requires (Orig(c) in pending || Orig(c) in inbox) && c in tagOf ==>
               Accounted(c, tagOf[c], p, quarantined, holder, taking)
    requires Orig(c) in buf ==> Rank(p) > 3
    ensures Quiet(pending, inbox, buf, tagOf, phase[c := p], quarantined, holder, taking)
  {
  }

  /** Emptying channels, giving tags up and closing admission only helps. */
  lemma EaseQuiet(pending: set<Slot>, inbox: seq<Slot>, buf: map<Slot, Slot>, tagOf: map<Call, Tag>,
                  phase: map<Call, Phase>, quarantined: set<Tag>, holder: map<Tag, Call>, taking: bool,
                  gone: set<Slot>, more: set<Tag>, less: set<Tag>, taking': bool)
    requires Quiet(pending, inbox, buf, tagOf, phase, quarantined, holder, taking) && (taking' ==> taking)
    ensures Quiet(pending, inbox, buf - gone, tagOf, phase, quarantined + more, holder - less, taking')
  {
  }

  lemma AcquireKeepsQuiet(s: State, c: Call, tag: Tag)
    requires QuietOf(s) && FramesOf(s) && TagsOf(s) && CanGate(s, c, Acquire(tag)) && Takeable(s)
    ensures QuietOf(DoGate(s, c, Acquire(tag)))
  {
  }

  lemma GateKeepsQuiet(s: State, c: Call, act: GateAct)
    requires QuietOf(s) && FramesOf(s) && TagsOf(s) && !IsClosed(s) && CanGate(s, c, act)
    ensures QuietOf(DoGate(s, c, act))
  {
    GateTakesNothing(s, c, act);
    if act.Acquire? {
      AcquireKeepsQuiet(s, c, act.tag);
    } else if !act.Admit? {
      var s' := DoGate(s, c, act);
      MoveQuiet(s.pending, s.inbox, s.buf, s.tagOf, s.phase, s.quarantined, s.holder, Takeable(s), c, s'.phase[c]);
      EaseQuiet(s.pending, s.inbox, s.buf, s.tagOf, s'.phase, s.quarantined, s.holder, Takeable(s), {}, {}, {},
                Takeable(s'));
    }
  }

  lemma SendQuiet(pending: set<Slot>, inbox: seq<Slot>, buf: map<Slot, Slot>, tagOf: map<Call, Tag>,
                  phase: map<Call, Phase>, quarantined: set<Tag>, holder: map<Tag, Call>, taking: bool, c: Call)
    requires Quiet(pending, inbox, buf, tagOf, phase, quarantined, holder, taking)
    requires c in phase && InFlight(phase[c])
    ensures Quiet(pending + {Orig(c)}, inbox, buf, tagOf, phase, quarantined, holder, taking)
    ensures Quiet(pending + {Flsh(c)}, inbox, buf, tagOf, phase, quarantined, holder, taking)
  {
  }

  lemma WriteKeepsQuiet(s: State, x: Slot, act: WriteAct)
    requires QuietOf(s) && FramesOf(s) && !IsClosed(s) && CanWrite(s, x, act)
    ensures QuietOf(DoWrite(s, x, act))
  {
    var s' := DoWrite(s, x, act);
    WriteAdvances(s, x, act);
    AdvanceTakesNothing(s, s', x.c);
    MoveQuiet(s.pending, s.inbox, s.buf, s.tagOf, s.phase, s.quarantined, s.holder, Takeable(s), x.c, s'.phase[x.c]);
    EaseQuiet(s.pending, s.inbox, s.buf, s.tagOf, s'.phase, s.quarantined, s.holder, Takeable(s), {}, {}, {},
              Takeable(s'));
    if act.Begin? {
      SendQuiet(s.pending, s.inbox, s.buf, s.tagOf, s'.phase, s.quarantined, s.holder, Takeable(s'), x.c);
    }
  }

  lemma TakenIsAnswered(s: State, c: Call)
    requires FramesOf(s) && OwnOk(s.buf, s.phase) && c in s.phase && PastCheck(s.phase[c]) && Orig(c) in s.buf
    ensures Orig(c) !in s.pending && Orig(c) !in s.inbox
  {
  }

  lemma HeardEndsQuietly(s: State, c: Call)
    requires TagsOf(s) && (Takeable(s) ==> HeardOf(s)) && CanWait(s, c, TakeRflush)
    ensures Orig(c) in s.pending || Orig(c) in s.inbox ==>
              Accounted(c, s.tagOf[c], FlushEnding, s.quarantined, s.holder, Takeable(s))
  {
    assert s.holder[s.tagOf[c]] == c;
  }

  lemma GoesOnWaiting(s: State, c: Call, act: WaitAct)
    requires CanWait(s, c, act) && !IsClosed(s) && s.closed == {}
    requires !act.Receive? && !act.TakeOrig? && !act.TakeRflush?
    ensures InFlight(DoWait(s, c, act).phase[c]) || s.tagOf[c] in DoWait(s, c, act).quarantined
  {
  }

  /** A caller stops waiting only with its request answered, flushed or quarantined, or its tag out of reach. */
  lemma WaitEndsQuietly(s: State, c: Call, act: WaitAct)
    requires FramesOf(s) && OwnOk(s.buf, s.phase) && TagsOf(s) && (Takeable(s) ==> HeardOf(s))
    requires !IsClosed(s) && s.closed == {} && CanWait(s, c, act)
    ensures var s' := DoWait(s, c, act);
            Orig(c) in s.pending || Orig(c) in s.inbox ==>
              Accounted(c, s.tagOf[c], s'.phase[c], s'.quarantined, s.holder, Takeable(s))
  {
    if act.Receive? || act.TakeOrig? {
      TakenIsAnswered(s, c);
    } else if act.TakeRflush? {
      HeardEndsQuietly(s, c);
    } else {
      GoesOnWaiting(s, c, act);
    }
  }

  lemma WaitKeepsQuiet(s: State, c: Call, act: WaitAct)
    requires QuietOf(s) && FramesOf(s) && OwnOk(s.buf, s.phase) && TagsOf(s) && (Takeable(s) ==> HeardOf(s))
    requires !IsClosed(s) && s.closed == {} && CanWait(s, c, act)
    ensures QuietOf(DoWait(s, c, act))
  {
    WaitMoves(s, c, act);
    WaitAdvances(s, c, act);
    var s' := DoWait(s, c, act);
    AdvanceTakesNothing(s, s', c);
    WaitEndsQuietly(s, c, act);
    var tags := if act.Abandon? then {s.tagOf[c]} else {};
    EaseQuiet(s.pending, s.inbox, s.buf, s.tagOf, s.phase, s.quarantined, s.holder, Takeable(s), Taken(c, act), tags,
              {}, Takeable(s));
    assert s.quarantined + tags == s'.quarantined && s.holder - {} == s.holder;
    MoveQuiet(s.pending, s.inbox, s'.buf, s.tagOf, s.phase, s'.quarantined, s.holder, Takeable(s), c, s'.phase[c]);
    EaseQuiet(s.pending, s.inbox, s'.buf, s.tagOf, s'.phase, s'.quarantined, s.holder, Takeable(s), {}, {}, tags,
              Takeable(s'));
    assert s'.holder == s.holder - tags && s'.buf - {} == s'.buf && s'.quarantined + {} == s'.quarantined;
  }

  lemma EndKeepsQuiet(s: State, c: Call, act: EndAct)
    requires QuietOf(s) && CanEnd(s, c, act)
    ensures QuietOf(DoEnd(s, c, act))
  {
    EndAdvances(s, c, act);
    var s' := DoEnd(s, c, act);
    AdvanceTakesNothing(s, s', c);
    MoveQuiet(s.pending, s.inbox, s.buf, s.tagOf, s.phase, s.quarantined, s.holder, Takeable(s), c, s'.phase[c]);
    var tags := if act.Release? then {s.tagOf[c]} else {};
    EaseQuiet(s.pending, s.inbox, s.buf, s.tagOf, s'.phase, s.quarantined, s.holder, Takeable(s), {}, {}, tags,
              Takeable(s'));
    assert s'.holder == s.holder - tags && s.buf - {} == s.buf && s.quarantined + {} == s.quarantined;
  }

  lemma AnswerKeepsQuiet(s: State, x: Slot)
    requires QuietOf(s) && x in s.pending
    ensures QuietOf(DoAnswer(s, x))
  {
    assert Takeable(DoAnswer(s, x)) == Takeable(s);
  }

  /** A frame reaches only a channel of its own kind, registered under its own tag. */
  lemma DeliverMatches(tagOf: map<Call, Tag>, phase: map<Call, Phase>, entries: map<Tag, Slot>, closed: set<Slot>,
                       x: Slot)
    requires EntriesOk(entries, closed, tagOf, phase) && x.c in tagOf
    requires forall c :: c in tagOf ==> 1 <= tagOf[c] <= MAX_MAX_INFLIGHT
    requires TagOf(tagOf, x) in entries
    ensures var ch := entries[TagOf(tagOf, x)];
            && ch.Orig? == x.Orig? && ch.c in tagOf && tagOf[ch.c] == tagOf[x.c]
            && ch.c in phase && ch !in closed
            && Holds(phase[ch.c]) && (if ch.Orig? then OrigReg(phase[ch.c]) else FlushReg(phase[ch.c]))
  {
  }

  lemma PutQuiet(pending: set<Slot>, inbox: seq<Slot>, buf: map<Slot, Slot>, tagOf: map<Call, Tag>,
                 phase: map<Call, Phase>, quarantined: set<Tag>, holder: map<Tag, Call>, taking: bool, ch: Slot,
                 x: Slot)
    requires Quiet(pending, inbox, buf, tagOf, phase, quarantined, holder, taking) && inbox != []
    requires ch.Orig? && ch.c in phase ==> Rank(phase[ch.c]) > 3
    ensures Quiet(pending, inbox[1..], buf, tagOf, phase, quarantined, holder, taking)
    ensures Quiet(pending, inbox[1..], buf[ch := x], tagOf, phase, quarantined, holder, taking)
  {
  }

  /** An answer that finds its tag registered finds there the call that asked. */
  lemma DeliveredToAsker(n: nat, free: set<Tag>, quarantined: set<Tag>, holder: map<Tag, Call>, tagOf: map<Call, Tag>,
                         phase: map<Call, Phase>, entries: map<Tag, Slot>, closed: set<Slot>, x: Slot, taking: bool)
    requires TagsOk(n, free, quarantined, holder, tagOf, phase) && n <= MAX_MAX_INFLIGHT
    requires EntriesOk(entries, closed, tagOf, phase)
    requires x.Orig? && x.c in tagOf && x.c in phase && TagOf(tagOf, x) in entries
    requires Accounted(x.c, tagOf[x.c], phase[x.c], quarantined, holder, taking) && Rank(phase[x.c]) > 3
    ensures entries[TagOf(tagOf, x)] == x
  {
    DeliverMatches(tagOf, phase, entries, closed, x);
    var ch := entries[TagOf(tagOf, x)];
    assert holder[tagOf[ch.c]] == ch.c;
  }

  /** So a request channel is filled only once its call has written. */
  lemma FilledPastWrite(s: State)
    requires QuietOf(s) && EntriesOf(s) && TagsOf(s) && FramesOf(s) && s.n <= MAX_MAX_INFLIGHT && Enabled(s, Deliver)
    requires TagOf(s.tagOf, s.inbox[0]) in s.entries
    ensures var ch := s.entries[TagOf(s.tagOf, s.inbox[0])]; ch.Orig? && ch.c in s.phase ==> Rank(s.phase[ch.c]) > 3
  {
    var x := s.inbox[0];
    DeliverMatches(s.tagOf, s.phase, s.entries, s.closed, x);
    if x.Orig? {
      DeliveredToAsker(s.n, s.free, s.quarantined, s.holder, s.tagOf, s.phase, s.entries, s.closed, x,
                       Takeable(s));
    }
  }

  lemma DeliverKeepsQuiet(s: State)
    requires QuietOf(s) && EntriesOf(s) && TagsOf(s) && FramesOf(s) && s.n <= MAX_MAX_INFLIGHT && Enabled(s, Deliver)
    ensures QuietOf(DoDeliver(s))
  {
    var x, t := s.inbox[0], TagOf(s.tagOf, s.inbox[0]);
    var ch := if t in s.entries then s.entries[t] else Flsh(x.c);
    if t in s.entries {
      FilledPastWrite(s);
    }
    PutQuiet(s.pending, s.inbox, s.buf, s.tagOf, s.phase, s.quarantined, s.holder, Takeable(s), ch, x);
    DeliverPuts(s, ch);
  }

  lemma DeliverPuts(s: State, ch: Slot)
    requires Enabled(s, Deliver)
    requires var t := TagOf(s.tagOf, s.inbox[0]); t in s.entries ==> s.entries[t] == ch
    ensures var s' := DoDeliver(s);
            && s' == s.(inbox := s.inbox[1..], buf := s'.buf, sentOnClosed := s'.sentOnClosed,
                        lateWrite := s'.lateWrite)
            && (s'.buf == s.buf || s'.buf == s.buf[ch := s.inbox[0]])
            && Takeable(s') == Takeable(s)
  {
  }

  // ---------------------------------------------------------------- own answers

  lemma MoveOwn(buf: map<Slot, Slot>, phase: map<Call, Phase>, c: Call, p: Phase)
    requires OwnOk(buf, phase)
    requires c in phase && OwnResult(c, p) && (Orig(c) in buf && PastCheck(p) ==> PastCheck(phase[c]))
    ensures OwnOk(buf, phase[c := p])
  {
  }

  lemma GateKeepsOwn(s: State, c: Call, act: GateAct)
    requires OwnOk(s.buf, s.phase) && FramesOf(s) && CanGate(s, c, act)
    ensures OwnOk(DoGate(s, c, act).buf, DoGate(s, c, act).phase)
  {
    if !act.Admit? {
      MoveOwn(s.buf, s.phase, c, DoGate(s, c, act).phase[c]);
    }
  }

  lemma WriteKeepsOwn(s: State, x: Slot, act: WriteAct)
    requires OwnOk(s.buf, s.phase) && (!IsClosed(s) ==> QuietOf(s)) && CanWrite(s, x, act)
    ensures OwnOk(DoWrite(s, x, act).buf, DoWrite(s, x, act).phase)
  {
    MoveOwn(s.buf, s.phase, x.c, WritePhase(x, act));
  }

  lemma WaitKeepsOwn(s: State, c: Call, act: WaitAct)
    requires OwnOk(s.buf, s.phase) && CanWait(s, c, act)
    ensures OwnOk(DoWait(s, c, act).buf, DoWait(s, c, act).phase)
  {
    MoveOwn(s.buf, s.phase, c, DoWait(s, c, act).phase[c]);
  }

  lemma EndKeepsOwn(s: State, c: Call, act: EndAct)
    requires OwnOk(s.buf, s.phase) && CanEnd(s, c, act)
    ensures OwnOk(DoEnd(s, c, act).buf, DoEnd(s, c, act).phase)
  {
    var p := DoEnd(s, c, act).phase[c];
    assert OwnResult(c, s.phase[c]);
    assert OwnResult(c, p) && (PastCheck(p) ==> PastCheck(s.phase[c]));
    MoveOwn(s.buf, s.phase, c, p);
  }

  lemma PutOwn(buf: map<Slot, Slot>, phase: map<Call, Phase>, ch: Slot, x: Slot)
    requires OwnOk(buf, phase)
    requires ch.Orig? && ch.c in phase && PastCheck(phase[ch.c]) ==> x == ch
    ensures OwnOk(buf[ch := x], phase)
  {
  }

  lemma DeliverKeepsOwn(s: State)
    requires OwnOk(s.buf, s.phase) && UsersOf(s) && EntriesOf(s) && s.n <= MAX_MAX_INFLIGHT && Enabled(s, Deliver)
    requires forall c :: c in s.tagOf ==> 1 <= s.tagOf[c] <= s.n
    ensures OwnOk(DoDeliver(s).buf, DoDeliver(s).phase)
  {
    var x := s.inbox[0];
    var t := TagOf(s.tagOf, x);
    if t in s.entries {
      DeliverMatches(s.tagOf, s.phase, s.entries, s.closed, x);
      PutOwn(s.buf, s.phase, s.entries[t], x);
    }
  }

  // ---------------------------------------------------------------- flushed requests

  lemma WriteKeepsFlushed(s: State, x: Slot, act: WriteAct)
    requires FlushedOf(s) && FramesOf(s) && CanWrite(s, x, act)
    ensures FlushedOf(DoWrite(s, x, act))
  {
  }

  lemma AnswerKeepsFlushed(s: State, x: Slot)
    requires FlushedOf(s) && FramesOf(s) && x in s.pending
    ensures FlushedOf(DoAnswer(s, x))
  {
  }

  lemma DeliverKeepsFlushed(s: State)
    requires FlushedOf(s) && FramesOf(s) && Enabled(s, Deliver)
    ensures FlushedOf(DoDeliver(s))
  {
    var s' := DoDeliver(s);
    assert forall i :: 0 <= i < |s'.inbox| ==> s'.inbox[i] == s.inbox[i + 1];
  }

  // ---------------------------------------------------------------- what may follow an Rflush

  lemma MoveHeard(pending: set<Slot>, inbox: seq<Slot>, buf: map<Slot, Slot>, tagOf: map<Call, Tag>,
                  phase: map<Call, Phase>, c: Call, p: Phase, gone: set<Slot>)
    requires HeardOk(pending, inbox, buf, tagOf, phase) && c in phase
    requires FlushReg(p) && !FlushReg(phase[c]) ==>
               forall x :: Stale(pending, inbox, tagOf, c, x) ==> !CanFollow(pending, inbox, c, x)
    ensures HeardOk(pending, inbox, buf - gone, tagOf, phase[c := p])
  {
  }

  lemma GateKeepsHeard(s: State, c: Call, act: GateAct)
    requires HeardOf(s) && FramesOf(s) && TagsOf(s) && CanGate(s, c, act)
    ensures HeardOf(DoGate(s, c, act))
  {
  }

  lemma SendHeard(s: State, x: Slot)
    requires HeardOf(s) && FramesOf(s) && TagsOf(s) && CanWrite(s, x, Begin)
    ensures HeardOk(s.pending + {x}, s.inbox, s.buf, s.tagOf, s.phase)
  {
    forall c, y | c in s.phase && FlushReg(s.phase[c]) && Stale(s.pending + {x}, s.inbox, s.tagOf, c, y)
      ensures Stale(s.pending, s.inbox, s.tagOf, c, y) && x != Orig(c)
    {
      assert s.holder[s.tagOf[c]] == c && s.holder[s.tagOf[x.c]] == x.c;
    }
  }

  lemma WriteKeepsHeard(s: State, x: Slot, act: WriteAct)
    requires HeardOf(s) && FramesOf(s) && TagsOf(s) && CanWrite(s, x, act)
    ensures HeardOf(DoWrite(s, x, act))
  {
    var s' := DoWrite(s, x, act);
    if act.Begin? {
      SendHeard(s, x);
    }
    MoveHeard(s'.pending, s.inbox, s.buf, s.tagOf, s.phase, x.c, s'.phase[x.c], {});
    assert s.buf - {} == s.buf;
  }

  lemma WaitKeepsHeard(s: State, c: Call, act: WaitAct)
    requires HeardOf(s) && CanWait(s, c, act) && Takeable(s) && MirrorQuiet(s, Wait(c, act))
    ensures HeardOf(DoWait(s, c, act))
  {
    WaitMoves(s, c, act);
    WaitAdvances(s, c, act);
    MoveHeard(s.pending, s.inbox, s.buf, s.tagOf, s.phase, c, DoWait(s, c, act).phase[c], Taken(c, act));
  }

  lemma EndKeepsHeard(s: State, c: Call, act: EndAct)
    requires HeardOf(s) && CanEnd(s, c, act)
    ensures HeardOf(DoEnd(s, c, act))
  {
    MoveHeard(s.pending, s.inbox, s.buf, s.tagOf, s.phase, c, DoEnd(s, c, act).phase[c], {});
    assert s.buf - {} == s.buf;
  }

  lemma FollowsAnswer(s: State, x: Slot, c: Call, y: Slot)
    requires x in s.pending && CanFollow(DoAnswer(s, x).pending, DoAnswer(s, x).inbox, c, y)
    ensures CanFollow(s.pending, s.inbox, c, y)
  {
    if Orig(c) !in s.pending {
      var i, j :| 0 <= i < j < |s.inbox| + 1 && (s.inbox + [x])[i] == y && (s.inbox + [x])[j] == Orig(c);
      assert s.inbox[i] == y && s.inbox[j] == Orig(c);
    }
  }

  lemma AnswerKeepsHeard(s: State, x: Slot)
    requires HeardOf(s) && x in s.pending
    ensures HeardOf(DoAnswer(s, x))
  {
    var s' := DoAnswer(s, x);
    forall c, y | c in s.phase && FlushReg(s.phase[c]) && Stale(s'.pending, s'.inbox, s.tagOf, c, y)
      ensures !CanFollow(s'.pending, s'.inbox, c, y)
    {
      assert Stale(s.pending, s.inbox, s.tagOf, c, y);
      if CanFollow(s'.pending, s'.inbox, c, y) {
        FollowsAnswer(s, x, c, y);
      }
    }
  }

  lemma BehindLater(inbox: seq<Slot>, x: Slot, y: Slot)
    requires inbox != []
    ensures Behind(inbox[1..], x, y) ==> Behind(inbox, x, y)
    ensures x == inbox[0] && y in inbox[1..] ==> Behind(inbox, x, y)
  {
    if i, j :| 0 <= i < j < |inbox[1..]| && inbox[1..][i] == x && inbox[1..][j] == y {
      assert inbox[i + 1] == x && inbox[j + 1] == y;
    }
    if x == inbox[0] && y in inbox[1..] {
      var j :| 0 <= j < |inbox[1..]| && inbox[1..][j] == y;
      assert inbox[0] == x && inbox[j + 1] == y;
    }
  }

  /** The frames that are left follow one another as before. */
  lemma TakeHeard(pending: set<Slot>, inbox: seq<Slot>, buf: map<Slot, Slot>, tagOf: map<Call, Tag>,
                  phase: map<Call, Phase>)
    requires HeardOk(pending, inbox, buf, tagOf, phase) && inbox != []
    ensures HeardOk(pending, inbox[1..], buf, tagOf, phase)
  {
    forall c, y | c in phase && FlushReg(phase[c]) && Stale(pending, inbox[1..], tagOf, c, y)
      ensures !CanFollow(pending, inbox[1..], c, y)
    {
      assert Stale(pending, inbox, tagOf, c, y);
      BehindLater(inbox, y, Orig(c));
    }
  }

  /** An Rflush that reaches a caller, its own or a stale one, is not followed by the caller's response. */
  lemma RflushIsHeard(s: State, c: Call)
    requires HeardOf(s) && FlushedOf(s) && EntriesOf(s) && TagsOf(s) && s.n <= MAX_MAX_INFLIGHT && Enabled(s, Deliver)
    requires TagOf(s.tagOf, s.inbox[0]) in s.entries && s.entries[TagOf(s.tagOf, s.inbox[0])] == Flsh(c)
    ensures Orig(c) !in s.pending && Orig(c) !in s.inbox[1..]
  {
    var x := s.inbox[0];
    DeliverMatches(s.tagOf, s.phase, s.entries, s.closed, x);
    if x.c != c {
      assert Stale(s.pending, s.inbox, s.tagOf, c, x);
      BehindLater(s.inbox, x, Orig(c));
    }
  }

  lemma DeliverKeepsHeard(s: State)
    requires HeardOf(s) && FlushedOf(s) && EntriesOf(s) && TagsOf(s) && s.n <= MAX_MAX_INFLIGHT && Enabled(s, Deliver)
    ensures HeardOf(DoDeliver(s))
  {
    var t, s' := TagOf(s.tagOf, s.inbox[0]), DoDeliver(s);
    TakeHeard(s.pending, s.inbox, s.buf, s.tagOf, s.phase);
    if t in s.entries {
      if s.entries[t].Flsh? {
        RflushIsHeard(s, s.entries[t].c);
      }
      assert s'.buf == s.buf || s'.buf == s.buf[s.entries[t] := s.inbox[0]];
    }
  }

  // ---------------------------------------------------------------- the write lock

  lemma MoveWriter(writer: Option<Call>, phase: map<Call, Phase>, tagOf: map<Call, Tag>, c: Call, p: Phase)
    requires WriterOk(writer, phase, tagOf) && !InWrite(p)
    requires c in phase ==> !InWrite(phase[c])
    ensures WriterOk(writer, phase[c := p], tagOf)
  {
  }

  lemma WriteKeepsWriter(s: State, x: Slot, act: WriteAct)
    requires WriterOk(s.writer, s.phase, s.tagOf) && CanWrite(s, x, act)
    ensures var s' := DoWrite(s, x, act); WriterOk(s'.writer, s'.phase, s'.tagOf)
  {
  }

  // ---------------------------------------------------------------- all parts together

  lemma GateKeepsBase(s: State, c: Call, act: GateAct)
    requires Base(s) && CanGate(s, c, act)
    ensures Base(DoGate(s, c, act)) && DoGate(s, c, act).n == s.n
  {
    GateKeepsTags(s, c, act);
    GateKeepsEntries(s, c, act);
    MoveWriter(s.writer, s.phase, s.tagOf, c, DoGate(s, c, act).phase[c]);
  }

  lemma WriteKeepsBase(s: State, x: Slot, act: WriteAct)
    requires Base(s) && CanWrite(s, x, act)
    ensures Base(DoWrite(s, x, act)) && DoWrite(s, x, act).n == s.n
  {
    WriteKeepsTags(s, x, act);
    WriteKeepsEntries(s, x, act);
    WriteKeepsWriter(s, x, act);
  }

  lemma WaitKeepsBase(s: State, c: Call, act: WaitAct)
    requires Base(s) && CanWait(s, c, act)
    ensures Base(DoWait(s, c, act)) && DoWait(s, c, act).n == s.n
  {
    WaitKeepsTags(s, c, act);
    WaitKeepsEntries(s, c, act);
    WaitMoves(s, c, act);
    WaitAdvances(s, c, act);
    assert !InWrite(DoWait(s, c, act).phase[c]);
    MoveWriter(s.writer, s.phase, s.tagOf, c, DoWait(s, c, act).phase[c]);
  }

  lemma EndKeepsBase(s: State, c: Call, act: EndAct)
    requires Base(s) && CanEnd(s, c, act)
    ensures Base(DoEnd(s, c, act)) && DoEnd(s, c, act).n == s.n
  {
    EndKeepsTags(s, c, act);
    EndKeepsEntries(s, c, act);
    MoveWriter(s.writer, s.phase, s.tagOf, c, DoEnd(s, c, act).phase[c]);
  }

  /** The read loop finds only open channels of calls that have not returned. */
  lemma DeliverKeepsBase(s: State)
    requires Base(s) && Enabled(s, Deliver)
    ensures Base(DoDeliver(s)) && DoDeliver(s).n == s.n
  {
    if TagOf(s.tagOf, s.inbox[0]) in s.entries {
      DeliverMatches(s.tagOf, s.phase, s.entries, s.closed, s.inbox[0]);
    }
  }

  lemma ShutdownKeepsBase(s: State)
    requires Base(s) && !s.stage.Down?
    ensures Base(DoShutdown(s)) && DoShutdown(s).n == s.n
  {
    ShutdownKeepsEntries(s);
  }

  lemma NetworkKeepsBase(s: State, step: Step)
    requires Base(s) && (step.Answer? || step.Misbehave?) && Enabled(s, step)
    ensures Base(Apply(s, step)) && Apply(s, step).n == s.n
  {
  }

  lemma StepKeepsBase(s: State, step: Step)
    requires Base(s) && Enabled(s, step)
    ensures Base(Apply(s, step)) && Apply(s, step).n == s.n
  {
    match step
    case Gate(c, act) => GateKeepsBase(s, c, act);
    case Write(x, act) => WriteKeepsBase(s, x, act);
    case Wait(c, act) => WaitKeepsBase(s, c, act);
    case End(c, act) => EndKeepsBase(s, c, act);
    case Deliver => DeliverKeepsBase(s);
    case Shutdown => ShutdownKeepsBase(s);
    case Answer(x) => NetworkKeepsBase(s, step);
    case Misbehave(x) => NetworkKeepsBase(s, step);
  }

  lemma GateKeepsInv(s: State, c: Call, act: GateAct)
    requires Inv(s) && CanGate(s, c, act)
    ensures Inv(DoGate(s, c, act))
  {
    GateKeepsBase(s, c, act);
    GateKeepsFrames(s, c, act);
    GateKeepsUsers(s, c, act);
    if !IsClosed(s) { GateKeepsQuiet(s, c, act); }
    GateTakesNothing(s, c, act);
    if Takeable(s) { GateKeepsHeard(s, c, act); }
    GateKeepsOwn(s, c, act);
  }

  lemma WriteKeepsInv(s: State, x: Slot, act: WriteAct)
    requires Inv(s) && CanWrite(s, x, act)
    ensures Inv(DoWrite(s, x, act))
  {
    WriteKeepsBase(s, x, act);
    WriteKeepsFrames(s, x, act);
    if act.Begin? && x.Orig? { BeginKeepsUsers(s, x.c); } else { WriteKeepsUsers(s, x, act); }
    if !IsClosed(s) { WriteKeepsQuiet(s, x, act); }
    WriteAdvances(s, x, act);
    AdvanceTakesNothing(s, DoWrite(s, x, act), x.c);
    if Takeable(s) { WriteKeepsHeard(s, x, act); }
    WriteKeepsOwn(s, x, act);
    WriteKeepsFlushed(s, x, act);
  }

  lemma WaitKeepsInv(s: State, c: Call, act: WaitAct)
    requires Inv(s) && CanWait(s, c, act) && MirrorQuiet(s, Wait(c, act))
    ensures Inv(DoWait(s, c, act))
  {
    WaitKeepsBase(s, c, act);
    WaitKeepsFrames(s, c, act);
    WaitKeepsUsers(s, c, act);
    if !IsClosed(s) { WaitKeepsQuiet(s, c, act); }
    WaitMoves(s, c, act);
    WaitAdvances(s, c, act);
    AdvanceTakesNothing(s, DoWait(s, c, act), c);
    if Takeable(s) { WaitKeepsHeard(s, c, act); }
    WaitKeepsOwn(s, c, act);
  }

  lemma EndKeepsInv(s: State, c: Call, act: EndAct)
    requires Inv(s) && CanEnd(s, c, act)
    ensures Inv(DoEnd(s, c, act))
  {
    EndKeepsBase(s, c, act);
    EndKeepsFrames(s, c, act);
    EndKeepsUsers(s, c, act);
    if !IsClosed(s) { EndKeepsQuiet(s, c, act); }
    EndAdvances(s, c, act);
    AdvanceTakesNothing(s, DoEnd(s, c, act), c);
    if Takeable(s) { EndKeepsHeard(s, c, act); }
    EndKeepsOwn(s, c, act);
  }

  lemma AnswerKeepsInv(s: State, x: Slot)
    requires Inv(s) && x in s.pending
    ensures Inv(DoAnswer(s, x))
  {
    AnswerKeepsFrames(s, x);
    NetworkKeepsUsers(s, Answer(x));
    if !IsClosed(s) { AnswerKeepsQuiet(s, x); }
    AnswerKeepsFlushed(s, x);
    if Takeable(s) { AnswerKeepsHeard(s, x); }
  }

  lemma DeliverKeepsInv(s: State)
    requires Inv(s) && Enabled(s, Deliver)
    ensures Inv(DoDeliver(s))
  {
    DeliverKeepsBase(s);
    DeliverKeepsFrames(s);
    NetworkKeepsUsers(s, Deliver);
    if !IsClosed(s) { DeliverKeepsQuiet(s); }
    DeliverKeepsOwn(s);
    DeliverKeepsFlushed(s);
    if Takeable(s) { DeliverKeepsHeard(s); }
  }

  lemma ShutdownKeepsInv(s: State)
    requires Inv(s) && !s.stage.Down?
    ensures Inv(DoShutdown(s))
  {
    ShutdownKeepsBase(s);
  }

  lemma StepKeepsInv(s: State, step: Step)
    requires Inv(s) && Enabled(s, step) && !step.Misbehave? && MirrorQuiet(s, step)
    ensures Inv(Apply(s, step))
  {
    match step
    case Gate(c, act) => GateKeepsInv(s, c, act);
    case Write(x, act) => WriteKeepsInv(s, x, act);
    case Wait(c, act) => WaitKeepsInv(s, c, act);
    case End(c, act) => EndKeepsInv(s, c, act);
    case Answer(x) => AnswerKeepsInv(s, x);
    case Deliver => DeliverKeepsInv(s);
    case Shutdown => ShutdownKeepsInv(s);
  }

  lemma {:induction false} RunKeepsBase(n: nat, run: seq<State>, steps: seq<Step>, k: nat)
    requires Run(n, run, steps) && k < |run|
    ensures Base(run[k]) && run[k].n == n
  {
    if k > 0 {
      RunKeepsBase(n, run, steps, k - 1);
      StepKeepsBase(run[k - 1], steps[k - 1]);
    }
  }

  lemma {:induction false} QuietRunKeepsInv(n: nat, run: seq<State>, steps: seq<Step>, k: nat)
    requires QuietRun(n, run, steps) && k < |run|
    ensures Inv(run[k])
  {
    if k > 0 {
      QuietRunKeepsInv(n, run, steps, k - 1);
      StepKeepsInv(run[k - 1], steps[k - 1]);
    }
  }
}
