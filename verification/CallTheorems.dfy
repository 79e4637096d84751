/**
 What becomes of one call of the client multiplexer: how it was admitted, what it is handed, and what its
 cancellation does to its tag (roundTrip in client/ops.go, flushAndWait in client/flush.go).
 */
module CallTheorems {
  import opened Common
  import opened ClientMux
  import opened ClientMuxProof
  import opened ClientTheorems

  // ---------------------------------------------------------------- what a step leaves alone

  /** Only the given call moves, no call changes how it was admitted, and no tag comes back into use. */
  ghost predicate Frame(s: State, s': State, who: Option<Call>) {
    && s'.flushable == s.flushable && s'.zeroCopy == s.zeroCopy && s'.phase.Keys == s.phase.Keys
    && s.quarantined <= s'.quarantined
    && (forall c :: c in s.phase && who != Some(c) ==>
          && s'.phase[c] == s.phase[c] && (c in s.tagOf <==> c in s'.tagOf)
          && (c in s.tagOf ==> s'.tagOf[c] == s.tagOf[c]))
  }

  lemma GateFrame(s: State, c: Call, act: GateAct)
    requires CanGate(s, c, act) && !act.Admit?
    ensures Frame(s, DoGate(s, c, act), Some(c))
    ensures var s' := DoGate(s, c, act);
            s'.pending == s.pending && s'.inbox == s.inbox && s'.quarantined == s.quarantined
  {
  }

  lemma WriteFrame(s: State, x: Slot, act: WriteAct)
    requires CanWrite(s, x, act)
    ensures Frame(s, DoWrite(s, x, act), Some(x.c))
    ensures var s' := DoWrite(s, x, act);
            s'.entries == s.entries && s'.inbox == s.inbox && s'.quarantined == s.quarantined
  {
  }

  lemma WaitFrame(s: State, c: Call, act: WaitAct)
    requires CanWait(s, c, act)
    ensures Frame(s, DoWait(s, c, act), Some(c))
    ensures var s' := DoWait(s, c, act);
            && s'.pending == s.pending && s'.inbox == s.inbox
            && (!act.Abandon? ==> s'.quarantined == s.quarantined)
  {
  }

  lemma EndFrame(s: State, c: Call, act: EndAct)
    requires CanEnd(s, c, act)
    ensures Frame(s, DoEnd(s, c, act), Some(c))
    ensures var s' := DoEnd(s, c, act);
            s'.pending == s.pending && s'.inbox == s.inbox && s'.quarantined == s.quarantined
  {
  }

  lemma DeliverFrame(s: State)
    requires Enabled(s, Deliver)
    ensures Frame(s, DoDeliver(s), None)
    ensures var s' := DoDeliver(s);
            && s'.entries == s.entries && s'.pending == s.pending && s'.inbox == s.inbox[1..]
            && s'.quarantined == s.quarantined
  {
  }

  lemma NetworkFrame(s: State, step: Step)
    requires Enabled(s, step) && (step.Answer? || step.Misbehave? || step.Shutdown?)
    ensures Frame(s, Apply(s, step), None)
    ensures var s' := Apply(s, step);
            && s'.pending <= s.pending && s'.quarantined == s.quarantined
            && (forall t :: t in s'.entries ==> t in s.entries && s'.entries[t] == s.entries[t])
            && s'.inbox == if step.Shutdown? then s.inbox else s.inbox + [step.x]
  {
  }

  predicate Admits(step: Step) { step.Gate? && step.gate.Admit? }

  lemma StepFrame(s: State, step: Step)
    requires Enabled(s, step) && !Admits(step)
    ensures Frame(s, Apply(s, step), Mine(step))
    ensures !(step.Wait? && step.wait.Abandon?) ==> Apply(s, step).quarantined == s.quarantined
  {
    match step
    case Gate(c, act) => GateFrame(s, c, act);
    case Write(x, act) => WriteFrame(s, x, act);
    case Wait(c, act) => WaitFrame(s, c, act);
    case End(c, act) => EndFrame(s, c, act);
    case Deliver => DeliverFrame(s);
    case _ => NetworkFrame(s, step);
  }

  lemma AdmitFrame(s: State, c: Call, flush: bool, zeroCopy: bool)
    requires CanGate(s, c, Admit(flush, zeroCopy))
    ensures DoGate(s, c, Admit(flush, zeroCopy)) ==
            s.(phase := s.phase[c := Acquiring],
               flushable := if flush then s.flushable + {c} else s.flushable,
               zeroCopy := if zeroCopy then s.zeroCopy + {c} else s.zeroCopy)
  {
  }

  // ---------------------------------------------------------------- how a call was admitted

  predicate Admitted(s: State, c: Call, flush: bool, zeroCopy: bool) {
    c in s.phase && (c in s.flushable <==> flush) && (c in s.zeroCopy <==> zeroCopy)
  }

  ghost predicate ModesOk(s: State) { s.flushable <= s.phase.Keys && s.zeroCopy <= s.phase.Keys }

  lemma AdmitSetsModes(s: State, c: Call, flush: bool, zeroCopy: bool)
    requires ModesOk(s) && CanGate(s, c, Admit(flush, zeroCopy))
    ensures var s' := DoGate(s, c, Admit(flush, zeroCopy));
            && ModesOk(s') && Admitted(s', c, flush, zeroCopy)
            && forall d :: d in s.phase ==> Admitted(s', d, d in s.flushable, d in s.zeroCopy)
  {
  }

  ghost predicate ModesAt(run: seq<State>, k: nat) { k < |run| && ModesOk(run[k]) }

  lemma RunKeepsModes(n: nat, run: seq<State>, steps: seq<Step>, k: nat)
    requires Run(n, run, steps) && k < |run|
    ensures ModesAt(run, k)
  {
    for i := 0 to k
      invariant ModesAt(run, i)
    {
      var step := steps[i];
      if Admits(step) {
        AdmitSetsModes(run[i], step.c, step.gate.flush, step.gate.zeroCopy);
      } else {
        StepFrame(run[i], step);
      }
    }
  }

  lemma StepKeepsAdmitted(s: State, step: Step, c: Call, flush: bool, zeroCopy: bool)
    requires ModesOk(s) && Enabled(s, step) && Admitted(s, c, flush, zeroCopy)
    ensures Admitted(Apply(s, step), c, flush, zeroCopy)
  {
    if Admits(step) {
      AdmitSetsModes(s, step.c, step.gate.flush, step.gate.zeroCopy);
    } else {
      StepFrame(s, step);
    }
  }

  ghost predicate AdmittedAt(run: seq<State>, k: nat, c: Call, flush: bool, zeroCopy: bool) {
    k < |run| && Admitted(run[k], c, flush, zeroCopy)
  }

  /** A call keeps the way it was admitted. */
  lemma AdmissionLasts(n: nat, run: seq<State>, steps: seq<Step>, i: nat, k: nat, c: Call, flush: bool, zeroCopy: bool)
    requires Run(n, run, steps) && i < k < |run| && steps[i] == Gate(c, Admit(flush, zeroCopy))
    ensures AdmittedAt(run, k, c, flush, zeroCopy)
  {
    RunKeepsModes(n, run, steps, i);
    AdmitSetsModes(run[i], c, flush, zeroCopy);
    for j := i + 1 to k
      invariant AdmittedAt(run, j, c, flush, zeroCopy)
    {
      RunKeepsModes(n, run, steps, j);
      StepKeepsAdmitted(run[j], steps[j], c, flush, zeroCopy);
    }
  }

  // ---------------------------------------------------------------- who flushes

  predicate InFlush(p: Phase) { p.Flushing? || FlushReg(p) || p.Unflushed? }

  /** Only a call admitted with flush flushes, and only one admitted without is abandoned. */
  ghost predicate CancelOk(phase: map<Call, Phase>, flushable: set<Call>) {
    forall c :: c in phase ==> if c in flushable then !phase[c].Abandoning? else !InFlush(phase[c])
  }

  /** Every Tflush frame and mirror registration belongs to a call admitted with flush. */
  ghost predicate FlushersOk(entries: map<Tag, Slot>, pending: set<Slot>, flushable: set<Call>) {
    && (forall t :: t in entries && entries[t].Flsh? ==> entries[t].c in flushable)
    && (forall x :: x in pending && x.Flsh? ==> x.c in flushable)
  }

  ghost predicate FlushModes(s: State) {
    ModesOk(s) && CancelOk(s.phase, s.flushable) && FlushersOk(s.entries, s.pending, s.flushable)
  }

  lemma GateKeepsFlushModes(s: State, c: Call, act: GateAct)
    requires FlushModes(s) && CanGate(s, c, act)
    ensures FlushModes(DoGate(s, c, act))
  {
  }

  lemma WriteKeepsFlushModes(s: State, x: Slot, act: WriteAct)
    requires FlushModes(s) && CanWrite(s, x, act)
    ensures FlushModes(DoWrite(s, x, act))
  {
    WriteFrame(s, x, act);
    assert x.Flsh? ==> InFlush(s.phase[x.c]);
  }

  lemma WaitKeepsFlushModes(s: State, c: Call, act: WaitAct)
    requires FlushModes(s) && CanWait(s, c, act)
    ensures FlushModes(DoWait(s, c, act))
  {
    WaitFrame(s, c, act);
    WaitModes(s, c, act);
    WaitEntries(s, c, act);
  }

  lemma WaitModes(s: State, c: Call, act: WaitAct)
    requires CanWait(s, c, act) && (if c in s.flushable then !s.phase[c].Abandoning? else !InFlush(s.phase[c]))
    ensures var p := DoWait(s, c, act).phase[c]; if c in s.flushable then !p.Abandoning? else !InFlush(p)
  {
  }

  lemma WaitEntries(s: State, c: Call, act: WaitAct)
    requires CanWait(s, c, act) && (c !in s.flushable ==> !InFlush(s.phase[c]))
    requires FlushersOk(s.entries, s.pending, s.flushable)
    ensures FlushersOk(DoWait(s, c, act).entries, s.pending, s.flushable)
  {
  }

  lemma EndKeepsFlushModes(s: State, c: Call, act: EndAct)
    requires FlushModes(s) && CanEnd(s, c, act)
    ensures FlushModes(DoEnd(s, c, act))
  {
    EndFrame(s, c, act);
    var p := DoEnd(s, c, act).phase[c];
    assert !p.Abandoning? && (InFlush(p) ==> InFlush(s.phase[c]));
  }

  lemma StepKeepsFlushModes(s: State, step: Step)
    requires FlushModes(s) && Enabled(s, step)
    ensures FlushModes(Apply(s, step))
  {
    match step
    case Gate(c, act) => GateKeepsFlushModes(s, c, act);
    case Write(x, act) => WriteKeepsFlushModes(s, x, act);
    case Wait(c, act) => WaitKeepsFlushModes(s, c, act);
    case End(c, act) => EndKeepsFlushModes(s, c, act);
    case Deliver => DeliverFrame(s);
    case _ => NetworkFrame(s, step);
  }

  ghost predicate FlushModesAt(run: seq<State>, k: nat) { k < |run| && FlushModes(run[k]) }

  lemma RunKeepsFlushModes(n: nat, run: seq<State>, steps: seq<Step>, k: nat)
    requires Run(n, run, steps) && k < |run|
    ensures FlushModesAt(run, k)
  {
    for i := 0 to k
      invariant FlushModesAt(run, i)
    {
      StepKeepsFlushModes(run[i], steps[i]);
    }
  }

  /** A call admitted without flush never registers a mirror tag or sends a Tflush. */
  lemma UnflushedCallSendsNoTflush(n: nat, run: seq<State>, steps: seq<Step>, i: nat, k: nat, c: Call, zeroCopy: bool)
    requires Run(n, run, steps) && i < k < |run| && steps[i] == Gate(c, Admit(false, zeroCopy))
    ensures Flsh(c) !in run[k].pending && c in run[k].phase && !InFlush(run[k].phase[c])
    ensures forall t :: t in run[k].entries ==> run[k].entries[t] != Flsh(c)
    ensures (forall step :: step in steps ==> step != Misbehave(Flsh(c))) ==> Flsh(c) !in run[k].inbox
  {
    AdmissionLasts(n, run, steps, i, k, c, false, zeroCopy);
    RunKeepsFlushModes(n, run, steps, k);
    if forall step :: step in steps ==> step != Misbehave(Flsh(c)) {
      NoRflushComes(n, run, steps, i, k, c, zeroCopy);
    }
  }

  ghost predicate NotComing(run: seq<State>, k: nat, x: Slot) { k < |run| && x !in run[k].inbox }

  lemma StepSendsNothing(s: State, step: Step, x: Slot)
    requires Enabled(s, step) && step != Misbehave(x) && x !in s.inbox && x !in s.pending
    ensures x !in Apply(s, step).inbox
  {
    match step
    case Gate(c, act) => if act.Admit? { AdmitFrame(s, c, act.flush, act.zeroCopy); } else { GateFrame(s, c, act); }
    case Write(y, act) => WriteFrame(s, y, act);
    case Wait(c, act) => WaitFrame(s, c, act);
    case End(c, act) => EndFrame(s, c, act);
    case Deliver => DeliverFrame(s);
    case _ => NetworkFrame(s, step);
  }

  /** Until the call is admitted nothing of it is under way. */
  lemma NoRflushComes(n: nat, run: seq<State>, steps: seq<Step>, i: nat, k: nat, c: Call, zeroCopy: bool)
    requires Run(n, run, steps) && i < k < |run| && steps[i] == Gate(c, Admit(false, zeroCopy))
    requires forall step :: step in steps ==> step != Misbehave(Flsh(c))
    ensures Flsh(c) !in run[k].inbox
  {
    for j := 0 to k
      invariant NotComing(run, j, Flsh(c))
    {
      assert steps[j] in steps;
      NoTflushPending(n, run, steps, i, j, c, zeroCopy);
      StepSendsNothing(run[j], steps[j], Flsh(c));
    }
  }

  lemma NoTflushPending(n: nat, run: seq<State>, steps: seq<Step>, i: nat, j: nat, c: Call, zeroCopy: bool)
    requires Run(n, run, steps) && i < |steps| && steps[i] == Gate(c, Admit(false, zeroCopy)) && j < |run|
    ensures Flsh(c) !in run[j].pending
  {
    RunKeepsFlushModes(n, run, steps, j);
    if j > i {
      AdmissionLasts(n, run, steps, i, j, c, false, zeroCopy);
    } else {
      CallsStay(n, run, steps, j, i, c);
    }
  }

  ghost predicate PresentAt(run: seq<State>, k: nat, c: Call) { k < |run| && c in run[k].phase }

  lemma StepKeepsCalls(s: State, step: Step)
    requires Enabled(s, step)
    ensures s.phase.Keys <= Apply(s, step).phase.Keys
  {
    if Admits(step) {
      AdmitFrame(s, step.c, step.gate.flush, step.gate.zeroCopy);
    } else {
      StepFrame(s, step);
    }
  }

  /** A call once admitted stays known. */
  lemma CallsStay(n: nat, run: seq<State>, steps: seq<Step>, j: nat, k: nat, c: Call)
    requires Run(n, run, steps) && j <= k < |run|
    ensures c in run[j].phase ==> c in run[k].phase
  {
    if c in run[j].phase {
      for i := j to k
        invariant PresentAt(run, i, c)
      {
        StepKeepsCalls(run[i], steps[i]);
      }
    }
  }

  // ---------------------------------------------------------------- cancellation and quarantine

  /** Cancelled without flush: about to be abandoned, or returned with its tag out of use. */
  predicate GivenUp(s: State, c: Call) {
    c in s.phase && c in s.tagOf &&
    (s.phase[c].Abandoning? || (s.phase[c] == Returned(Failed) && s.tagOf[c] in s.quarantined))
  }

  /** The call took message m from its channel. */
  predicate Took(p: Phase, m: Slot) { p == Got(m) || p == Releasing(Delivered(m)) || p == Returned(Delivered(m)) }

  /** What a step of its own can make of a call. */
  ghost predicate Moved(s: State, step: Step, s': State, c: Call)
    requires c in s.phase
  {
    && c in s'.phase
    && var p, p' := s.phase[c], s'.phase[c];
       && (p'.Abandoning? ==> step == Wait(c, Cancel))
       && (p.Abandoning? || p.Returned? ==> GivenUp(s', c))
       && (p'.Returned? ==>
             || step == Gate(c, AcquireFails)
             || (step == Wait(c, Abandon) && p.Abandoning?)
             || (step == End(c, Release) && c in s.tagOf && s.tagOf[c] in s'.free))
       && (forall m :: Took(p, m) ==> Took(p', m))
       && (forall m :: Took(p', m) ==>
             Took(p, m) || (step == Wait(c, Receive) && Orig(c) in s.buf && s.buf[Orig(c)] == m))
  }

  lemma GateMoves(s: State, c: Call, act: GateAct)
    requires CanGate(s, c, act) && c in s.phase
    ensures Moved(s, Gate(c, act), DoGate(s, c, act), c)
  {
  }

  lemma WriteMoves(s: State, x: Slot, act: WriteAct)
    requires CanWrite(s, x, act)
    ensures Moved(s, Write(x, act), DoWrite(s, x, act), x.c)
  {
  }

  lemma WaitMovesCall(s: State, c: Call, act: WaitAct)
    requires CanWait(s, c, act)
    ensures Moved(s, Wait(c, act), DoWait(s, c, act), c)
  {
  }

  lemma EndMoves(s: State, c: Call, act: EndAct)
    requires CanEnd(s, c, act)
    ensures Moved(s, End(c, act), DoEnd(s, c, act), c)
  {
  }

  lemma OwnStep(s: State, step: Step, c: Call)
    requires Enabled(s, step) && c in s.phase && Mine(step) == Some(c)
    ensures Moved(s, step, Apply(s, step), c)
  {
    match step
    case Gate(d, act) => GateMoves(s, d, act);
    case Write(x, act) => WriteMoves(s, x, act);
    case Wait(d, act) => WaitMovesCall(s, d, act);
    case End(d, act) => EndMoves(s, d, act);
  }

  /** A step of somebody else leaves the call where it was. */
  lemma OthersLeaveAlone(s: State, step: Step, c: Call)
    requires Enabled(s, step) && c in s.phase && Mine(step) != Some(c)
    ensures var s' := Apply(s, step);
            && c in s'.phase && s'.phase[c] == s.phase[c] && (c in s.tagOf <==> c in s'.tagOf)
            && (c in s.tagOf ==> s'.tagOf[c] == s.tagOf[c]) && s.quarantined <= s'.quarantined
  {
    if Admits(step) {
      AdmitFrame(s, step.c, step.gate.flush, step.gate.zeroCopy);
    } else {
      StepFrame(s, step);
    }
  }

  lemma StepKeepsGivenUp(s: State, step: Step, c: Call)
    requires Enabled(s, step) && GivenUp(s, c)
    ensures GivenUp(Apply(s, step), c)
  {
    if Mine(step) == Some(c) {
      OwnStep(s, step, c);
    } else {
      OthersLeaveAlone(s, step, c);
    }
  }

  ghost predicate GivenUpAt(run: seq<State>, k: nat, c: Call) { k < |run| && GivenUp(run[k], c) }

  /** A cancelled call that does not flush returns with an error, and its tag is then out of use for good. */
  lemma CancelledUnflushedIsQuarantined(n: nat, run: seq<State>, steps: seq<Step>, i: nat, j: nat, k: nat, c: Call,
                                        zeroCopy: bool)
    requires Run(n, run, steps) && i < j < k < |run|
    requires steps[i] == Gate(c, Admit(false, zeroCopy)) && steps[j] == Wait(c, Cancel)
    requires c in run[k].phase && run[k].phase[c].Returned?
    ensures run[k].phase[c].out == Failed && c in run[k].tagOf && run[k].tagOf[c] in run[k].quarantined
    ensures run[k].tagOf[c] !in run[k].free
  {
    AdmissionLasts(n, run, steps, i, j, c, false, zeroCopy);
    assert GivenUpAt(run, j + 1, c);
    for m := j + 1 to k
      invariant GivenUpAt(run, m, c)
    {
      StepKeepsGivenUp(run[m], steps[m], c);
    }
    RunKeepsBase(n, run, steps, k);
  }

  lemma ReturnGivesTagBack(s: State, step: Step, c: Call)
    requires Enabled(s, step) && c in s.phase && c in s.flushable && CancelOk(s.phase, s.flushable)
    requires !s.phase[c].Returned?
    ensures var s' := Apply(s, step);
            c in s'.phase && s'.phase[c].Returned? ==>
              step == Gate(c, AcquireFails) || (step == End(c, Release) && c in s.tagOf && s.tagOf[c] in s'.free)
  {
    if Mine(step) == Some(c) {
      OwnStep(s, step, c);
    } else {
      OthersLeaveAlone(s, step, c);
    }
  }

  /** A call admitted with flush gives its tag back whenever it returns with one: it is never quarantined. */
  lemma FlushedCallGivesTagBack(n: nat, run: seq<State>, steps: seq<Step>, i: nat, k: nat, c: Call, zeroCopy: bool)
    requires Run(n, run, steps) && i < k < |steps| && steps[i] == Gate(c, Admit(true, zeroCopy))
    requires c in run[k].phase && !run[k].phase[c].Returned?
    requires c in run[k + 1].phase && run[k + 1].phase[c].Returned?
    ensures c !in run[k].tagOf || (run[k].tagOf[c] in run[k + 1].free && run[k].tagOf[c] !in run[k + 1].quarantined)
  {
    AdmissionLasts(n, run, steps, i, k, c, true, zeroCopy);
    RunKeepsFlushModes(n, run, steps, k);
    ReturnGivesTagBack(run[k], steps[k], c);
    RunKeepsBase(n, run, steps, k);
    RunKeepsBase(n, run, steps, k + 1);
  }

  lemma QuarantinesNothing(s: State, step: Step)
    requires Enabled(s, step) && !(step.Wait? && step.wait.Abandon?)
    ensures Apply(s, step).quarantined == s.quarantined
  {
    if Admits(step) {
      AdmitFrame(s, step.c, step.gate.flush, step.gate.zeroCopy);
    } else {
      StepFrame(s, step);
    }
  }

  /** A call's first step is its admission. */
  lemma FirstIsAdmission(s: State, step: Step, c: Call)
    requires Enabled(s, step) && c !in s.phase && c in Apply(s, step).phase
    ensures Admits(step) && step.c == c && Apply(s, step).phase[c].Acquiring?
  {
    if !Admits(step) {
      StepFrame(s, step);
    }
  }

  /** How a call comes to be abandoned, or to have a message. */
  lemma Became(s: State, step: Step, c: Call)
    requires Enabled(s, step) && c in Apply(s, step).phase
    ensures var p' := Apply(s, step).phase[c];
            && (p'.Abandoning? ==> c in s.phase && (s.phase[c].Abandoning? || step == Wait(c, Cancel)))
            && forall m :: Took(p', m) ==>
                 || (c in s.phase && Took(s.phase[c], m))
                 || (step == Wait(c, Receive) && Orig(c) in s.buf && s.buf[Orig(c)] == m)
  {
    if c !in s.phase {
      FirstIsAdmission(s, step, c);
    } else if Mine(step) == Some(c) {
      OwnStep(s, step, c);
    } else {
      OthersLeaveAlone(s, step, c);
    }
  }

  lemma {:induction false} WasAdmitted(n: nat, run: seq<State>, steps: seq<Step>, k: nat, c: Call)
    returns (i: nat, flush: bool, zeroCopy: bool)
    requires Run(n, run, steps) && PresentAt(run, k, c)
    ensures i < k && steps[i] == Gate(c, Admit(flush, zeroCopy))
  {
    var j := k - 1;
    if PresentAt(run, j, c) {
      i, flush, zeroCopy := WasAdmitted(n, run, steps, j, c);
    } else {
      i := j;
      FirstIsAdmission(run[j], steps[j], c);
      flush, zeroCopy := steps[j].gate.flush, steps[j].gate.zeroCopy;
    }
  }

  ghost predicate AbandoningAt(run: seq<State>, k: nat, c: Call) {
    k < |run| && c in run[k].phase && run[k].phase[c].Abandoning?
  }

  lemma {:induction false} WasCancelled(n: nat, run: seq<State>, steps: seq<Step>, k: nat, c: Call) returns (j: nat)
    requires Run(n, run, steps) && AbandoningAt(run, k, c)
    ensures j < k && steps[j] == Wait(c, Cancel) && PresentAt(run, j, c)
  {
    j := k - 1;
    if AbandoningAt(run, j, c) {
      j := WasCancelled(n, run, steps, j, c);
    } else {
      Became(run[j], steps[j], c);
    }
  }

  /** A tag goes out of use only with a call that was admitted without flush, held it, and was cancelled. */
  lemma QuarantineFollowsCancel(n: nat, run: seq<State>, steps: seq<Step>, k: nat, t: Tag)
    returns (i: nat, j: nat, c: Call, zeroCopy: bool)
    requires Run(n, run, steps) && k < |steps| && t !in run[k].quarantined && t in run[k + 1].quarantined
    ensures i < j < k && steps[i] == Gate(c, Admit(false, zeroCopy)) && steps[j] == Wait(c, Cancel)
    ensures c in run[k].tagOf && run[k].tagOf[c] == t
  {
    if !(steps[k].Wait? && steps[k].wait.Abandon?) {
      QuarantinesNothing(run[k], steps[k]);
    }
    c := steps[k].c;
    j := WasCancelled(n, run, steps, k, c);
    var flush;
    i, flush, zeroCopy := WasAdmitted(n, run, steps, j, c);
    if flush {
      AdmissionLasts(n, run, steps, i, k, c, true, zeroCopy);
      RunKeepsFlushModes(n, run, steps, k);
    }
  }

  // ---------------------------------------------------------------- what a call is handed

  lemma StepKeepsTook(s: State, step: Step, c: Call, m: Slot)
    requires Enabled(s, step) && c in s.phase && Took(s.phase[c], m)
    ensures c in Apply(s, step).phase && Took(Apply(s, step).phase[c], m)
  {
    if Mine(step) == Some(c) {
      OwnStep(s, step, c);
    } else {
      OthersLeaveAlone(s, step, c);
    }
  }

  ghost predicate TookAt(run: seq<State>, k: nat, c: Call, m: Slot) {
    k < |run| && c in run[k].phase && Took(run[k].phase[c], m)
  }

  /** A caller that receives a message returns that message. */
  lemma ReceivedIsReturned(n: nat, run: seq<State>, steps: seq<Step>, i: nat, k: nat, c: Call)
    requires Run(n, run, steps) && i < k < |run| && steps[i] == Wait(c, Receive)
    requires c in run[k].phase && run[k].phase[c].Returned?
    ensures Orig(c) in run[i].buf && run[k].phase[c].out == Delivered(run[i].buf[Orig(c)])
  {
    var m := run[i].buf[Orig(c)];
    assert TookAt(run, i + 1, c, m);
    for j := i + 1 to k
      invariant TookAt(run, j, c, m)
    {
      StepKeepsTook(run[j], steps[j], c, m);
    }
  }

  /** And it returns nothing else: a message returned was received. */
  lemma {:induction false} ReturnedWasReceived(n: nat, run: seq<State>, steps: seq<Step>, k: nat, c: Call, m: Slot)
    returns (i: nat)
    requires Run(n, run, steps) && TookAt(run, k, c, m)
    ensures i < k && steps[i] == Wait(c, Receive) && Orig(c) in run[i].buf && run[i].buf[Orig(c)] == m
  {
    i := k - 1;
    if TookAt(run, i, c, m) {
      i := ReturnedWasReceived(n, run, steps, i, c, m);
    } else {
      Became(run[i], steps[i], c);
    }
  }

  /** The step empties the call's channel. */
  predicate Takes(step: Step, ch: Slot) { step.Wait? && ch in Taken(step.c, step.wait) }

  ghost predicate Kept(buf: map<Slot, Slot>, buf': map<Slot, Slot>, taken: set<Slot>) {
    forall ch :: ch in buf && ch !in taken ==> ch in buf' && buf'[ch] == buf[ch]
  }

  lemma GateKeepsMessages(s: State, c: Call, act: GateAct)
    requires CanGate(s, c, act)
    ensures DoGate(s, c, act).buf == s.buf
  {
  }

  lemma DeliverKeepsMessages(s: State)
    requires Enabled(s, Deliver)
    ensures Kept(s.buf, DoDeliver(s).buf, {})
  {
  }

  lemma StepKeepsMessage(s: State, step: Step, ch: Slot)
    requires Enabled(s, step) && ch in s.buf && !Takes(step, ch)
    ensures ch in Apply(s, step).buf && Apply(s, step).buf[ch] == s.buf[ch]
  {
    match step
    case Gate(c, act) => GateKeepsMessages(s, c, act);
    case Write(x, act) => assert DoWrite(s, x, act).buf == s.buf;
    case Wait(c, act) => WaitMoves(s, c, act);
    case End(c, act) => assert DoEnd(s, c, act).buf == s.buf;
    case Answer(x) => assert DoAnswer(s, x).buf == s.buf;
    case Misbehave(x) => assert Apply(s, step).buf == s.buf;
    case Deliver => DeliverKeepsMessages(s);
    case Shutdown => assert DoShutdown(s).buf == s.buf;
  }

  ghost predicate HoldsAt(run: seq<State>, k: nat, ch: Slot, m: Slot) {
    k < |run| && ch in run[k].buf && run[k].buf[ch] == m
  }

  /** The first message delivered to a channel stays there, whatever else arrives, until its caller takes it. */
  lemma FirstMessageStays(n: nat, run: seq<State>, steps: seq<Step>, i: nat, k: nat, ch: Slot)
    requires Run(n, run, steps) && i <= k < |run| && ch in run[i].buf
    requires forall j :: i <= j < k ==> !Takes(steps[j], ch)
    ensures ch in run[k].buf && run[k].buf[ch] == run[i].buf[ch]
  {
    for j := i to k
      invariant HoldsAt(run, j, ch, run[i].buf[ch])
    {
      StepKeepsMessage(run[j], steps[j], ch);
    }
  }

  // ---------------------------------------------------------------- the stages of shutdown

  function Index(stage: Stage): nat {
    match stage
    case Up => 0
    case AdmissionClosed => 1
    case ChannelClosed => 2
    case Down => 3
  }

  function Shutdowns(steps: seq<Step>): nat {
    if steps == [] then 0 else Shutdowns(steps[..|steps| - 1]) + if steps[|steps| - 1].Shutdown? then 1 else 0
  }

  lemma StepKeepsStage(s: State, step: Step)
    requires Enabled(s, step)
    ensures Index(Apply(s, step).stage) == Index(s.stage) + if step.Shutdown? then 1 else 0
  {
    match step
    case Gate(c, act) => assert DoGate(s, c, act).stage == s.stage;
    case Write(x, act) => assert DoWrite(s, x, act).stage == s.stage;
    case Wait(c, act) => assert DoWait(s, c, act).stage == s.stage;
    case End(c, act) => assert DoEnd(s, c, act).stage == s.stage;
    case Deliver => assert DoDeliver(s).stage == s.stage;
    case Answer(x) => assert DoAnswer(s, x).stage == s.stage;
    case Misbehave(x) => assert Apply(s, step).stage == s.stage;
    case Shutdown => assert Index(DoShutdown(s).stage) == Index(s.stage) + 1;
  }

  ghost predicate StageAt(run: seq<State>, steps: seq<Step>, k: nat) {
    k < |run| && k <= |steps| && Index(run[k].stage) == Shutdowns(steps[..k])
  }

  /** Shutdown goes through its stages one at a time: first admission closes, then closeCh, then the channels. */
  lemma ShutdownRunsInOrder(n: nat, run: seq<State>, steps: seq<Step>, k: nat)
    requires Run(n, run, steps) && k < |run|
    ensures Index(run[k].stage) == Shutdowns(steps[..k])
  {
    for j := 0 to k
      invariant StageAt(run, steps, j)
    {
      StepKeepsStage(run[j], steps[j]);
      assert steps[..j + 1][..j] == steps[..j];
    }
  }

  // ---------------------------------------------------------------- nothing is sent after the connection closed

  ghost predicate Quieter(s: State, s': State) { IsClosed(s') && s'.pending <= s.pending }

  lemma GateAfterClose(s: State, c: Call, act: GateAct)
    requires CanGate(s, c, act) && IsClosed(s)
    ensures Quieter(s, DoGate(s, c, act))
  {
  }

  lemma WriteAfterClose(s: State, x: Slot, act: WriteAct)
    requires CanWrite(s, x, act) && IsClosed(s)
    ensures Quieter(s, DoWrite(s, x, act))
  {
  }

  lemma StepAfterClose(s: State, step: Step)
    requires Enabled(s, step) && IsClosed(s)
    ensures Quieter(s, Apply(s, step))
  {
    StepKeepsStage(s, step);
    match step
    case Gate(c, act) => GateAfterClose(s, c, act);
    case Write(x, act) => WriteAfterClose(s, x, act);
    case Wait(c, act) => WaitFrame(s, c, act);
    case End(c, act) => EndFrame(s, c, act);
    case Deliver => DeliverFrame(s);
    case _ => NetworkFrame(s, step);
  }

  ghost predicate QuieterAt(run: seq<State>, k: nat, s: State) { k < |run| && Quieter(s, run[k]) }

  /** Once the connection is closed no frame is begun: what the server may still answer only shrinks. */
  lemma NothingIsSentAfterClose(n: nat, run: seq<State>, steps: seq<Step>, i: nat, k: nat)
    requires Run(n, run, steps) && i <= k < |run| && IsClosed(run[i])
    ensures IsClosed(run[k]) && run[k].pending <= run[i].pending
  {
    for j := i to k
      invariant QuieterAt(run, j, run[i])
    {
      StepAfterClose(run[j], steps[j]);
    }
  }

  /** A request that does not encode, or does not fit msize, is refused: its call leaves with nothing sent. */
  lemma RefusedRequestLeaves(s: State, c: Call) returns (s1: State, s2: State, s3: State)
    requires c in s.phase && c in s.tagOf && s.phase[c].Registered?
    ensures Enabled(s, Write(Orig(c), Refuse)) && s1 == Apply(s, Write(Orig(c), Refuse))
    ensures Enabled(s1, End(c, Unregister)) && s2 == Apply(s1, End(c, Unregister))
    ensures Enabled(s2, End(c, Release)) && s3 == Apply(s2, End(c, Release))
    ensures s3.phase[c] == Returned(Failed) && s.tagOf[c] in s3.free && s3.pending == s.pending
    ensures s.tagOf[c] !in s3.entries
  {
    s1 := DoWrite(s, Orig(c), Refuse);
    s2 := DoEnd(s1, c, Unregister);
    s3 := DoEnd(s2, c, Release);
  }

  /** A caller may give up whenever it waits: for a tag, for its response, or for its Rflush once that is hopeless. */
  lemma CallersMayGiveUp(n: nat, run: seq<State>, steps: seq<Step>, k: nat, c: Call)
    requires Run(n, run, steps) && k < |run| && c in run[k].phase
    ensures run[k].phase[c].Acquiring? ==> Enabled(run[k], Gate(c, AcquireFails))
    ensures run[k].phase[c].Waiting? ==> Enabled(run[k], Wait(c, Cancel))
    ensures run[k].phase[c].FlushWaiting? && IsClosed(run[k]) ==> Enabled(run[k], Wait(c, GiveUp))
  {
    RunKeepsBase(n, run, steps, k);
  }

  // ---------------------------------------------------------------- registered while waiting

  ghost predicate Registers(entries: map<Tag, Slot>, tagOf: map<Call, Tag>, x: Slot) {
    x.c in tagOf && TagOf(tagOf, x) in entries && entries[TagOf(tagOf, x)] == x
  }

  /** Until the last stage of shutdown, a call is registered under its tags from registration to removal. */
  ghost predicate Listed(entries: map<Tag, Slot>, tagOf: map<Call, Tag>, c: Call, p: Phase) {
    && (OrigReg(p) ==> Registers(entries, tagOf, Orig(c)))
    && (FlushReg(p) ==> Registers(entries, tagOf, Flsh(c)))
  }

  ghost predicate ListedOk(entries: map<Tag, Slot>, tagOf: map<Call, Tag>, phase: map<Call, Phase>) {
    forall c :: c in phase ==> Listed(entries, tagOf, c, phase[c])
  }

  /** After it, a call past its first check finds its channel closed. */
  ghost predicate Woken(closed: set<Slot>, c: Call, p: Phase) {
    (3 <= Rank(p) <= 11 ==> Orig(c) in closed) && (8 <= Rank(p) <= 10 ==> Flsh(c) in closed)
  }

  ghost predicate WokenOk(closed: set<Slot>, phase: map<Call, Phase>) {
    forall c :: c in phase ==> Woken(closed, c, phase[c])
  }

  ghost predicate Reachable(s: State) {
    if s.stage.Down? then WokenOk(s.closed, s.phase) else ListedOk(s.entries, s.tagOf, s.phase)
  }

  /** Two calls that hold tags hold different ones. */
  lemma TagsDiffer(s: State, c: Call, d: Call)
    requires TagsOf(s) && c in s.phase && d in s.phase && c != d && Holds(s.phase[c]) && Holds(s.phase[d])
    ensures c in s.tagOf && d in s.tagOf && s.tagOf[c] != s.tagOf[d]
    ensures 1 <= s.tagOf[c] <= s.n && 1 <= s.tagOf[d] <= s.n
  {
    assert s.holder[s.tagOf[c]] == c && s.holder[s.tagOf[d]] == d;
  }

  lemma AddListed(entries: map<Tag, Slot>, tagOf: map<Call, Tag>, d: Call, p: Phase, x: Slot)
    requires Listed(entries, tagOf, d, p) && x.c in tagOf && d in tagOf && tagOf[d] != tagOf[x.c]
    requires 1 <= tagOf[d] <= MAX_MAX_INFLIGHT && 1 <= tagOf[x.c] <= MAX_MAX_INFLIGHT
    ensures Listed(entries[TagOf(tagOf, x) := x], tagOf, d, p)
    ensures Listed(entries - {TagOf(tagOf, x)}, tagOf, d, p)
  {
  }

  /** What another call registers or removes is under tags of its own. */
  lemma OthersStayListed(s: State, d: Call, x: Slot)
    requires Base(s) && d in s.phase && Listed(s.entries, s.tagOf, d, s.phase[d])
    requires x.c in s.phase && d != x.c && Holds(s.phase[x.c])
    ensures Listed(s.entries[TagOf(s.tagOf, x) := x], s.tagOf, d, s.phase[d])
    ensures Listed(s.entries - {TagOf(s.tagOf, x)}, s.tagOf, d, s.phase[d])
  {
    if OrigReg(s.phase[d]) {
      TagsDiffer(s, x.c, d);
      AddListed(s.entries, s.tagOf, d, s.phase[d], x);
    }
  }

  lemma AcquireKeepsListed(s: State, c: Call, tag: Tag)
    requires Base(s) && ListedOk(s.entries, s.tagOf, s.phase) && CanGate(s, c, Acquire(tag))
    ensures ListedOk(s.entries, s.tagOf[c := tag], s.phase[c := HasTag])
  {
  }

  lemma RegisterKeepsListed(s: State, c: Call)
    requires Base(s) && ListedOk(s.entries, s.tagOf, s.phase) && CanGate(s, c, Register)
    ensures ListedOk(s.entries[s.tagOf[c] := Orig(c)], s.tagOf, s.phase[c := Registered])
  {
    forall d | d in s.phase && d != c ensures Listed(s.entries[s.tagOf[c] := Orig(c)], s.tagOf, d, s.phase[d]) {
      OthersStayListed(s, d, Orig(c));
    }
  }

  lemma GateKeepsReachable(s: State, c: Call, act: GateAct)
    requires Base(s) && Reachable(s) && CanGate(s, c, act)
    ensures Reachable(DoGate(s, c, act))
  {
    if !s.stage.Down? && act.Register? {
      RegisterKeepsListed(s, c);
    } else if !s.stage.Down? && act.Acquire? {
      AcquireKeepsListed(s, c, act.tag);
    }
  }

  lemma MoveListed(entries: map<Tag, Slot>, tagOf: map<Call, Tag>, phase: map<Call, Phase>, c: Call, p: Phase)
    requires ListedOk(entries, tagOf, phase) && c in phase
    requires (OrigReg(p) ==> OrigReg(phase[c])) && (FlushReg(p) ==> FlushReg(phase[c]))
    ensures ListedOk(entries, tagOf, phase[c := p])
  {
    assert Listed(entries, tagOf, c, phase[c]);
  }

  lemma MoveWoken(closed: set<Slot>, phase: map<Call, Phase>, c: Call, p: Phase)
    requires WokenOk(closed, phase) && c in phase
    requires 3 <= Rank(p) <= 11 ==> 3 <= Rank(phase[c]) <= 11
    requires 8 <= Rank(p) <= 10 ==> 8 <= Rank(phase[c]) <= 10
    ensures WokenOk(closed, phase[c := p])
  {
    assert Woken(closed, c, phase[c]);
  }

  lemma WriteRanks(s: State, x: Slot, act: WriteAct)
    requires CanWrite(s, x, act)
    ensures var p, p' := s.phase[x.c], WritePhase(x, act);
            && (OrigReg(p') ==> OrigReg(p)) && (FlushReg(p') ==> FlushReg(p))
            && (s.stage.Down? ==>
                  (3 <= Rank(p') <= 11 ==> 3 <= Rank(p) <= 11) && (8 <= Rank(p') <= 10 ==> 8 <= Rank(p) <= 10))
    ensures DoWrite(s, x, act).closed == s.closed && DoWrite(s, x, act).tagOf == s.tagOf
    ensures DoWrite(s, x, act).phase == s.phase[x.c := WritePhase(x, act)]
  {
  }

  lemma WriteKeepsReachable(s: State, x: Slot, act: WriteAct)
    requires Base(s) && Reachable(s) && CanWrite(s, x, act)
    ensures Reachable(DoWrite(s, x, act))
  {
    WriteFrame(s, x, act);
    WriteRanks(s, x, act);
    if s.stage.Down? {
      MoveWoken(s.closed, s.phase, x.c, WritePhase(x, act));
    } else {
      MoveListed(s.entries, s.tagOf, s.phase, x.c, WritePhase(x, act));
    }
  }

  lemma RegisterFlushKeepsListed(s: State, c: Call)
    requires Base(s) && ListedOk(s.entries, s.tagOf, s.phase) && CanWait(s, c, RegisterFlush)
    ensures ListedOk(s.entries[FlushTagFor(s.tagOf[c]) := Flsh(c)], s.tagOf, s.phase[c := FlushRegistered])
  {
    var entries := s.entries[FlushTagFor(s.tagOf[c]) := Flsh(c)];
    forall d | d in s.phase && d != c ensures Listed(entries, s.tagOf, d, s.phase[d]) {
      OthersStayListed(s, d, Flsh(c));
    }
    assert Listed(s.entries, s.tagOf, c, s.phase[c]);
  }

  /** A call that removes an entry of its own and no longer needs it. */
  lemma RemoveKeepsListed(s: State, x: Slot, p: Phase)
    requires Base(s) && ListedOk(s.entries, s.tagOf, s.phase)
    requires x.c in s.phase && Holds(s.phase[x.c]) && !FlushReg(p) && (OrigReg(p) ==> x.Flsh? && OrigReg(s.phase[x.c]))
    ensures x.c in s.tagOf && ListedOk(s.entries - {TagOf(s.tagOf, x)}, s.tagOf, s.phase[x.c := p])
  {
    forall d | d in s.phase && d != x.c ensures Listed(s.entries - {TagOf(s.tagOf, x)}, s.tagOf, d, s.phase[d]) {
      OthersStayListed(s, d, x);
    }
    assert Listed(s.entries, s.tagOf, x.c, s.phase[x.c]);
  }

  lemma WaitRanks(s: State, c: Call, act: WaitAct)
    requires CanWait(s, c, act)
    ensures var p, p' := s.phase[c], DoWait(s, c, act).phase[c];
            && (OrigReg(p') ==> OrigReg(p)) && (3 <= Rank(p') <= 11 ==> 3 <= Rank(p) <= 11)
            && (!act.RegisterFlush? ==> (FlushReg(p') ==> FlushReg(p)) && (8 <= Rank(p') <= 10 ==> 8 <= Rank(p) <= 10))
            && (act.RegisterFlush? ==> Rank(p') == 7)
    ensures !act.Abandon? && !act.RegisterFlush? ==> DoWait(s, c, act).entries == s.entries
    ensures DoWait(s, c, act).tagOf == s.tagOf && DoWait(s, c, act).closed == s.closed
  {
  }

  lemma WaitKeepsReachable(s: State, c: Call, act: WaitAct)
    requires Base(s) && Reachable(s) && CanWait(s, c, act)
    ensures Reachable(DoWait(s, c, act))
  {
    WaitAdvances(s, c, act);
    WaitRanks(s, c, act);
    var p := DoWait(s, c, act).phase[c];
    if s.stage.Down? {
      MoveWoken(s.closed, s.phase, c, p);
    } else if act.RegisterFlush? {
      RegisterFlushKeepsListed(s, c);
    } else if act.Abandon? {
      RemoveKeepsListed(s, Orig(c), p);
    } else {
      MoveListed(s.entries, s.tagOf, s.phase, c, p);
    }
  }

  lemma EndRanks(s: State, c: Call, act: EndAct)
    requires CanEnd(s, c, act)
    ensures var s' := DoEnd(s, c, act);
            && Rank(s'.phase[c]) >= 12 && Rank(s.phase[c]) >= 11 && (act.Release? ==> Rank(s'.phase[c]) == 14)
            && (act.Unregister? ==> Rank(s'.phase[c]) == 13) && (act.UnregisterFlush? ==> OrigReg(s.phase[c]))
            && s'.phase == s.phase[c := s'.phase[c]] && s'.tagOf == s.tagOf && s'.closed == s.closed
            && s'.entries == match act
                             case UnregisterFlush => s.entries - {TagOf(s.tagOf, Flsh(c))}
                             case Unregister => s.entries - {TagOf(s.tagOf, Orig(c))}
                             case Release => s.entries
  {
  }

  lemma EndKeepsReachable(s: State, c: Call, act: EndAct)
    requires Base(s) && Reachable(s) && CanEnd(s, c, act)
    ensures Reachable(DoEnd(s, c, act))
  {
    EndRanks(s, c, act);
    var p := DoEnd(s, c, act).phase[c];
    if s.stage.Down? {
      MoveWoken(s.closed, s.phase, c, p);
    } else {
      match act
      case UnregisterFlush => RemoveKeepsListed(s, Flsh(c), p);
      case Unregister => RemoveKeepsListed(s, Orig(c), p);
      case Release => MoveListed(s.entries, s.tagOf, s.phase, c, p);
    }
  }

  lemma ShutdownKeepsReachable(s: State)
    requires Reachable(s) && !s.stage.Down?
    ensures Reachable(DoShutdown(s))
  {
    forall c | c in s.phase
      ensures OrigReg(s.phase[c]) ==> Orig(c) in Registrations(s.entries)
      ensures FlushReg(s.phase[c]) ==> Flsh(c) in Registrations(s.entries)
    {
      assert Listed(s.entries, s.tagOf, c, s.phase[c]);
      assert OrigReg(s.phase[c]) ==> s.entries[TagOf(s.tagOf, Orig(c))] == Orig(c);
      assert FlushReg(s.phase[c]) ==> s.entries[TagOf(s.tagOf, Flsh(c))] == Flsh(c);
    }
  }

  lemma StepKeepsReachable(s: State, step: Step)
    requires Base(s) && Reachable(s) && Enabled(s, step)
    ensures Reachable(Apply(s, step))
  {
    match step
    case Gate(c, act) => GateKeepsReachable(s, c, act);
    case Write(x, act) => WriteKeepsReachable(s, x, act);
    case Wait(c, act) => WaitKeepsReachable(s, c, act);
    case End(c, act) => EndKeepsReachable(s, c, act);
    case Shutdown => ShutdownKeepsReachable(s);
    case Answer(x) => assert Reachable(DoAnswer(s, x));
    case Misbehave(x) => assert Reachable(s.(inbox := s.inbox + [x]));
    case Deliver => assert Reachable(DoDeliver(s));
  }

  ghost predicate ReachableAt(run: seq<State>, k: nat) { k < |run| && Reachable(run[k]) }

  lemma RunKeepsReachable(n: nat, run: seq<State>, steps: seq<Step>, k: nat)
    requires Run(n, run, steps) && k < |run|
    ensures ReachableAt(run, k)
  {
    for i := 0 to k
      invariant ReachableAt(run, i)
    {
      RunKeepsBase(n, run, steps, i);
      StepKeepsReachable(run[i], steps[i]);
    }
  }

  /** Shutdown wakes every waiting caller: by its last stage the channels it waits on are closed. */
  lemma ShutdownWakesWaiters(n: nat, run: seq<State>, steps: seq<Step>, k: nat, c: Call)
    requires Run(n, run, steps) && k < |run| && run[k].stage.Down? && c in run[k].phase
    ensures run[k].phase[c].Waiting? ==> Orig(c) in run[k].closed
    ensures run[k].phase[c].FlushWaiting? ==> Orig(c) in run[k].closed && Flsh(c) in run[k].closed
  {
    RunKeepsReachable(n, run, steps, k);
    assert Woken(run[k].closed, c, run[k].phase[c]);
  }

  /**
   Until then no answer is lost on a caller that still waits: its response, once it is first on the wire, is
   delivered to its channel, and an Rflush for its mirror tag leaves its flush channel full.
   */
  lemma AnswerReachesCaller(n: nat, run: seq<State>, steps: seq<Step>, k: nat, c: Call)
    requires QuietRun(n, run, steps) && k < |steps| && steps[k] == Deliver && !run[k].stage.Down?
    requires c in run[k].phase
    ensures run[k].inbox[0] == Orig(c) && InFlight(run[k].phase[c]) ==>
              Orig(c) in run[k + 1].buf && run[k + 1].buf[Orig(c)] == Orig(c)
    ensures run[k].inbox[0] == Flsh(c) && FlushReg(run[k].phase[c]) ==> Flsh(c) in run[k + 1].buf
  {
    QuietRunKeepsInv(n, run, steps, k);
    QuietRunKeepsInv(n, run, steps, k + 1);
    RunKeepsReachable(n, run, steps, k);
    assert run[k + 1] == DoDeliver(run[k]) && Listed(run[k].entries, run[k].tagOf, c, run[k].phase[c]);
    DeliverFills(run[k], run[k].inbox[0]);
    DeliverFrame(run[k]);
    assert InFlight(run[k].phase[c]) ==> PastCheck(run[k + 1].phase[c]);
  }

  lemma DeliverFills(s: State, x: Slot)
    requires Enabled(s, Deliver) && x == s.inbox[0]
    ensures Registers(s.entries, s.tagOf, x) ==> x in DoDeliver(s).buf
  {
  }
}
