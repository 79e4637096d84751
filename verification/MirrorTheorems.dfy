/**
 When a mirror tag may be registered (flushTagFor and flushAndWait in client/flush.go): a caller can be handed another
 call's response exactly when some registration finds a stale Rflush that the call's own response can still follow.
 */
module MirrorTheorems {
  import opened Common
  import opened ClientMux
  import opened ClientMuxProof

  /** A caller has been handed a response that is not its own. */
  predicate MixedUp(s: State, e: Call) {
    e in s.phase && s.phase[e].Returned? && s.phase[e].out.Delivered? && s.phase[e].out.m != Orig(e)
  }

  ghost predicate QuietStep(s: State, step: Step, s': State) {
    Enabled(s, step) && s' == Apply(s, step) && !step.Misbehave? && MirrorQuiet(s, step)
  }

  ghost predicate QuietAt(run: seq<State>, steps: seq<Step>, i: nat) {
    i < |steps| && i + 1 < |run| && QuietStep(run[i], steps[i], run[i + 1])
  }

  /** Steps taken from any state, with a server that keeps to the rules and only quiet registrations. */
  ghost predicate QuietChain(run: seq<State>, steps: seq<Step>) {
    |run| == |steps| + 1 && forall i: nat :: i < |steps| ==> QuietAt(run, steps, i)
  }

  ghost predicate LeadsToMixup(s: State, run: seq<State>, steps: seq<Step>, e: Call) {
    QuietChain(run, steps) && run[0] == s && MixedUp(run[|steps|], e)
  }

  // ---------------------------------------------------------------- quiet registrations keep responses apart

  lemma {:induction false} ChainKeepsInv(run: seq<State>, steps: seq<Step>, i: nat)
    requires QuietChain(run, steps) && i < |run| && Inv(run[0])
    ensures Inv(run[i])
  {
    if i > 0 {
      ChainKeepsInv(run, steps, i - 1);
      assert QuietAt(run, steps, i - 1);
      StepKeepsInv(run[i - 1], steps[i - 1]);
    }
  }

  lemma InvIsNotMixedUp(s: State, e: Call)
    requires Inv(s)
    ensures !MixedUp(s, e)
  {
    if e in s.phase {
      assert OwnResult(e, s.phase[e]);
    }
  }

  // ---------------------------------------------------------------- building a continuation

  /** What every step keeps against a server that keeps to the rules, quiet or not. */
  ghost predicate Good(s: State) { Base(s) && FramesOf(s) }

  lemma StepKeepsFrames(s: State, step: Step)
    requires Good(s) && Enabled(s, step) && !step.Misbehave?
    ensures FramesOf(Apply(s, step))
  {
    match step
    case Gate(c, act) => GateKeepsFrames(s, c, act);
    case Write(x, act) => WriteKeepsFrames(s, x, act);
    case Wait(c, act) => WaitKeepsFrames(s, c, act);
    case End(c, act) => EndKeepsFrames(s, c, act);
    case Answer(x) => AnswerKeepsFrames(s, x);
    case Deliver => DeliverKeepsFrames(s);
    case Shutdown => assert FramesOf(DoShutdown(s));
  }

  /** A path from the state `from`. */
  ghost predicate Path(from: State, run: seq<State>, steps: seq<Step>) {
    QuietChain(run, steps) && run[0] == from && Good(run[|steps|])
  }

  lemma More(from: State, run: seq<State>, steps: seq<Step>, step: Step) returns (run': seq<State>, steps': seq<Step>)
    requires Path(from, run, steps) && Enabled(run[|steps|], step) && !step.Misbehave?
    requires !(step.Wait? && step.wait.RegisterFlush?)
    ensures Path(from, run', steps') && run'[|steps'|] == Apply(run[|steps|], step)
  {
    var s := run[|steps|];
    run', steps' := run + [Apply(s, step)], steps + [step];
    forall i: nat | i < |steps'| ensures QuietAt(run', steps', i) {
      if i < |steps| {
        assert QuietAt(run, steps, i);
      }
    }
    StepKeepsBase(s, step);
    StepKeepsFrames(s, step);
  }

  /** Whoever holds the write lock finishes. */
  lemma FreeWriter(from: State, run: seq<State>, steps: seq<Step>) returns (run': seq<State>, steps': seq<Step>)
    requires Path(from, run, steps)
    ensures Path(from, run', steps') && run'[|steps'|].writer.None?
    ensures var s, s' := run[|steps|], run'[|steps'|];
            && s' == s.(phase := s'.phase, writer := None) && s'.phase.Keys == s.phase.Keys
            && forall c :: c in s.phase && !InWrite(s.phase[c]) ==> s'.phase[c] == s.phase[c]
  {
    var s := run[|steps|];
    if s.writer.None? {
      run', steps' := run, steps;
    } else {
      var w := s.writer.value;
      var x := if s.phase[w].Writing? then Orig(w) else Flsh(w);
      run', steps' := More(from, run, steps, Write(x, Finish));
    }
  }

  predicate ReadyToWrite(s: State, x: Slot) {
    !IsClosed(s) && s.writer.None? && x.c in s.phase && x.c in s.tagOf && s.phase[x.c] == RegisteredPhase(x)
  }

  lemma WritesThrough(s: State, x: Slot) returns (s1: State, s2: State, s3: State)
    requires ReadyToWrite(s, x)
    ensures CanWrite(s, x, PassFirstCheck) && s1 == DoWrite(s, x, PassFirstCheck)
    ensures CanWrite(s1, x, Begin) && s2 == DoWrite(s1, x, Begin)
    ensures CanWrite(s2, x, Finish) && s3 == DoWrite(s2, x, Finish)
    ensures s3 == s.(phase := s.phase[x.c := WaitingPhase(x)], pending := s.pending + {x}, user := s3.user)
  {
    s1 := DoWrite(s, x, PassFirstCheck);
    s2 := DoWrite(s1, x, Begin);
    s3 := DoWrite(s2, x, Finish);
    assert s3.phase == s.phase[x.c := WaitingPhase(x)];
  }

  /** writeT lets the frame through. */
  lemma Written(from: State, run: seq<State>, steps: seq<Step>, x: Slot) returns (run': seq<State>, steps': seq<Step>)
    requires Path(from, run, steps) && ReadyToWrite(run[|steps|], x)
    ensures Path(from, run', steps')
    ensures var s, s' := run[|steps|], run'[|steps'|];
            s' == s.(phase := s.phase[x.c := WaitingPhase(x)], pending := s.pending + {x}, user := s'.user)
  {
    var s1, s2, s3 := WritesThrough(run[|steps|], x);
    run', steps' := More(from, run, steps, Write(x, PassFirstCheck));
    run', steps' := More(from, run', steps', Write(x, Begin));
    run', steps' := More(from, run', steps', Write(x, Finish));
  }

  /** The read loop has taken the first frames, and every channel that held something still does. */
  ghost predicate ReadOn(s: State, s': State, taken: nat) {
    && taken <= |s.inbox| && s'.inbox == s.inbox[taken..] && s.buf.Keys <= s'.buf.Keys
    && s' == s.(inbox := s'.inbox, buf := s'.buf, sentOnClosed := s'.sentOnClosed, lateWrite := s'.lateWrite)
  }

  lemma ReadOne(s: State)
    requires Enabled(s, Deliver)
    ensures ReadOn(s, DoDeliver(s), 1)
    ensures var t := TagOf(s.tagOf, s.inbox[0]); t in s.entries ==> s.entries[t] in DoDeliver(s).buf
  {
  }

  lemma ReadMore(s: State, s1: State, s2: State, i: nat)
    requires ReadOn(s, s1, i) && ReadOn(s1, s2, 1)
    ensures ReadOn(s, s2, i + 1)
  {
    assert s2.inbox == s.inbox[i + 1..];
  }

  lemma {:induction false} Read(from: State, run: seq<State>, steps: seq<Step>, k: nat)
    returns (run': seq<State>, steps': seq<Step>)
    requires Path(from, run, steps) && k <= |run[|steps|].inbox|
    ensures Path(from, run', steps') && ReadOn(run[|steps|], run'[|steps'|], k)
    ensures var s := run[|steps|];
            k > 0 && s.inbox[k - 1].c in s.tagOf && TagOf(s.tagOf, s.inbox[k - 1]) in s.entries ==>
              s.entries[TagOf(s.tagOf, s.inbox[k - 1])] in run'[|steps'|].buf
  {
    if k == 0 {
      run', steps' := run, steps;
    } else {
      run', steps' := Read(from, run, steps, k - 1);
      var s, s1 := run[|steps|], run'[|steps'|];
      assert s1.inbox[0] == s.inbox[k - 1] && FrameOk(s.inbox[k - 1], s.tagOf, s.phase);
      run', steps' := More(from, run', steps', Deliver);
      ReadOne(s1);
      ReadMore(s, s1, run'[|steps'|], k - 1);
    }
  }

  /** The server answers a pending frame last, or the frame is on the wire already. */
  lemma Sent(from: State, run: seq<State>, steps: seq<Step>, x: Slot)
    returns (run': seq<State>, steps': seq<Step>, k: nat)
    requires Path(from, run, steps) && (x in run[|steps|].pending || x in run[|steps|].inbox)
    ensures Path(from, run', steps')
    ensures var s, s' := run[|steps|], run'[|steps'|];
            && s' == s.(pending := s'.pending, inbox := s'.inbox)
            && s.inbox <= s'.inbox && k < |s'.inbox| && s'.inbox[k] == x
            && s.pending - {x, Orig(x.c)} <= s'.pending
            && (x in s.inbox ==> s' == s)
  {
    var s := run[|steps|];
    if x in s.inbox {
      run', steps' := run, steps;
      k :| k < |s.inbox| && s.inbox[k] == x;
    } else {
      run', steps' := More(from, run, steps, Answer(x));
      k := |s.inbox|;
    }
  }

  // ---------------------------------------------------------------- the mixup

  /** Call c waits for its flush; its response can still come, and so can an Rflush before it. */
  ghost predicate Exposed(s: State, c: Call, x: Slot, p: Phase) {
    && Takeable(s) && Calling(s, c, p)
    && FlushTagFor(s.tagOf[c]) in s.entries && s.entries[FlushTagFor(s.tagOf[c])] == Flsh(c)
    && Stale(s.pending, s.inbox, s.tagOf, c, x) && CanFollow(s.pending, s.inbox, c, x)
  }

  predicate Calling(s: State, c: Call, p: Phase) { c in s.phase && s.phase[c] == p && c in s.tagOf }

  predicate StillComes(s: State, c: Call) { Orig(c) in s.pending || Orig(c) in s.inbox }

  lemma Registers(s: State, c: Call, x: Slot)
    requires Good(s) && CanWait(s, c, RegisterFlush) && Takeable(s)
    requires Stale(s.pending, s.inbox, s.tagOf, c, x) && CanFollow(s.pending, s.inbox, c, x)
    ensures var s' := DoWait(s, c, RegisterFlush);
            Good(s') && Exposed(s', c, x, FlushRegistered) && Path(s', [s'], [])
  {
    var s' := DoWait(s, c, RegisterFlush);
    StepKeepsBase(s, Wait(c, RegisterFlush));
    StepKeepsFrames(s, Wait(c, RegisterFlush));
    if !s.stage.Up? {
      var e :| e in s.phase && s.phase[e].Acquiring?;
      assert e in s'.phase && s'.phase[e].Acquiring?;
    }
  }

  lemma StillTakeable(s: State, s': State)
    requires Takeable(s) && s'.stage == s.stage && s.phase.Keys <= s'.phase.Keys
    requires forall e :: e in s.phase && s.phase[e].Acquiring? ==> s'.phase[e].Acquiring?
    ensures Takeable(s')
  {
  }

  /** Nobody is writing. */
  lemma WriterIsFree(from: State, run: seq<State>, steps: seq<Step>, c: Call, x: Slot)
    returns (run': seq<State>, steps': seq<Step>)
    requires Path(from, run, steps) && Exposed(run[|steps|], c, x, FlushRegistered)
    ensures Path(from, run', steps') && Exposed(run'[|steps'|], c, x, FlushRegistered) && run'[|steps'|].writer.None?
  {
    run', steps' := FreeWriter(from, run, steps);
    StillTakeable(run[|steps|], run'[|steps'|]);
  }

  /** It sends its Tflush. */
  lemma SendsFlush(from: State, run: seq<State>, steps: seq<Step>, c: Call, x: Slot)
    returns (run': seq<State>, steps': seq<Step>)
    requires Path(from, run, steps) && Exposed(run[|steps|], c, x, FlushRegistered) && run[|steps|].writer.None?
    ensures Path(from, run', steps') && Exposed(run'[|steps'|], c, x, FlushWaiting) && run'[|steps'|].writer.None?
  {
    run', steps' := Written(from, run, steps, Flsh(c));
    StillTakeable(run[|steps|], run'[|steps'|]);
  }

  /** Some Rflush is in its channel and its response can still come. */
  ghost predicate Misled(s: State, c: Call) {
    Takeable(s) && Calling(s, c, FlushWaiting) && s.writer.None? && Flsh(c) in s.buf && StillComes(s, c)
  }

  /** An Rflush for c is on the wire and the response to c can still come after it. */
  ghost predicate Due(s: State, c: Call, k: nat) {
    && Takeable(s) && Calling(s, c, FlushWaiting) && s.writer.None?
    && FlushTagFor(s.tagOf[c]) in s.entries && s.entries[FlushTagFor(s.tagOf[c])] == Flsh(c)
    && k < |s.inbox| && s.inbox[k].Flsh? && s.inbox[k].c in s.tagOf && s.tagOf[s.inbox[k].c] == s.tagOf[c]
    && (Orig(c) in s.pending || Orig(c) in s.inbox[k + 1..])
  }

  /** The stale Rflush is sent. */
  lemma StaleIsDue(from: State, run: seq<State>, steps: seq<Step>, c: Call, x: Slot)
    returns (run': seq<State>, steps': seq<Step>, k: nat)
    requires Path(from, run, steps) && Exposed(run[|steps|], c, x, FlushWaiting) && run[|steps|].writer.None?
    ensures Path(from, run', steps') && Due(run'[|steps'|], c, k)
  {
    var s := run[|steps|];
    run', steps', k := Sent(from, run, steps, x);
    if Orig(c) !in s.pending {
      var i, j :| 0 <= i < j < |s.inbox| && s.inbox[i] == x && s.inbox[j] == Orig(c);
      assert i == k && s.inbox[k + 1..][j - k - 1] == Orig(c);
    }
    StillTakeable(s, run'[|steps'|]);
  }

  /** It arrives. */
  lemma HearsStale(from: State, run: seq<State>, steps: seq<Step>, c: Call, k: nat)
    returns (run': seq<State>, steps': seq<Step>)
    requires Path(from, run, steps) && Due(run[|steps|], c, k)
    ensures Path(from, run', steps') && Misled(run'[|steps'|], c)
  {
    run', steps' := Read(from, run, steps, k + 1);
    StillTakeable(run[|steps|], run'[|steps'|]);
  }

  /** Its tag is free and its response can still come. */
  ghost predicate Loose(s: State, c: Call) {
    && Takeable(s) && s.writer.None? && c in s.phase && c in s.tagOf && !s.phase[c].Acquiring?
    && s.tagOf[c] in s.free && StillComes(s, c)
  }

  /** It takes the Rflush for its own and gives its tag back. */
  lemma GivesBack(from: State, run: seq<State>, steps: seq<Step>, c: Call)
    returns (run': seq<State>, steps': seq<Step>)
    requires Path(from, run, steps) && Misled(run[|steps|], c)
    ensures Path(from, run', steps') && Loose(run'[|steps'|], c)
  {
    var s := run[|steps|];
    run', steps' := More(from, run, steps, Wait(c, TakeRflush));
    run', steps' := More(from, run', steps', End(c, UnregisterFlush));
    run', steps' := More(from, run', steps', End(c, Unregister));
    run', steps' := More(from, run', steps', End(c, Release));
    StillTakeable(s, run'[|steps'|]);
  }

  lemma {:induction false} FreshCall(calls: set<Call>) returns (e: Call)
    ensures forall c :: c in calls ==> c < e
  {
    if calls == {} {
      e := 0;
    } else {
      var c :| c in calls;
      var least := FreshCall(calls - {c});
      e := if least <= c then c + 1 else least;
      forall d | d in calls ensures d < e {
        assert d == c || d in calls - {c};
      }
    }
  }

  /** Somebody asks for a tag. */
  lemma Asks(from: State, run: seq<State>, steps: seq<Step>, c: Call)
    returns (run': seq<State>, steps': seq<Step>, e: Call)
    requires Path(from, run, steps) && Loose(run[|steps|], c)
    ensures Path(from, run', steps') && Loose(run'[|steps'|], c)
    ensures e in run'[|steps'|].phase && run'[|steps'|].phase[e].Acquiring?
  {
    var s := run[|steps|];
    if s.stage.Up? {
      e := FreshCall(s.phase.Keys);
      run', steps' := More(from, run, steps, Gate(e, Admit(false, false)));
    } else {
      e :| e in s.phase && s.phase[e].Acquiring?;
      run', steps' := run, steps;
    }
  }

  /** Call e has written under the tag of c, unanswered, and the response to c can still come. */
  ghost predicate Crossed(s: State, c: Call, e: Call) {
    && Calling(s, e, Waiting) && Orig(e) in s.pending && e != c
    && s.tagOf[e] in s.entries && s.entries[s.tagOf[e]] == Orig(e)
    && c in s.tagOf && s.tagOf[c] == s.tagOf[e] && StillComes(s, c)
  }

  lemma TakesTag(from: State, run: seq<State>, steps: seq<Step>, c: Call, e: Call)
    returns (run': seq<State>, steps': seq<Step>)
    requires Path(from, run, steps) && Loose(run[|steps|], c)
    requires e in run[|steps|].phase && run[|steps|].phase[e].Acquiring?
    ensures Path(from, run', steps') && Crossed(run'[|steps'|], c, e)
  {
    var t := run[|steps|].tagOf[c];
    run', steps' := More(from, run, steps, Gate(e, Acquire(t)));
    run', steps' := More(from, run', steps', Gate(e, Register));
    run', steps' := Written(from, run', steps', Orig(e));
  }

  /** The response to c reaches e. */
  lemma IsHanded(from: State, run: seq<State>, steps: seq<Step>, c: Call, e: Call)
    returns (run': seq<State>, steps': seq<Step>)
    requires Path(from, run, steps) && Crossed(run[|steps|], c, e)
    ensures Path(from, run', steps') && MixedUp(run'[|steps'|], e)
  {
    var s, k := run[|steps|], 0;
    run', steps', k := Sent(from, run, steps, Orig(c));
    run', steps' := Read(from, run', steps', k + 1);
    var s1 := run'[|steps'|];
    assert Orig(e) in s1.pending && Orig(e) in s1.buf;
    run', steps' := More(from, run', steps', Wait(e, Receive));
    run', steps' := More(from, run', steps', End(e, Unregister));
    run', steps' := More(from, run', steps', End(e, Release));
  }

  /** From any state, a registration over a stale Rflush that the response can follow leads to a mixup. */
  lemma StaleRflushMixesUpCalls(s: State, c: Call, x: Slot) returns (run: seq<State>, steps: seq<Step>, e: Call)
    requires Base(s) && FramesOf(s) && CanWait(s, c, RegisterFlush) && Takeable(s)
    requires Stale(s.pending, s.inbox, s.tagOf, c, x) && CanFollow(s.pending, s.inbox, c, x)
    ensures LeadsToMixup(DoWait(s, c, RegisterFlush), run, steps, e)
  {
    var from := DoWait(s, c, RegisterFlush);
    Registers(s, c, x);
    run, steps := WriterIsFree(from, [from], [], c, x);
    run, steps := SendsFlush(from, run, steps, c, x);
    var k;
    run, steps, k := StaleIsDue(from, run, steps, c, x);
    run, steps := HearsStale(from, run, steps, c, k);
    run, steps := GivesBack(from, run, steps, c);
    run, steps, e := Asks(from, run, steps, c);
    run, steps := TakesTag(from, run, steps, c, e);
    run, steps := IsHanded(from, run, steps, c, e);
  }

  /**
   After any quiet run, registering a mirror tag can lead to a caller being handed another call's response exactly when
   the registration is not quiet.
   */
  lemma MixupIffNotQuiet(n: nat, run: seq<State>, steps: seq<Step>, c: Call)
    requires QuietRun(n, run, steps) && CanWait(run[|steps|], c, RegisterFlush)
    ensures !MirrorQuiet(run[|steps|], Wait(c, RegisterFlush)) <==>
            exists cont, csteps, e :: LeadsToMixup(DoWait(run[|steps|], c, RegisterFlush), cont, csteps, e)
  {
    var s := run[|steps|];
    QuietRunKeepsInv(n, run, steps, |steps|);
    if MirrorQuiet(s, Wait(c, RegisterFlush)) {
      StepKeepsInv(s, Wait(c, RegisterFlush));
      forall cont, csteps, e | QuietChain(cont, csteps) && cont[0] == DoWait(s, c, RegisterFlush)
        ensures !MixedUp(cont[|csteps|], e)
      {
        ChainKeepsInv(cont, csteps, |csteps|);
        InvIsNotMixedUp(cont[|csteps|], e);
      }
    } else {
      var x :| Stale(s.pending, s.inbox, s.tagOf, c, x) && CanFollow(s.pending, s.inbox, c, x);
      var cont, csteps, e := StaleRflushMixesUpCalls(s, c, x);
    }
  }
}
