/** What the client multiplexer guarantees over every run of it. */
module ClientTheorems {
  import opened Common
  import opened ClientMux
  import opened ClientMuxProof
  import opened Totals

  // ---------------------------------------------------------------- responses

  /**
   Against a server that answers each frame at most once and sends nothing for a request after its
   Rflush, and with no mirror tag registered over a stale Rflush that the call's own response can
   follow, every response handed to a caller answers that caller's own request: across cancellation,
   reuse, quarantine and shutdown.
   */
  lemma ResponseAnswersOwnRequest(n: nat, run: seq<State>, steps: seq<Step>, k: nat, c: Call)
    requires QuietRun(n, run, steps) && k < |run|
    requires c in run[k].phase && run[k].phase[c].Returned? && run[k].phase[c].out.Delivered?
    ensures run[k].phase[c].out.m == Orig(c)
  {
    QuietRunKeepsInv(n, run, steps, k);
    assert OwnResult(c, run[k].phase[c]);
  }

  /**
   Whatever the server sends, the read loop never sends on a closed response channel and never
   writes to the destination buffer of a caller that has returned.
   */
  lemma ReadLoopIsSafe(n: nat, run: seq<State>, steps: seq<Step>, k: nat)
    requires Run(n, run, steps) && k < |run|
    ensures !run[k].sentOnClosed && !run[k].lateWrite
    ensures forall t :: t in run[k].entries ==>
              && run[k].entries[t] !in run[k].closed
              && run[k].entries[t].c in run[k].phase
              && !run[k].phase[run[k].entries[t].c].Returned?
  {
    RunKeepsBase(n, run, steps, k);
  }

  // ---------------------------------------------------------------- tags

  /** On a 16-bit tag, setting the top bit is what FlushTagFor computes. */
  lemma FlushTagForIsOr(tag: bv16)
    ensures tag | 0x8000 == if tag < 0x8000 then tag + 0x8000 else tag
  {
  }

  /** Mirror tags are distinct, and none is a request tag or NoTag. */
  lemma MirrorTagsAreDistinct(n: nat, s: Tag, t: Tag)
    requires n <= MAX_MAX_INFLIGHT && s in Tags(n) && t in Tags(n)
    ensures FlushTagFor(s) !in Tags(n) && FlushTagFor(s) < NO_TAG
    ensures FlushTagFor(s) == FlushTagFor(t) <==> s == t
  {
  }

  lemma Partition(n: nat, free: set<Tag>, quarantined: set<Tag>, holder: map<Tag, Call>, tagOf: map<Call, Tag>,
                  phase: map<Call, Phase>)
    requires TagsOk(n, free, quarantined, holder, tagOf, phase)
    ensures free + holder.Keys + quarantined == Tags(n)
    ensures free !! holder.Keys !! quarantined
  {
    forall t ensures t in free + holder.Keys + quarantined <==> t in Tags(n) {}
  }

  lemma RegisteredIsHeld(n: nat, free: set<Tag>, quarantined: set<Tag>, holder: map<Tag, Call>, tagOf: map<Call, Tag>,
                         phase: map<Call, Phase>, entries: map<Tag, Slot>, closed: set<Slot>, t: Tag)
    requires TagsOk(n, free, quarantined, holder, tagOf, phase) && EntriesOk(entries, closed, tagOf, phase)
    requires n <= MAX_MAX_INFLIGHT && 1 <= t <= n && (t in entries || FlushTagFor(t) in entries)
    ensures t in holder
  {
    var x := if t in entries then entries[t] else entries[FlushTagFor(t)];
    assert Holds(phase[x.c]) && tagOf[x.c] in holder;
  }

  /** Free, held and quarantined tags always partition 1..n, and only a held tag is registered. */
  lemma TagsArePartitioned(n: nat, run: seq<State>, steps: seq<Step>, k: nat)
    requires Run(n, run, steps) && k < |run|
    ensures run[k].free + run[k].holder.Keys + run[k].quarantined == Tags(n)
    ensures run[k].free !! run[k].holder.Keys !! run[k].quarantined
    ensures forall t :: t in Tags(n) && t !in run[k].holder ==>
              t !in run[k].entries && FlushTagFor(t) !in run[k].entries
  {
    RunKeepsBase(n, run, steps, k);
    var s := run[k];
    Partition(n, s.free, s.quarantined, s.holder, s.tagOf, s.phase);
    forall t | t in Tags(n) && (t in s.entries || FlushTagFor(t) in s.entries) ensures t in s.holder {
      RegisteredIsHeld(n, s.free, s.quarantined, s.holder, s.tagOf, s.phase, s.entries, s.closed, t);
    }
  }

  /** Registering never overwrites a live entry, and a flush never waits for a free tag. */
  lemma RegistrationFindsItsSlotFree(n: nat, run: seq<State>, steps: seq<Step>, k: nat, c: Call)
    requires Run(n, run, steps) && k < |run|
    requires c in run[k].phase && c in run[k].tagOf
    ensures Enabled(run[k], Gate(c, Register)) ==> run[k].tagOf[c] !in run[k].entries
    ensures run[k].phase[c].Flushing? ==>
              Enabled(run[k], Wait(c, RegisterFlush)) && FlushTagFor(run[k].tagOf[c]) !in run[k].entries
  {
    RunKeepsBase(n, run, steps, k);
    var s := run[k];
    forall t | t in s.entries && (t == s.tagOf[c] || t == FlushTagFor(s.tagOf[c])) && Holds(s.phase[c])
      ensures s.entries[t].c == c && t == TagOf(s.tagOf, s.entries[t])
    {
      assert Holds(s.phase[s.entries[t].c]);
    }
  }

  predicate Quarantined(s: State, t: Tag) { t in s.quarantined }

  lemma StepKeepsQuarantine(s: State, step: Step, t: Tag)
    requires Enabled(s, step) && Quarantined(s, t)
    ensures Quarantined(Apply(s, step), t)
  {
    match step
    case Gate(c, act) => if !act.Admit? { GateAdvances(s, c, act); }
    case Write(x, act) => WriteAdvances(s, x, act);
    case Wait(c, act) => WaitAdvances(s, c, act);
    case End(c, act) => EndAdvances(s, c, act);
    case _ => OthersMoveNoCall(s, step);
  }

  ghost predicate QuarantinedAt(run: seq<State>, k: nat, t: Tag) { k < |run| && Quarantined(run[k], t) }

  lemma StepKeepsQuarantineAt(n: nat, run: seq<State>, steps: seq<Step>, k: nat, t: Tag)
    requires Run(n, run, steps) && k < |steps| && QuarantinedAt(run, k, t)
    ensures QuarantinedAt(run, k + 1, t)
  {
    StepKeepsQuarantine(run[k], steps[k], t);
  }

  lemma {:induction false} QuarantineLasts(n: nat, run: seq<State>, steps: seq<Step>, j: nat, k: nat, t: Tag)
    requires Run(n, run, steps) && j <= k < |run| && QuarantinedAt(run, j, t)
    ensures QuarantinedAt(run, k, t)
  {
    if j < k {
      QuarantineLasts(n, run, steps, j, k - 1, t);
      StepKeepsQuarantineAt(n, run, steps, k - 1, t);
    }
  }

  /** A tag abandoned without an acknowledged flush is never handed out again. */
  lemma QuarantineIsForever(n: nat, run: seq<State>, steps: seq<Step>, j: nat, k: nat, c: Call, t: Tag)
    requires Run(n, run, steps) && j <= k < |run| && Quarantined(run[j], t)
    ensures Quarantined(run[k], t) && !Enabled(run[k], Gate(c, Acquire(t)))
  {
    QuarantineLasts(n, run, steps, j, k, t);
    RunKeepsBase(n, run, steps, k);
  }

  // ---------------------------------------------------------------- shutdown

  /** The call a step belongs to, if any. */
  function Mine(step: Step): Option<Call> {
    match step
    case Gate(c, _) => Some(c)
    case Write(x, _) => Some(x.c)
    case Wait(c, _) => Some(c)
    case End(c, _) => Some(c)
    case _ => None
  }

  function Left(p: Phase): nat { 14 - Rank(p) }

  /** The steps all callers together may still take. */
  ghost function StepsLeft(phase: map<Call, Phase>): nat { Total(phase, Left) }

  lemma AdvanceLowersTotal(s: State, s': State, c: Call)
    requires Advances(s, s', c)
    ensures StepsLeft(s'.phase) < StepsLeft(s.phase) && s'.phase.Keys == s.phase.Keys
  {
    TotalUpdated(s.phase, Left, c, s'.phase[c]);
  }

  /** After shutdown each caller's step takes it strictly nearer its return, and nobody is admitted. */
  lemma StepAfterShutdown(s: State, step: Step)
    requires Enabled(s, step) && !s.stage.Up?
    ensures var s' := Apply(s, step);
            && !s'.stage.Up?
            && s'.phase.Keys == s.phase.Keys
            && StepsLeft(s'.phase) + (if Mine(step).Some? then 1 else 0) <= StepsLeft(s.phase)
  {
    var s' := Apply(s, step);
    match step
    case Gate(c, act) => GateAdvances(s, c, act); AdvanceLowersTotal(s, s', c);
    case Write(x, act) => WriteAdvances(s, x, act); AdvanceLowersTotal(s, s', x.c);
    case Wait(c, act) => WaitAdvances(s, c, act); AdvanceLowersTotal(s, s', c);
    case End(c, act) => EndAdvances(s, c, act); AdvanceLowersTotal(s, s', c);
    case _ => OthersMoveNoCall(s, step);
  }

  function CallerSteps(steps: seq<Step>): nat {
    if steps == [] then 0 else (if Mine(steps[0]).Some? then 1 else 0) + CallerSteps(steps[1..])
  }

  /** Once shutdown is signalled nobody is admitted, and the callers take boundedly many steps. */
  lemma {:induction false} ShutdownBoundsCallers(n: nat, run: seq<State>, steps: seq<Step>, k: nat)
    requires Run(n, run, steps) && k < |run| && !run[k].stage.Up?
    ensures forall j :: k <= j < |run| ==> run[j].phase.Keys == run[k].phase.Keys
    ensures CallerSteps(steps[k..]) <= StepsLeft(run[k].phase)
    decreases |run| - k
  {
    if k < |steps| {
      StepAfterShutdown(run[k], steps[k]);
      ShutdownBoundsCallers(n, run, steps, k + 1);
      assert steps[k..][1..] == steps[k + 1..];
    }
  }

  /** The step that takes a caller towards its return once the connection is down. */
  function WayOut(c: Call, p: Phase): Step {
    match p
    case Acquiring => Gate(c, AcquireFails)
    case HasTag => Gate(c, Register)
    case Registered => Write(Orig(c), Refuse)
    case Queued => Write(Orig(c), Refuse)
    case Writing => Write(Orig(c), Break)
    case Waiting => Wait(c, SeeClosed)
    case Abandoning => Wait(c, Abandon)
    case Flushing => Wait(c, RegisterFlush)
    case FlushRegistered => Write(Flsh(c), Refuse)
    case FlushQueued => Write(Flsh(c), Refuse)
    case FlushWriting => Write(Flsh(c), Break)
    case FlushWaiting => Wait(c, GiveUp)
    case FlushEnding => End(c, UnregisterFlush)
    case Releasing(_) => End(c, Release)
    case _ => End(c, Unregister)
  }

  predicate Queueing(p: Phase) { p.Queued? || p.FlushQueued? }

  lemma WayOutIsOpen(s: State, c: Call)
    requires TagsOf(s) && WriterOk(s.writer, s.phase, s.tagOf) && s.stage.Down?
    requires c in s.phase && !s.phase[c].Returned? && (Queueing(s.phase[c]) ==> s.writer.None?)
    ensures Enabled(s, WayOut(c, s.phase[c]))
  {
    var p := s.phase[c];
    assert p.Acquiring? || c in s.tagOf;
  }

  /**
   With the connection down, every admitted caller can take its way out, unless it queues for the
   write lock; then the holder of the lock can. So callers are left only if some caller can step.
   */
  lemma CallersCanLeave(n: nat, run: seq<State>, steps: seq<Step>, k: nat, c: Call)
    requires Run(n, run, steps) && k < |run| && run[k].stage.Down?
    requires c in run[k].phase && !run[k].phase[c].Returned?
    ensures var s := run[k];
            || Enabled(s, WayOut(c, s.phase[c]))
            || ((s.phase[c].Queued? || s.phase[c].FlushQueued?) && s.writer.Some? && s.writer.value in s.phase
                && Enabled(s, WayOut(s.writer.value, s.phase[s.writer.value])))
  {
    RunKeepsBase(n, run, steps, k);
    var s := run[k];
    WayOutIsOpen(s, if Queueing(s.phase[c]) && s.writer.Some? then s.writer.value else c);
  }

  /** A run that no caller can extend after shutdown has no caller left. */
  lemma ShutdownDrainsCallers(n: nat, run: seq<State>, steps: seq<Step>)
    requires Run(n, run, steps) && run[|steps|].stage.Down?
    requires forall step :: Enabled(run[|steps|], step) ==> Mine(step).None?
    ensures forall c :: c in run[|steps|].phase ==> run[|steps|].phase[c].Returned?
  {
    forall c | c in run[|steps|].phase && !run[|steps|].phase[c].Returned? ensures false {
      CallersCanLeave(n, run, steps, |steps|, c);
    }
  }
}
