/** What the flush protocol of a server connection guarantees over every run of it. */
module FlushTheorems {
  import opened Common
  import opened ServerInflight
  import opened FlushProtocol

  // ---------------------------------------------------------------- order on the wire

  lemma LegalStepIsTimely(s: State, step: Step)
    requires Wire(s.wire, s.phase, s.flushes) && LegalReuse(s, step)
    ensures Timely(s, step)
  {
  }

  /** A client that reuses tags as flush(5) allows never cuts a waiting Tflush short. */
  lemma LegalRunIsTimely(run: seq<State>, steps: seq<Step>)
    requires LegalRun(run, steps)
    ensures TimelyRun(run, steps)
  {
    forall i | 0 <= i < |steps| ensures Timely(run[i], steps[i]) {
      RunKeepsInv(run, steps, i);
      LegalStepIsTimely(run[i], steps[i]);
    }
  }

  /**
   In a run whose client reuses a tag only after seeing its response, the Rflush for a Tflush that
   found a registered request never precedes that request's response.
   */
  lemma RflushFollowsResponse(run: seq<State>, steps: seq<Step>, k: nat, i: nat, j: nat)
    requires LegalRun(run, steps) && k < |run|
    requires i < |run[k].wire| && j < |run[k].wire|
    requires run[k].wire[i].Rflush? && run[k].wire[j].Response?
    requires run[k].wire[i].f in run[k].flushes
    requires run[k].flushes[run[k].wire[i].f].target == Some(run[k].wire[j].r)
    ensures j < i
  {
    LegalRunIsTimely(run, steps);
    TimelyRunKeepsOrder(run, steps, k);
    assert InOrder(run[k].wire, run[k].flushes);
  }

  /**
   Timeliness is exactly what the order needs: a reuse that cuts a waiting Tflush short, in any
   consistent state, has a continuation in which the Rflush overtakes the response.
   */
  lemma UntimelyReuseOvertakes(s: State, step: Step, f: Flush) returns (s': State, i: nat, j: nat)
    requires Inv(s) && Enabled(s, step) && CutsShort(s, step, f)
    ensures exists s1, s2, s3 ::
              && s1 == Apply(s, step)
              && Enabled(s1, OnFlush(f, Wake)) && s2 == Apply(s1, OnFlush(f, Wake))
              && Enabled(s2, OnFlush(f, Answer(true))) && s3 == Apply(s2, OnFlush(f, Answer(true)))
              && Enabled(s3, OnRequest(s.owner[step.serve.tag], Write(true)))
              && s' == Apply(s3, OnRequest(s.owner[step.serve.tag], Write(true)))
    ensures i < j < |s'.wire| && s'.wire[i] == Rflush(f) && f in s'.flushes
    ensures s'.flushes[f].target == Some(s.owner[step.serve.tag])
    ensures s'.wire[j] == Response(s.owner[step.serve.tag])
  {
    var r := s.owner[step.serve.tag];
    assert FlushOk(s, s.flushes[f]);
    var s1 := Apply(s, step);
    var s2 := Apply(s1, OnFlush(f, Wake));
    var s3 := Apply(s2, OnFlush(f, Answer(true)));
    s' := Apply(s3, OnRequest(r, Write(true)));
    i, j := |s.wire|, |s.wire| + 1;
  }

  lemma RunMore(run: seq<State>, steps: seq<Step>, step: Step) returns (run': seq<State>, steps': seq<Step>)
    requires Run(run, steps) && Enabled(run[|steps|], step)
    ensures Run(run', steps') && run'[|steps'|] == Apply(run[|steps|], step)
  {
    run', steps' := run + [Apply(run[|steps|], step)], steps + [step];
    forall i | 0 <= i < |steps'| ensures Enabled(run'[i], steps'[i]) && run'[i + 1] == Apply(run'[i], steps'[i]) {
      if i < |steps| {
        assert run'[i] == run[i] && run'[i + 1] == run[i + 1] && steps'[i] == steps[i];
      }
    }
  }

  /** From the start of a connection, request 1 commits its response and Tflush 0 waits for it. */
  lemma FlushMeetsCommit() returns (run: seq<State>, steps: seq<Step>)
    ensures Run(run, steps) && Enabled(run[|steps|], OnRequest(2, Start(7, 2)))
    ensures CutsShort(run[|steps|], OnRequest(2, Start(7, 2)), 0) && run[|steps|].owner[7] == 1
  {
    run, steps := RunMore([INIT], [], OnRequest(1, Start(7, 1)));
    run, steps := RunMore(run, steps, OnRequest(1, Respond));
    run, steps := RunMore(run, steps, OnFlush(0, Arrive(7)));
  }

  /** The condition is not idle: a run whose client reuses tag 7 early and in which the Rflush overtakes. */
  lemma OvertakingIsReachable() returns (run: seq<State>, steps: seq<Step>, i: nat, j: nat)
    ensures Run(run, steps)
    ensures var s := run[|steps|];
            && i < j < |s.wire| && s.wire[i] == Rflush(0) && s.wire[j] == Response(1)
            && 0 in s.flushes && s.flushes[0].target == Some(1)
  {
    var reuse := OnRequest(2, Start(7, 2));
    run, steps := FlushMeetsCommit();
    RunKeepsInv(run, steps, |steps|);
    var end: State;
    end, i, j := UntimelyReuseOvertakes(run[|steps|], reuse, 0);
    run, steps := RunMore(run, steps, reuse);
    run, steps := RunMore(run, steps, OnFlush(0, Wake));
    run, steps := RunMore(run, steps, OnFlush(0, Answer(true)));
    run, steps := RunMore(run, steps, OnRequest(1, Write(true)));
  }

  // ---------------------------------------------------------------- channels

  /** Go's double-close panic is unreachable. */
  lemma NoChannelClosedTwice(run: seq<State>, steps: seq<Step>, k: nat)
    requires Run(run, steps) && k < |run|
    ensures !run[k].im.panicked && run[k].im.Valid()
  {
    RunKeepsInv(run, steps, k);
    var s := run[k];
    forall a, b | a in s.im.entries && b in s.im.entries && a != b && s.im.entries[a].done.Some?
      ensures s.im.entries[a].done != s.im.entries[b].done
    {
      assert s.ident[s.owner[a]].tag == a && s.ident[s.owner[b]].tag == b;
    }
  }

  /** A Tflush whose request is gone, or has lost its entry to a reused tag, can answer. */
  lemma FlushWaiterIsReleased(run: seq<State>, steps: seq<Step>, k: nat, f: Flush)
    requires Run(run, steps) && k < |run|
    requires f in run[k].flushes && run[k].flushes[f].phase.Waiting?
    ensures run[k].flushes[f].target.Some?
    ensures var r := run[k].flushes[f].target.value;
            && r in run[k].phase
            && r in run[k].ident
            && var displaced := run[k].ident[r].tag in run[k].owner ==> run[k].owner[run[k].ident[r].tag] != r;
               (run[k].phase[r].Recycling? || run[k].phase[r].Gone? || (displaced && !run[k].phase[r].Closing?)) ==>
                 Enabled(run[k], OnFlush(f, Wake))
  {
    RunKeepsInv(run, steps, k);
    assert FlushOk(run[k], run[k].flushes[f]);
  }

  /** A Tflush whose request is closing its channel can answer as soon as it has. */
  lemma ClosingReleasesFlushWaiter(run: seq<State>, steps: seq<Step>, k: nat, f: Flush, r: Req)
    requires Run(run, steps) && k < |run|
    requires f in run[k].flushes && run[k].flushes[f].phase.Waiting? && run[k].flushes[f].target == Some(r)
    requires r in run[k].phase && run[k].phase[r] == Closing(Some(run[k].flushes[f].phase.ch))
    ensures Enabled(run[k], OnRequest(r, CloseDone))
    ensures Enabled(Apply(run[k], OnRequest(r, CloseDone)), OnFlush(f, Wake))
  {
    RunKeepsInv(run, steps, k);
    assert FlushOk(run[k], run[k].flushes[f]);
  }

  /** A drain never sleeps on once nothing is in flight. */
  lemma DrainWaiterIsReleased(run: seq<State>, steps: seq<Step>, k: nat, d: Drain)
    requires Run(run, steps) && k < |run|
    requires d in run[k].drains && run[k].drains[d].Draining?
    ensures run[k].im.entries == map[] ==> Enabled(run[k], OnDrain(d, WakeUp))
    ensures !Enabled(run[k], OnDrain(d, WakeUp)) ==> run[k].im.drained == Some(run[k].drains[d].ch)
  {
    RunKeepsInv(run, steps, k);
  }

  // ---------------------------------------------------------------- ownership and drains

  /** The count is the number of entries, and every request in its handler owns its tag's entry. */
  lemma HandlersOwnTheirEntries(run: seq<State>, steps: seq<Step>, k: nat, r: Req)
    requires Run(run, steps) && k < |run|
    requires r in run[k].phase && run[k].phase[r].Handling?
    ensures run[k].im.count == |run[k].im.entries| && r in run[k].ident
    ensures var Ident(tag, ctx) := run[k].ident[r];
            tag in run[k].im.entries && run[k].im.entries[tag].rctx == ctx && !run[k].im.entries[tag].committed
  {
    RunKeepsInv(run, steps, k);
  }

  /** An entry whose request has not committed. */
  predicate Uncommitted(im: Table, tag: Tag, rctx: Ctx) {
    tag in im.entries && im.entries[tag].rctx == rctx && !im.entries[tag].committed
  }

  lemma ServeKeepsUncommitted(s: State, r: Req, act: Serve, tag: Tag)
    requires OwnersOf(s) && Contexts(s) && CanServe(s, r, act)
    requires tag in s.im.entries && !s.im.entries[tag].committed
    requires s.owner[tag] == r ==> !act.Respond? && !act.Finish?
    ensures Uncommitted(DoServe(s, r, act).im, tag, s.im.entries[tag].rctx)
  {
    assert s.ident[s.owner[tag]] == Ident(tag, s.im.entries[tag].rctx);
    if act.Complete? {
      assert s.ident[r].tag != tag || s.ident[r].ctx != s.im.entries[tag].rctx;
    }
  }

  lemma FlushKeepsUncommitted(s: State, f: Flush, act: FlushAct, tag: Tag, rctx: Ctx)
    requires CanFlush(s, f, act) && Uncommitted(s.im, tag, rctx)
    ensures Uncommitted(DoFlush(s, f, act).im, tag, rctx)
  {
  }

  lemma DrainKeepsUncommitted(s: State, d: Drain, act: DrainAct, tag: Tag, rctx: Ctx)
    requires CanDrain(s, d, act) && Uncommitted(s.im, tag, rctx)
    ensures Uncommitted(DoDrain(s, d, act).im, tag, rctx)
  {
  }

  /** Only the owner's own commit or finish ends an uncommitted entry. */
  lemma UncommittedEntryIsNotOverwritten(run: seq<State>, steps: seq<Step>, k: nat, tag: Tag)
    requires Run(run, steps) && k < |steps|
    requires tag in run[k].im.entries && !run[k].im.entries[tag].committed
    ensures tag in run[k].owner
    ensures || steps[k] == OnRequest(run[k].owner[tag], Respond)
            || steps[k] == OnRequest(run[k].owner[tag], Finish)
            || Uncommitted(run[k + 1].im, tag, run[k].im.entries[tag].rctx)
  {
    RunKeepsInv(run, steps, k);
    match steps[k]
    case OnRequest(r, act) =>
      if run[k].owner[tag] != r || (!act.Respond? && !act.Finish?) {
        ServeKeepsUncommitted(run[k], r, act, tag);
      }
    case OnFlush(f, act) => FlushKeepsUncommitted(run[k], f, act, tag, run[k].im.entries[tag].rctx);
    case OnDrain(d, act) => DrainKeepsUncommitted(run[k], d, act, tag, run[k].im.entries[tag].rctx);
  }

  /**
   Once a Tversion's drain has succeeded, and for as long as it holds the receive lock, nothing is
   in flight: no handler runs while fids are clunked and msize and protocol change.
   */
  lemma DrainLeavesNoHandler(run: seq<State>, steps: seq<Step>, k: nat, d: Drain)
    requires Run(run, steps) && k < |run|
    requires run[k].recvHeldBy == Some(d) && d in run[k].drains && run[k].drains[d].Drained?
    ensures run[k].im.entries == map[]
    ensures forall r :: r in run[k].phase ==> !run[k].phase[r].Handling? && !run[k].phase[r].Finishing?
  {
    RunKeepsInv(run, steps, k);
  }

  /** The request is over, or its context is cancelled. */
  predicate Told(s: State, r: Req) {
    r in s.phase && r in s.ident && (s.phase[r].Gone? || s.ident[r].ctx in s.im.cancelled)
  }

  lemma ServeKeepsTold(s: State, q: Req, act: Serve, r: Req)
    requires Contexts(s) && CanServe(s, q, act) && Told(s, r)
    ensures Told(DoServe(s, q, act), r)
  {
  }

  lemma StepKeepsTold(s: State, step: Step, r: Req)
    requires Contexts(s) && Enabled(s, step) && Told(s, r)
    ensures Told(Apply(s, step), r)
  {
    match step
    case OnRequest(q, act) => ServeKeepsTold(s, q, act, r);
    case OnFlush(f, act) => assert Told(DoFlush(s, f, act), r);
    case OnDrain(d, act) => assert Told(DoDrain(s, d, act), r);
  }

  ghost predicate ToldAt(run: seq<State>, k: nat, r: Req) { k < |run| && Told(run[k], r) }

  /**
   A drain begins by telling every request in its handler to stop, and each stays told until it is over; it
   tells nobody who is not registered.
   */
  lemma DrainCancelsHandlers(run: seq<State>, steps: seq<Step>, k: nat, m: nat, r: Req)
    requires Run(run, steps) && k < m < |run| && steps[k].OnDrain? && steps[k].drain.CancelAll?
    ensures r in run[k].phase && run[k].phase[r].Handling? ==> Told(run[m], r)
    ensures forall c :: c in run[k + 1].im.cancelled && c !in run[k].im.cancelled ==>
              exists tag :: tag in run[k].im.entries && run[k].im.entries[tag].rctx == c
  {
    var s, s' := run[k], run[k + 1];
    RunKeepsInv(run, steps, k);
    assert s' == DoDrain(s, steps[k].d, steps[k].drain);
    if r in s.phase && s.phase[r].Handling? {
      assert s.im.entries[s.ident[r].tag].rctx == s.ident[r].ctx;
      for j := k + 1 to m
        invariant ToldAt(run, j, r)
      {
        RunKeepsInv(run, steps, j);
        StepKeepsTold(run[j], steps[j], r);
      }
    }
  }

  ghost predicate HeldAt(run: seq<State>, k: nat, d: Drain) { k < |run| && run[k].recvHeldBy == Some(d) }

  lemma StepKeepsHeld(s: State, step: Step, d: Drain)
    requires Enabled(s, step) && s.recvHeldBy == Some(d) && step != OnDrain(d, ReleaseRecv)
    ensures Apply(s, step).recvHeldBy == Some(d)
  {
    match step
    case OnRequest(r, act) => assert DoServe(s, r, act).recvHeldBy == s.recvHeldBy;
    case OnFlush(f, act) => assert DoFlush(s, f, act).recvHeldBy == s.recvHeldBy;
    case OnDrain(e, act) => assert DoDrain(s, e, act).recvHeldBy == s.recvHeldBy;
  }

  /** A re-negotiation keeps the receive lock from its first step until it lets go: no request starts meanwhile. */
  lemma RenegotiationHoldsRecv(run: seq<State>, steps: seq<Step>, i: nat, k: nat, d: Drain)
    requires Run(run, steps) && i < k < |run| && steps[i] == OnDrain(d, CancelAll(true))
    requires forall j :: i < j < k ==> steps[j] != OnDrain(d, ReleaseRecv)
    ensures run[k].recvHeldBy == Some(d)
    ensures k < |steps| ==> !(steps[k].OnRequest? && steps[k].serve.Start?)
  {
    assert HeldAt(run, i + 1, d);
    for j := i + 1 to k
      invariant HeldAt(run, j, d)
    {
      StepKeepsHeld(run[j], steps[j], d);
    }
    if k < |steps| {
      assert Enabled(run[k], steps[k]);
    }
  }

  /** Once it does, the next request can start. */
  lemma ReleasedRecvLetsRequestsIn(run: seq<State>, steps: seq<Step>, k: nat, d: Drain, r: Req, tag: Tag)
    requires Run(run, steps) && k < |steps| && steps[k] == OnDrain(d, ReleaseRecv)
    requires r !in run[k].phase && tag !in run[k].im.entries
    ensures Enabled(run[k + 1], OnRequest(r, Start(tag, run[k].nextCtx)))
  {
    RunKeepsInv(run, steps, k);
  }

  // ---------------------------------------------------------------- each frame once

  ghost predicate Once(wire: seq<Frame>) { forall i, j :: 0 <= i < j < |wire| ==> wire[i] != wire[j] }

  lemma StepWritesOnce(s: State, step: Step)
    requires Wire(s.wire, s.phase, s.flushes) && Once(s.wire) && Enabled(s, step)
    ensures Once(Apply(s, step).wire)
  {
    match step
    case OnRequest(r, act) => assert Once(DoServe(s, r, act).wire);
    case OnFlush(f, act) => assert Once(DoFlush(s, f, act).wire);
    case OnDrain(d, act) => assert DoDrain(s, d, act).wire == s.wire;
  }

  ghost predicate OnceAt(run: seq<State>, k: nat) { k < |run| && Once(run[k].wire) }

  /** No request is answered twice, and no Tflush. */
  lemma EachFrameIsWrittenOnce(run: seq<State>, steps: seq<Step>, k: nat, i: nat, j: nat)
    requires Run(run, steps) && k < |run| && i < j < |run[k].wire|
    ensures run[k].wire[i] != run[k].wire[j]
  {
    for m := 0 to k
      invariant OnceAt(run, m)
    {
      RunKeepsInv(run, steps, m);
      StepWritesOnce(run[m], steps[m]);
    }
  }

  /** The step puts the frame on the wire. */
  predicate Writes(step: Step, frame: Frame) {
    match frame
    case Response(r) => step == OnRequest(r, Write(true)) || step == OnRequest(r, Panic(true))
    case Rflush(f) => step == OnFlush(f, Answer(true))
  }

  lemma StepWrites(s: State, step: Step, frame: Frame)
    requires Enabled(s, step)
    ensures frame in Apply(s, step).wire <==> frame in s.wire || Writes(step, frame)
  {
    match step
    case OnRequest(r, act) => assert frame in DoServe(s, r, act).wire <==> frame in s.wire || Writes(step, frame);
    case OnFlush(f, act) => assert frame in DoFlush(s, f, act).wire <==> frame in s.wire || Writes(step, frame);
    case OnDrain(d, act) => assert DoDrain(s, d, act).wire == s.wire;
  }

  ghost predicate WrittenBy(steps: seq<Step>, frame: Frame) { exists i :: 0 <= i < |steps| && Writes(steps[i], frame) }

  lemma WrittenByMore(steps: seq<Step>, k: nat, frame: Frame)
    requires k < |steps|
    ensures WrittenBy(steps[..k + 1], frame) <==> WrittenBy(steps[..k], frame) || Writes(steps[k], frame)
  {
    var more := steps[..k + 1];
    assert more[k] == steps[k] && forall i :: 0 <= i < k ==> more[i] == steps[..k][i];
  }

  ghost predicate WrittenAt(run: seq<State>, steps: seq<Step>, k: nat, frame: Frame) {
    k < |run| && k <= |steps| && (frame in run[k].wire <==> WrittenBy(steps[..k], frame))
  }

  lemma StepWritesAt(run: seq<State>, steps: seq<Step>, k: nat, frame: Frame)
    requires Run(run, steps) && k < |steps| && WrittenAt(run, steps, k, frame)
    ensures WrittenAt(run, steps, k + 1, frame)
  {
    StepWrites(run[k], steps[k], frame);
    WrittenByMore(steps, k, frame);
  }

  /** What is on the wire is exactly what was written. */
  lemma WireIsWhatWasWritten(run: seq<State>, steps: seq<Step>, k: nat, frame: Frame)
    requires Run(run, steps) && k < |run|
    ensures frame in run[k].wire <==> WrittenBy(steps[..k], frame)
  {
    for i := 0 to k
      invariant WrittenAt(run, steps, i, frame)
    {
      StepWritesAt(run, steps, i, frame);
    }
  }

  // ---------------------------------------------------------------- how flushes and drains end

  /** A Tflush for a tag that is not in flight can be answered at once; one that finds its request waits for it. */
  lemma ArrivingFlush(run: seq<State>, steps: seq<Step>, k: nat)
    requires Run(run, steps) && k < |steps| && steps[k].OnFlush? && steps[k].flush.Arrive?
    ensures var f, tag := steps[k].f, steps[k].flush.tag;
            && f in run[k + 1].flushes
            && (tag !in run[k].im.entries ==> Enabled(run[k + 1], OnFlush(f, Answer(true))))
            && (tag in run[k].im.entries ==>
                && tag in run[k].owner && run[k + 1].flushes[f].target == Some(run[k].owner[tag])
                && run[k + 1].flushes[f].phase.Waiting? && run[k + 1].flushes[f].phase.ch !in run[k + 1].im.closed)
  {
    RunKeepsInv(run, steps, k);
    RunKeepsInv(run, steps, k + 1);
  }

  ghost predicate EndedAt(run: seq<State>, k: nat, d: Drain, p: DrainPhase) {
    k < |run| && d in run[k].drains && run[k].drains[d] == p
  }

  lemma StepKeepsEnded(s: State, step: Step, d: Drain, p: DrainPhase)
    requires Enabled(s, step) && d in s.drains && s.drains[d] == p && (p.Drained? || p.TimedOut?)
    ensures d in Apply(s, step).drains && Apply(s, step).drains[d] == p
  {
    match step
    case OnRequest(r, act) => assert DoServe(s, r, act).drains == s.drains;
    case OnFlush(f, act) => assert DoFlush(s, f, act).drains == s.drains;
    case OnDrain(e, act) => assert d in DoDrain(s, e, act).drains && DoDrain(s, e, act).drains[d] == p;
  }

  /** A drain that finds nothing in flight, or wakes, has succeeded for good; one that times out has failed for good. */
  lemma DrainEndsOnce(run: seq<State>, steps: seq<Step>, i: nat, k: nat, d: Drain)
    requires Run(run, steps) && i < k < |run|
    ensures steps[i] == OnDrain(d, AwaitDrain) && run[i].im.entries == map[] ==> EndedAt(run, k, d, Drained)
    ensures steps[i] == OnDrain(d, WakeUp) ==> EndedAt(run, k, d, Drained)
    ensures steps[i] == OnDrain(d, TimeOut) ==> EndedAt(run, k, d, TimedOut)
  {
    RunKeepsInv(run, steps, i);
    var p := if steps[i] == OnDrain(d, TimeOut) then TimedOut else Drained;
    if EndedAt(run, i + 1, d, p) {
      for j := i + 1 to k
        invariant EndedAt(run, j, d, p)
      {
        StepKeepsEnded(run[j], steps[j], d, p);
      }
    }
  }

  // ---------------------------------------------------------------- pooled contexts

  /** No context that a Tflush could reach is in the pool, and a borrowed context starts uncancelled. */
  lemma PooledContextsAreUnreachable(run: seq<State>, steps: seq<Step>, k: nat)
    requires Run(run, steps) && k < |steps|
    ensures forall tag :: tag in run[k].im.entries ==> run[k].im.entries[tag].rctx !in run[k].pool
    ensures steps[k].OnRequest? && steps[k].serve.Start? ==> steps[k].serve.ctx !in run[k + 1].im.cancelled
  {
    RunKeepsInv(run, steps, k);
    var s := run[k];
    forall tag | tag in s.im.entries ensures s.im.entries[tag].rctx !in s.pool {
      assert s.ident[s.owner[tag]].ctx in s.holder;
    }
  }

  /** Every context made so far is with a request or in the pool. */
  ghost predicate NoneLost(s: State) { forall c :: NIL < c < s.nextCtx ==> c in s.holder || c in s.pool }

  lemma StepLosesNone(s: State, step: Step)
    requires Contexts(s) && NoneLost(s) && Enabled(s, step)
    ensures NoneLost(Apply(s, step))
  {
    match step
    case OnRequest(r, act) => assert NoneLost(DoServe(s, r, act));
    case OnFlush(f, act) => assert NoneLost(DoFlush(s, f, act));
    case OnDrain(d, act) => assert NoneLost(DoDrain(s, d, act));
  }

  ghost predicate NoneLostAt(run: seq<State>, k: nat) { k < |run| && NoneLost(run[k]) }

  /** No context leaks: one that no live request holds is in the pool, to be borrowed again. */
  lemma ContextsAreReturned(run: seq<State>, steps: seq<Step>, k: nat, c: Ctx)
    requires Run(run, steps) && k < |run| && NIL < c < run[k].nextCtx
    ensures c in run[k].pool <==> c !in run[k].holder
  {
    RunKeepsInv(run, steps, k);
    for j := 0 to k
      invariant NoneLostAt(run, j)
    {
      RunKeepsInv(run, steps, j);
      StepLosesNone(run[j], steps[j]);
    }
  }

  /** A Tflush cancels the request it found and no other live one. */
  lemma FlushCancelsOnlyItsTarget(run: seq<State>, steps: seq<Step>, k: nat, r: Req)
    requires Run(run, steps) && k < |steps|
    requires steps[k].OnFlush? && steps[k].flush.Arrive?
    requires r in run[k].phase && !run[k].phase[r].Gone? && r in run[k].ident
    ensures steps[k].f in run[k + 1].flushes
    ensures (run[k].ident[r].ctx in run[k + 1].im.cancelled) <==>
            (run[k].ident[r].ctx in run[k].im.cancelled || run[k + 1].flushes[steps[k].f].target == Some(r))
  {
    RunKeepsInv(run, steps, k);
    var s, tag := run[k], steps[k].flush.tag;
    if tag in s.im.entries {
      assert s.ident[s.owner[tag]].ctx == s.im.entries[tag].rctx;
    }
  }
}
