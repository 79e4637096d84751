/**
 A mixup the client can reach (flushAndWait in client/flush.go): a run with one tag and a well-behaved server in
 which a call is handed the response to another.

 Call 0 is flushed, its response comes first, and it returns with its Rflush outstanding. Call 1 takes the tag and
 is flushed too; the Rflush for call 0 lands on the mirror tag it has registered, and it gives the tag back with its
 own response outstanding. Call 2 takes the tag and receives that response.
 */
module LateRflush {
  import opened Common
  import opened ClientMux
  import MirrorTheorems

  const MIRROR: Tag := 0x8001

  /** Connection up, one tag, nobody writing, and these are the free tags, registrations, channels and frames. */
  predicate Shape(s: State, free: set<Tag>, entries: map<Tag, Slot>, buf: map<Slot, Slot>, pending: set<Slot>) {
    && s.stage.Up? && s.writer.None? && s.closed == {} && s.inbox == []
    && s.free == free && s.entries == entries && s.buf == buf && s.pending == pending
    && (forall x :: x in pending ==> x.c in s.tagOf)
    && (forall c :: c in s.tagOf ==> s.tagOf[c] == 1)
  }

  predicate Calling(s: State, c: Call, p: Phase) {
    c in s.phase && s.phase[c] == p && c in s.tagOf && s.tagOf[c] == 1 && c in s.flushable
  }

  predicate Fresh(s: State, c: Call) { forall d: Call :: d >= c ==> d !in s.phase }

  /** One server, one wire: a run of a connection with a single tag in which the server keeps to the rules. */
  ghost predicate Legal(run: seq<State>, steps: seq<Step>) {
    Run(1, run, steps) && forall step :: step in steps ==> !step.Misbehave?
  }

  lemma More(run: seq<State>, steps: seq<Step>, step: Step) returns (run': seq<State>, steps': seq<Step>)
    requires Legal(run, steps) && Enabled(run[|steps|], step) && !step.Misbehave?
    ensures Legal(run', steps') && run'[|steps'|] == Apply(run[|steps|], step)
  {
    run', steps' := run + [Apply(run[|steps|], step)], steps + [step];
    forall i | 0 <= i < |steps'| ensures Enabled(run'[i], steps'[i]) && run'[i + 1] == Apply(run'[i], steps'[i]) {
      if i < |steps| {
        assert run'[i] == run[i] && run'[i + 1] == run[i + 1] && steps'[i] == steps[i];
      }
    }
  }

  /** writeT lets the frame through. */
  lemma Written(run: seq<State>, steps: seq<Step>, x: Slot) returns (run': seq<State>, steps': seq<Step>)
    requires Legal(run, steps) && MirrorTheorems.ReadyToWrite(run[|steps|], x)
    ensures Legal(run', steps')
    ensures var s, s' := run[|steps|], run'[|steps'|];
            s' == s.(phase := s.phase[x.c := WaitingPhase(x)], pending := s.pending + {x}, user := s'.user)
  {
    var s1, s2, s3 := MirrorTheorems.WritesThrough(run[|steps|], x);
    run', steps' := More(run, steps, Write(x, PassFirstCheck));
    run', steps' := More(run', steps', Write(x, Begin));
    run', steps' := More(run', steps', Write(x, Finish));
  }

  /** A call takes the tag and sends its request. */
  lemma Called(run: seq<State>, steps: seq<Step>, c: Call, pending: set<Slot>)
    returns (run': seq<State>, steps': seq<Step>)
    requires Legal(run, steps) && Shape(run[|steps|], {1}, map[], map[], pending) && Fresh(run[|steps|], c)
    ensures Legal(run', steps') && Fresh(run'[|steps'|], c + 1) && Calling(run'[|steps'|], c, Waiting)
    ensures Shape(run'[|steps'|], {}, map[1 := Orig(c)], map[], pending + {Orig(c)})
  {
    run', steps' := More(run, steps, Gate(c, Admit(true, false)));
    run', steps' := More(run', steps', Gate(c, Acquire(1)));
    run', steps' := More(run', steps', Gate(c, Register));
    assert Calling(run'[|steps'|], c, Registered);
    run', steps' := Written(run', steps', Orig(c));
  }

  /** It is cancelled and sends its Tflush. */
  lemma Flushed(run: seq<State>, steps: seq<Step>, c: Call, pending: set<Slot>)
    returns (run': seq<State>, steps': seq<Step>)
    requires Legal(run, steps) && Calling(run[|steps|], c, Waiting) && Fresh(run[|steps|], c + 1)
    requires Shape(run[|steps|], {}, map[1 := Orig(c)], map[], pending)
    ensures Legal(run', steps') && Fresh(run'[|steps'|], c + 1) && Calling(run'[|steps'|], c, FlushWaiting)
    ensures Shape(run'[|steps'|], {}, map[1 := Orig(c), MIRROR := Flsh(c)], map[], pending + {Flsh(c)})
  {
    run', steps' := More(run, steps, Wait(c, Cancel));
    run', steps' := More(run', steps', Wait(c, RegisterFlush));
    assert Calling(run'[|steps'|], c, FlushRegistered);
    run', steps' := Written(run', steps', Flsh(c));
  }

  /** The server answers a frame, and the answer lands where the map says. */
  lemma Answered(run: seq<State>, steps: seq<Step>, x: Slot, entries: map<Tag, Slot>, pending: set<Slot>)
    returns (run': seq<State>, steps': seq<Step>)
    requires Legal(run, steps) && Shape(run[|steps|], {}, entries, map[], pending) && x in pending
    requires (if x.Orig? then 1 else MIRROR) in entries && (x.Flsh? ==> Orig(x.c) !in pending)
    ensures Legal(run', steps') && run'[|steps'|].phase == run[|steps|].phase
    ensures run'[|steps'|].tagOf == run[|steps|].tagOf && run'[|steps'|].flushable == run[|steps|].flushable
    ensures Shape(run'[|steps'|], {}, entries, map[entries[if x.Orig? then 1 else MIRROR] := x], pending - {x})
  {
    run', steps' := More(run, steps, Answer(x));
    var s := run'[|steps'|];
    assert s.inbox == [x] && s.pending == pending - {x} && TagOf(s.tagOf, x) == if x.Orig? then 1 else MIRROR;
    run', steps' := More(run', steps', Deliver);
  }

  /** A call with something on either channel leaves, and its tag is free again. */
  lemma Left(run: seq<State>, steps: seq<Step>, c: Call, act: WaitAct, buf: map<Slot, Slot>, pending: set<Slot>)
    returns (run': seq<State>, steps': seq<Step>)
    requires Legal(run, steps) && Calling(run[|steps|], c, FlushWaiting) && Fresh(run[|steps|], c + 1)
    requires Shape(run[|steps|], {}, map[1 := Orig(c), MIRROR := Flsh(c)], buf, pending)
    requires (act.TakeOrig? && buf.Keys == {Orig(c)}) || (act.TakeRflush? && buf.Keys == {Flsh(c)})
    ensures Legal(run', steps') && Fresh(run'[|steps'|], c + 1)
    ensures Shape(run'[|steps'|], {1}, map[], map[], pending)
  {
    run', steps' := More(run, steps, Wait(c, act));
    assert run'[|steps'|].buf == map[];
    run', steps' := More(run', steps', End(c, UnregisterFlush));
    run', steps' := More(run', steps', End(c, Unregister));
    assert run'[|steps'|].entries == map[];
    run', steps' := More(run', steps', End(c, Release));
  }

  /** Call 0 leaves its Rflush outstanding on a free tag. */
  lemma FirstFlush() returns (run: seq<State>, steps: seq<Step>)
    ensures Legal(run, steps) && Fresh(run[|steps|], 1) && Shape(run[|steps|], {1}, map[], map[], {Flsh(0)})
  {
    run, steps := [Init(1)], [];
    assert Tags(1) == {1};
    run, steps := Called(run, steps, 0, {});
    run, steps := Flushed(run, steps, 0, {Orig(0)});
    var both: map<Tag, Slot> := map[1 := Orig(0), MIRROR := Flsh(0)];
    run, steps := Answered(run, steps, Orig(0), both, {Orig(0), Flsh(0)});
    run, steps := Left(run, steps, 0, TakeOrig, map[Orig(0) := Orig(0)], {Flsh(0)});
  }

  /** Call 1 takes that Rflush for its own and leaves its response outstanding on a free tag. */
  lemma SecondFlush() returns (run: seq<State>, steps: seq<Step>)
    ensures Legal(run, steps) && Fresh(run[|steps|], 2) && Shape(run[|steps|], {1}, map[], map[], {Orig(1), Flsh(1)})
  {
    run, steps := FirstFlush();
    run, steps := Called(run, steps, 1, {Flsh(0)});
    run, steps := Flushed(run, steps, 1, {Flsh(0), Orig(1)});
    var both: map<Tag, Slot> := map[1 := Orig(1), MIRROR := Flsh(1)];
    run, steps := Answered(run, steps, Flsh(0), both, {Flsh(0), Orig(1), Flsh(1)});
    run, steps := Left(run, steps, 1, TakeRflush, map[Flsh(1) := Flsh(0)], {Orig(1), Flsh(1)});
  }

  /** Without MirrorQuiet a caller can be handed the response to another call, with a server that keeps to the rules. */
  lemma LateRflushMixesUpCalls() returns (run: seq<State>, steps: seq<Step>)
    ensures Run(1, run, steps) && forall step :: step in steps ==> !step.Misbehave?
    ensures 2 in run[|steps|].phase && run[|steps|].phase[2] == Returned(Delivered(Orig(1)))
  {
    run, steps := SecondFlush();
    run, steps := Called(run, steps, 2, {Orig(1), Flsh(1)});
    run, steps := Answered(run, steps, Orig(1), map[1 := Orig(2)], {Orig(1), Flsh(1), Orig(2)});
    run, steps := More(run, steps, Wait(2, Receive));
    run, steps := More(run, steps, End(2, Unregister));
    run, steps := More(run, steps, End(2, Release));
  }
}
