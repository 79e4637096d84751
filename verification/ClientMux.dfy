/**
 The client multiplexer: callers sharing one connection through a tag allocator, an in-flight map,
 a write lock and one read loop (client/ops.go, client/flush.go, client/inflight.go,
 client/tags.go, client/read_loop.go, client/write.go, client/conn.go), against a server and a
 first-in-first-out wire.

 A step is one critical section, one channel operation or one frame. Every call sends at most one
 request and at most one Tflush, and makes one response channel for each, so a `Slot` names both
 the frame and the channel. A response in flight is named by the frame it answers.

 `holder` and `user` are history variables: who holds a tag, and who last passed the write check
 with it. They decide no step.
 */
module ClientMux {
  import opened Common

  type Tag = nat
  type Call = nat

  const MAX_MAX_INFLIGHT := 32766
  const FLUSH_TAG_BIT := 0x8000

  /** oldTag | flushTagBit on a 16-bit tag. */
  function FlushTagFor(tag: Tag): Tag {
    if tag < FLUSH_TAG_BIT then tag + FLUSH_TAG_BIT else tag
  }

  datatype Slot = Orig(c: Call) | Flsh(c: Call)

  datatype Outcome = Delivered(m: Slot) | Failed

  datatype Phase =
    | Acquiring        // admitted; in tagAllocator.acquire
    | HasTag           // about to register
    | Registered       // in writeT, before the write lock
    | Queued           // passed the first closed check; waiting for the write lock
    | Writing          // holds the write lock, past the second closed check
    | Waiting          // in the response select
    | Got(m: Slot)     // took a response; about to unregister
    | Failing          // about to unregister and report an error
    | Abandoning       // cancelled without flush
    | Flushing         // cancelled; in flushAndWait, before registering the mirror tag
    | FlushRegistered
    | FlushQueued
    | FlushWriting
    | FlushWaiting     // in the flush select
    | FlushEnding      // about to unregister the mirror tag
    | Unflushed        // about to unregister the request tag
    | Releasing(out: Outcome)
    | Returned(out: Outcome)

  /** How far signalShutdown has run. */
  datatype Stage = Up | AdmissionClosed | ChannelClosed | Down

  datatype State = State(
    n: nat,                       // maxInflight
    stage: Stage,
    free: set<Tag>,
    quarantined: set<Tag>,
    tagOf: map<Call, Tag>,
    phase: map<Call, Phase>,
    flushable: set<Call>,         // calls that flush on cancel
    zeroCopy: set<Call>,          // calls that registered a destination buffer
    entries: map<Tag, Slot>,
    buf: map<Slot, Slot>,         // the message held by a full response channel
    closed: set<Slot>,
    writer: Option<Call>,         // holder of the write lock
    pending: set<Slot>,           // frames the server may still answer
    inbox: seq<Slot>,             // responses on their way to the read loop
    sentOnClosed: bool,           // the read loop sent on a closed channel
    lateWrite: bool,              // the read loop wrote to the buffer of a returned caller
    holder: map<Tag, Call>,
    user: map<Tag, Call>)

  function Tags(n: nat): (r: set<Tag>)
    ensures forall t: Tag :: t in r <==> 1 <= t <= n
  {
    if n == 0 then {} else Tags(n - 1) + {n}
  }

  function Init(n: nat): State {
    State(n, Up, Tags(n), {}, map[], map[], {}, {}, map[], map[], {}, None, {}, [], false, false, map[], map[])
  }

  /** How far a call has got; no step ever goes back. */
  function Rank(p: Phase): nat {
    match p
    case Acquiring => 0
    case HasTag => 1
    case Registered => 2
    case Queued => 3
    case Writing => 4
    case Waiting => 5
    case Flushing => 6
    case Abandoning => 6
    case FlushRegistered => 7
    case FlushQueued => 8
    case FlushWriting => 9
    case FlushWaiting => 10
    case FlushEnding => 11
    case Unflushed => 12
    case Got(_) => 12
    case Failing => 12
    case Releasing(_) => 13
    case Returned(_) => 14
  }

  datatype GateAct = Admit(flush: bool, zeroCopy: bool) | Acquire(tag: Tag) | AcquireFails | Register

  /** The stages of writeT, for the request and for the Tflush alike. */
  datatype WriteAct = PassFirstCheck | Refuse | Begin | Finish | Break

  datatype WaitAct = Receive | SeeClosed | Cancel | Abandon | RegisterFlush | TakeOrig | TakeRflush | GiveUp

  datatype EndAct = UnregisterFlush | Unregister | Release

  datatype Step =
    | Gate(c: Call, gate: GateAct)
    | Write(x: Slot, write: WriteAct)
    | Wait(c: Call, wait: WaitAct)
    | End(c: Call, end: EndAct)
    | Answer(x: Slot)
    | Misbehave(x: Slot)   // the server sends a frame for which it has no right
    | Deliver
    | Shutdown

  predicate IsClosed(s: State) { s.stage.ChannelClosed? || s.stage.Down? }

  predicate CanGate(s: State, c: Call, act: GateAct) {
    match act
    case Admit(_, _) => c !in s.phase && s.stage.Up?
    case Acquire(tag) => c in s.phase && s.phase[c].Acquiring? && tag in s.free
    case AcquireFails => c in s.phase && s.phase[c].Acquiring?
    case Register => c in s.phase && c in s.tagOf && s.phase[c].HasTag?
  }

  function RegisteredPhase(x: Slot): Phase { if x.Orig? then Registered else FlushRegistered }
  function QueuedPhase(x: Slot): Phase { if x.Orig? then Queued else FlushQueued }
  function WritingPhase(x: Slot): Phase { if x.Orig? then Writing else FlushWriting }
  function WaitingPhase(x: Slot): Phase { if x.Orig? then Waiting else FlushWaiting }
  function FailedPhase(x: Slot): Phase { if x.Orig? then Failing else FlushEnding }

  predicate CanWrite(s: State, x: Slot, act: WriteAct) {
    && x.c in s.phase && x.c in s.tagOf
    && match act
       case PassFirstCheck => s.phase[x.c] == RegisteredPhase(x) && !IsClosed(s)
       // The connection is closed, or a request does not encode or does not fit msize.
       case Refuse =>
         || (s.phase[x.c] == RegisteredPhase(x) && (x.Orig? || IsClosed(s)))
         || (s.phase[x.c] == QueuedPhase(x) && s.writer.None? && IsClosed(s))
       case Begin => s.phase[x.c] == QueuedPhase(x) && s.writer.None? && !IsClosed(s)
       case Finish => s.phase[x.c] == WritingPhase(x) && s.writer == Some(x.c)
       // A failed write runs signalShutdown to its end.
       case Break => s.phase[x.c] == WritingPhase(x) && s.writer == Some(x.c) && s.stage.Down?
  }

  predicate CanWait(s: State, c: Call, act: WaitAct) {
    && c in s.phase && c in s.tagOf
    && match act
       case Receive => s.phase[c].Waiting? && Orig(c) in s.buf
       case SeeClosed => s.phase[c].Waiting? && (IsClosed(s) || (Orig(c) in s.closed && Orig(c) !in s.buf))
       case Cancel => s.phase[c].Waiting?
       case Abandon => s.phase[c].Abandoning?
       case RegisterFlush => s.phase[c].Flushing?
       case TakeOrig => s.phase[c].FlushWaiting? && Orig(c) in s.buf
       case TakeRflush => s.phase[c].FlushWaiting? && Flsh(c) in s.buf
       // closeCh, a closed channel, or the grace timer, which runs signalShutdown to its end.
       case GiveUp => s.phase[c].FlushWaiting? && (IsClosed(s) || Orig(c) in s.closed || Flsh(c) in s.closed)
  }

  predicate CanEnd(s: State, c: Call, act: EndAct) {
    && c in s.phase && c in s.tagOf
    && match act
       case UnregisterFlush => s.phase[c].FlushEnding?
       case Unregister => s.phase[c].Got? || s.phase[c].Failing? || s.phase[c].Unflushed?
       case Release => s.phase[c].Releasing?
  }

  /** The server's side of the bargain is in Answer: one answer per frame, none for a flushed request. */
  predicate Enabled(s: State, step: Step) {
    match step
    case Gate(c, act) => CanGate(s, c, act)
    case Write(x, act) => CanWrite(s, x, act)
    case Wait(c, act) => CanWait(s, c, act)
    case End(c, act) => CanEnd(s, c, act)
    case Answer(x) => x in s.pending
    case Misbehave(x) => x.c in s.tagOf
    case Deliver => s.inbox != [] && s.inbox[0].c in s.tagOf
    case Shutdown => !s.stage.Down?
  }

  function DoGate(s: State, c: Call, act: GateAct): State
    requires CanGate(s, c, act)
  {
    match act
    case Admit(flush, zc) =>
      s.(phase := s.phase[c := Acquiring],
         flushable := if flush then s.flushable + {c} else s.flushable,
         zeroCopy := if zc then s.zeroCopy + {c} else s.zeroCopy)
    case Acquire(tag) =>
      s.(phase := s.phase[c := HasTag],
         free := s.free - {tag},
         tagOf := s.tagOf[c := tag],
         holder := s.holder[tag := c])
    case AcquireFails =>
      s.(phase := s.phase[c := Returned(Failed)])
    case Register =>
      s.(phase := s.phase[c := Registered], entries := s.entries[s.tagOf[c] := Orig(c)])
  }

  function WritePhase(x: Slot, act: WriteAct): Phase {
    match act
    case PassFirstCheck => QueuedPhase(x)
    case Refuse => FailedPhase(x)
    case Begin => WritingPhase(x)
    case Finish => WaitingPhase(x)
    case Break => FailedPhase(x)
  }

  /** From the start of the write on, the server may have the frame. */
  function DoWrite(s: State, x: Slot, act: WriteAct): State
    requires CanWrite(s, x, act)
  {
    s.(phase := s.phase[x.c := WritePhase(x, act)],
       writer := if act.Begin? then Some(x.c) else if act.Finish? || act.Break? then None else s.writer,
       user := if act.Begin? && x.Orig? then s.user[s.tagOf[x.c] := x.c] else s.user,
       pending := if act.Begin? then s.pending + {x} else s.pending)
  }

  function DoWait(s: State, c: Call, act: WaitAct): State
    requires CanWait(s, c, act)
  {
    match act
    case Receive =>
      s.(phase := s.phase[c := Got(s.buf[Orig(c)])], buf := s.buf - {Orig(c)})
    case SeeClosed =>
      s.(phase := s.phase[c := Failing])
    case Cancel =>
      s.(phase := s.phase[c := if c in s.flushable then Flushing else Abandoning])
    case Abandon =>
      s.(phase := s.phase[c := Returned(Failed)],
         entries := s.entries - {s.tagOf[c]},
         buf := s.buf - {Orig(c)},
         quarantined := s.quarantined + {s.tagOf[c]},
         holder := s.holder - {s.tagOf[c]})
    case RegisterFlush =>
      s.(phase := s.phase[c := FlushRegistered],
         entries := s.entries[FlushTagFor(s.tagOf[c]) := Flsh(c)])
    case TakeOrig =>
      s.(phase := s.phase[c := FlushEnding], buf := s.buf - {Orig(c), Flsh(c)})
    case TakeRflush =>
      s.(phase := s.phase[c := FlushEnding], buf := s.buf - {Orig(c), Flsh(c)})
    case GiveUp =>
      s.(phase := s.phase[c := FlushEnding])
  }

  function DoEnd(s: State, c: Call, act: EndAct): State
    requires CanEnd(s, c, act)
  {
    match act
    case UnregisterFlush =>
      s.(phase := s.phase[c := Unflushed], entries := s.entries - {FlushTagFor(s.tagOf[c])})
    case Unregister =>
      s.(phase := s.phase[c := Releasing(if s.phase[c].Got? then Delivered(s.phase[c].m) else Failed)],
         entries := s.entries - {s.tagOf[c]})
    case Release =>
      s.(phase := s.phase[c := Returned(s.phase[c].out)],
         free := s.free + {s.tagOf[c]},
         holder := s.holder - {s.tagOf[c]})
  }

  function TagOf(tagOf: map<Call, Tag>, x: Slot): Tag
    requires x.c in tagOf
  {
    if x.Orig? then tagOf[x.c] else FlushTagFor(tagOf[x.c])
  }

  /** The read loop takes one frame and delivers it under the map's lock. */
  function DoDeliver(s: State): State
    requires Enabled(s, Deliver)
  {
    var x, tag := s.inbox[0], TagOf(s.tagOf, s.inbox[0]);
    var s := s.(inbox := s.inbox[1..]);
    if tag !in s.entries then
      s
    else
      var ch := s.entries[tag];
      s.(buf := if ch in s.buf then s.buf else s.buf[ch := x],
         sentOnClosed := s.sentOnClosed || ch in s.closed,
         lateWrite := s.lateWrite || (ch.Orig? && ch.c in s.zeroCopy && ch.c in s.phase && s.phase[ch.c].Returned?))
  }

  function DoAnswer(s: State, x: Slot): State {
    s.(pending := s.pending - {x} - (if x.Flsh? then {Orig(x.c)} else {}), inbox := s.inbox + [x])
  }

  /** The channels registered in the map. */
  function Registrations(entries: map<Tag, Slot>): set<Slot> {
    set t | t in entries :: entries[t]
  }

  /** signalShutdown: close admission, close closeCh, then close and drop every registered channel. */
  function DoShutdown(s: State): State
    requires !s.stage.Down?
  {
    var last := s.stage.ChannelClosed?;
    s.(stage := if s.stage.Up? then AdmissionClosed else if last then Down else ChannelClosed,
       closed := if last then s.closed + Registrations(s.entries) else s.closed,
       entries := if last then map[] else s.entries)
  }

  function Apply(s: State, step: Step): State
    requires Enabled(s, step)
  {
    match step
    case Gate(c, act) => DoGate(s, c, act)
    case Write(x, act) => DoWrite(s, x, act)
    case Wait(c, act) => DoWait(s, c, act)
    case End(c, act) => DoEnd(s, c, act)
    case Answer(x) => DoAnswer(s, x)
    case Misbehave(x) => s.(inbox := s.inbox + [x])
    case Deliver => DoDeliver(s)
    case Shutdown => DoShutdown(s)
  }

  ghost predicate Run(n: nat, run: seq<State>, steps: seq<Step>) {
    && 1 <= n <= MAX_MAX_INFLIGHT
    && |run| == |steps| + 1
    && run[0] == Init(n)
    && forall i :: 0 <= i < |steps| ==> Enabled(run[i], steps[i]) && run[i + 1] == Apply(run[i], steps[i])
  }

  /** A tag given back can still be taken and used for a request. */
  predicate Takeable(s: State) {
    s.stage.Up? || (s.stage.AdmissionClosed? && exists c :: c in s.phase && s.phase[c].Acquiring?)
  }

  /** An Rflush still to arrive under the mirror tag of c, for an earlier use of the tag. */
  predicate Stale(pending: set<Slot>, inbox: seq<Slot>, tagOf: map<Call, Tag>, c: Call, x: Slot) {
    && x.Flsh? && x.c != c && (x in pending || x in inbox)
    && x.c in tagOf && c in tagOf && tagOf[x.c] == tagOf[c]
  }

  predicate Behind(inbox: seq<Slot>, x: Slot, y: Slot) {
    exists i, j :: 0 <= i < j < |inbox| && inbox[i] == x && inbox[j] == y
  }

  /** The response to c can still arrive after x. */
  predicate CanFollow(pending: set<Slot>, inbox: seq<Slot>, c: Call, x: Slot) {
    Orig(c) in pending || Behind(inbox, x, Orig(c))
  }

  /** A mirror tag is registered with no stale Rflush to arrive that the call's own response can follow. */
  ghost predicate MirrorQuiet(s: State, step: Step) {
    step.Wait? && step.wait.RegisterFlush? && Takeable(s) ==>
      forall x :: Stale(s.pending, s.inbox, s.tagOf, step.c, x) ==> !CanFollow(s.pending, s.inbox, step.c, x)
  }

  ghost predicate QuietRun(n: nat, run: seq<State>, steps: seq<Step>) {
    && Run(n, run, steps)
    && forall i :: 0 <= i < |steps| ==> !steps[i].Misbehave? && MirrorQuiet(run[i], steps[i])
  }

  // ---------------------------------------------------------------- phases

  predicate Holds(p: Phase) { 1 <= Rank(p) <= 13 }

  predicate OrigReg(p: Phase) { 2 <= Rank(p) <= 12 }

  predicate FlushReg(p: Phase) { 7 <= Rank(p) <= 11 }

  /** Past the write check, and still entitled to take from its channel. */
  predicate PastCheck(p: Phase) { 4 <= Rank(p) <= 11 }

  /** A request of a call in this phase may still be answered. */
  predicate InFlight(p: Phase) { 4 <= Rank(p) <= 10 }

  // ---------------------------------------------------------------- invariants

  /** Free, held and quarantined tags partition 1..n, and each held tag has one holder. */
  ghost predicate TagsOk(n: nat, free: set<Tag>, quarantined: set<Tag>, holder: map<Tag, Call>,
                         tagOf: map<Call, Tag>, phase: map<Call, Phase>)
  {
    && free !! quarantined
    && (forall t :: t in holder ==> t !in free && t !in quarantined)
    && (forall t :: t in free || t in quarantined || t in holder <==> 1 <= t <= n)
    && (forall c :: c in phase && Holds(phase[c]) ==> c in tagOf && tagOf[c] in holder && holder[tagOf[c]] == c)
    && (forall t :: t in holder ==>
          holder[t] in phase && Holds(phase[holder[t]]) && holder[t] in tagOf && tagOf[holder[t]] == t)
    && (forall c :: c in tagOf ==> c in phase && 1 <= tagOf[c] <= n && Rank(phase[c]) > 0)
  }

  /** A registered tag belongs to a call that has not unregistered it, and its channel is open. */
  ghost predicate EntriesOk(entries: map<Tag, Slot>, closed: set<Slot>, tagOf: map<Call, Tag>,
                            phase: map<Call, Phase>) {
    && (forall t :: t in entries ==>
          && entries[t] !in closed
          && entries[t].c in tagOf && entries[t].c in phase
          && t == TagOf(tagOf, entries[t])
          && if entries[t].Orig? then OrigReg(phase[entries[t].c]) else FlushReg(phase[entries[t].c]))
    && (forall x :: x in closed ==>
          && x.c in phase && x.c in tagOf
          && Rank(phase[x.c]) >= (if x.Orig? then 2 else 7))
  }

  ghost predicate FrameOk(x: Slot, tagOf: map<Call, Tag>, phase: map<Call, Phase>) {
    && x.c in tagOf && x.c in phase
    && Rank(phase[x.c]) >= (if x.Orig? then 4 else 9)
  }

  /** Each frame is at one place at a time: unanswered, on the wire, or in a channel. */
  ghost predicate FramesOk(pending: set<Slot>, inbox: seq<Slot>, buf: map<Slot, Slot>, tagOf: map<Call, Tag>,
                           phase: map<Call, Phase>) {
    && (forall i, j :: 0 <= i < j < |inbox| ==> inbox[i] != inbox[j])
    && (forall x :: x in pending ==> x !in inbox && FrameOk(x, tagOf, phase))
    && (forall i :: 0 <= i < |inbox| ==> FrameOk(inbox[i], tagOf, phase))
    && (forall ch :: ch in buf ==>
          && buf[ch] !in pending && buf[ch] !in inbox && FrameOk(buf[ch], tagOf, phase)
          && ch.c in phase && ch.c in tagOf
          && Rank(phase[ch.c]) >= (if ch.Orig? then 2 else 7))
  }

  /** A live response answers the last call that wrote with its tag. */
  ghost predicate UsersOk(pending: set<Slot>, inbox: seq<Slot>, tagOf: map<Call, Tag>, phase: map<Call, Phase>,
                          user: map<Tag, Call>)
  {
    && (forall x :: (x in pending || x in inbox) && x.Orig? && x.c in tagOf ==>
          tagOf[x.c] in user && user[tagOf[x.c]] == x.c)
    && (forall c :: c in phase && c in tagOf && PastCheck(phase[c]) ==>
          tagOf[c] in user && user[tagOf[c]] == c)
  }

  /** The call still answers for its tag, or its tag is out of use, or nobody can take it any more. */
  predicate Accounted(c: Call, t: Tag, p: Phase, quarantined: set<Tag>, holder: map<Tag, Call>, taking: bool) {
    InFlight(p) || t in quarantined || (!taking && (t in holder ==> holder[t] == c))
  }

  /** Until the connection closes, no tag is given up for use while its request may still be answered. */
  ghost predicate Quiet(pending: set<Slot>, inbox: seq<Slot>, buf: map<Slot, Slot>, tagOf: map<Call, Tag>,
                        phase: map<Call, Phase>, quarantined: set<Tag>, holder: map<Tag, Call>, taking: bool)
  {
    && (forall x :: (x in pending || x in inbox) && x.Orig? && x.c in tagOf && x.c in phase ==>
          Accounted(x.c, tagOf[x.c], phase[x.c], quarantined, holder, taking))
    && (forall c :: Orig(c) in buf && c in phase ==> Rank(phase[c]) > 3)
  }

  /** A caller that can take from its response channel finds there only the answer to its own request. */
  ghost predicate OwnOk(buf: map<Slot, Slot>, phase: map<Call, Phase>) {
    && (forall c :: c in phase && Orig(c) in buf && PastCheck(phase[c]) ==> buf[Orig(c)] == Orig(c))
    && (forall c :: c in phase ==> OwnResult(c, phase[c]))
  }

  predicate OwnResult(c: Call, p: Phase) {
    && (p.Got? ==> p.m == Orig(c))
    && (p.Releasing? && p.out.Delivered? ==> p.out.m == Orig(c))
    && (p.Returned? && p.out.Delivered? ==> p.out.m == Orig(c))
  }

  /** After an Rflush, nothing more comes for the request it flushed. */
  ghost predicate FlushedOk(pending: set<Slot>, inbox: seq<Slot>) {
    && (forall i, j :: 0 <= i < j < |inbox| && inbox[i].Flsh? ==> inbox[j] != Orig(inbox[i].c))
    && (forall i :: 0 <= i < |inbox| && inbox[i].Flsh? ==> Orig(inbox[i].c) !in pending)
  }

  /** Whatever Rflush a call has or can get, its own response does not come after it. */
  ghost predicate HeardOk(pending: set<Slot>, inbox: seq<Slot>, buf: map<Slot, Slot>, tagOf: map<Call, Tag>,
                          phase: map<Call, Phase>) {
    && (forall c, x :: c in phase && FlushReg(phase[c]) && Stale(pending, inbox, tagOf, c, x) ==>
          !CanFollow(pending, inbox, c, x))
    && (forall c :: Flsh(c) in buf ==> Orig(c) !in pending && Orig(c) !in inbox)
  }

  predicate InWrite(p: Phase) { p.Writing? || p.FlushWriting? }

  /** The write lock is held exactly by the call that writes. */
  ghost predicate WriterOk(writer: Option<Call>, phase: map<Call, Phase>, tagOf: map<Call, Tag>) {
    && (writer.Some? ==>
          writer.value in phase && writer.value in tagOf && InWrite(phase[writer.value]))
    && (forall c :: c in phase && InWrite(phase[c]) ==> writer == Some(c))
  }

  /** What every run keeps, whatever the server sends. */
  ghost predicate Base(s: State) {
    && TagsOk(s.n, s.free, s.quarantined, s.holder, s.tagOf, s.phase)
    && EntriesOk(s.entries, s.closed, s.tagOf, s.phase)
    && WriterOk(s.writer, s.phase, s.tagOf)
    && (!s.stage.Down? ==> s.closed == {})
    && !s.sentOnClosed
    && !s.lateWrite
    && s.n <= MAX_MAX_INFLIGHT
  }

  /** What every run keeps against a server that honours flush(5). */
  ghost predicate Inv(s: State) {
    && Base(s)
    && FramesOk(s.pending, s.inbox, s.buf, s.tagOf, s.phase)
    && UsersOk(s.pending, s.inbox, s.tagOf, s.phase, s.user)
    && (!IsClosed(s) ==>
          Quiet(s.pending, s.inbox, s.buf, s.tagOf, s.phase, s.quarantined, s.holder, Takeable(s)))
    && OwnOk(s.buf, s.phase)
    && FlushedOk(s.pending, s.inbox)
    && (Takeable(s) ==> HeardOk(s.pending, s.inbox, s.buf, s.tagOf, s.phase))
  }
}
