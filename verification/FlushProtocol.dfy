/**
 The flush and drain protocol of a server connection: request handlers, Tflush handlers and
 Tversion/cleanup drains running concurrently over one in-flight table (server/flush.go,
 dispatchInline and handleReVersion in server/conn.go, handleFlush in server/dispatch.go,
 server/requestctx.go).

 A step is one critical section, one write to the wire, or one channel operation. `owner`,
 `holder` and `roles` are history variables: the request each table entry belongs to, the request
 each borrowed context belongs to, and what each channel was made for. They decide no step.
 */
module FlushProtocol {
  import opened Common
  import opened ServerInflight

  type Req = nat
  type Flush = nat
  type Drain = nat

  /** Where the worker that serves a request stands in dispatchInline. */
  datatype Phase =
    | Handling                     // inside the handler
    | Committed                    // commit ran; the response write has not returned
    | Sent                         // the response write returned; completeCommit not yet run
    | Finishing                    // no response to order: finish is about to run
    | Closing(done: Option<Chan>)  // out of the table; about to close the channel it took
    | Recycling                    // about to return its context to the pool
    | Gone

  /** What a request is registered under: its tag and its context. */
  datatype Ident = Ident(tag: Tag, ctx: Ctx)

  datatype FlushPhase = Waiting(ch: Chan) | Ready | Answered | GivenUp

  /** A Tflush handler; `target` is the request it found registered under its old tag. */
  datatype Flusher = Flusher(oldTag: Tag, target: Option<Req>, phase: FlushPhase)

  datatype DrainPhase = Cancelled | Draining(ch: Chan) | Drained | TimedOut

  datatype Frame = Response(r: Req) | Rflush(f: Flush)

  datatype Role = DoneFor(r: Req) | DrainSignal

  datatype State = State(
    im: Table,
    ident: map<Req, Ident>,
    phase: map<Req, Phase>,
    flushes: map<Flush, Flusher>,
    drains: map<Drain, DrainPhase>,
    recvHeldBy: Option<Drain>,     // the re-negotiation that holds recvMu
    wire: seq<Frame>,
    pool: set<Ctx>,
    nextCtx: Ctx,
    owner: map<Tag, Req>,
    holder: map<Ctx, Req>,
    roles: seq<Role>)

  const INIT := State(EMPTY, map[], map[], map[], map[], None, [], {}, 1, map[], map[], [])

  /** What the worker serving request r does next. */
  datatype Serve =
    | Start(tag: Tag, ctx: Ctx)
    | Respond
    | StaySilent
    | Panic(written: bool)
    | Write(written: bool)
    | Complete
    | Finish
    | CloseDone
    | Recycle

  datatype FlushAct = Arrive(tag: Tag) | Wake | GiveUp | Answer(written: bool)

  datatype DrainAct = CancelAll(holdsRecv: bool) | AwaitDrain | WakeUp | TimeOut | ReleaseRecv

  datatype Step =
    | OnRequest(r: Req, serve: Serve)
    | OnFlush(f: Flush, flush: FlushAct)
    | OnDrain(d: Drain, drain: DrainAct)

  predicate CanServe(s: State, r: Req, act: Serve) {
    if act.Start? then
      && r !in s.phase && r !in s.ident
      && s.recvHeldBy.None?
      && (act.ctx in s.pool || act.ctx == s.nextCtx)
      && s.im.Startable(act.tag)
    else
      && r in s.phase && r in s.ident
      && match act
         case Write(_) => s.phase[r].Committed?
         case Complete => s.phase[r].Sent?
         case Finish => s.phase[r].Finishing?
         case CloseDone => s.phase[r].Closing?
         case Recycle => s.phase[r].Recycling?
         case _ => s.phase[r].Handling?
  }

  predicate CanFlush(s: State, f: Flush, act: FlushAct) {
    match act
    case Arrive(_) => f !in s.flushes
    case Wake => f in s.flushes && s.flushes[f].phase.Waiting? && s.flushes[f].phase.ch in s.im.closed
    case GiveUp => f in s.flushes && s.flushes[f].phase.Waiting?
    case Answer(_) => f in s.flushes && s.flushes[f].phase.Ready?
  }

  predicate CanDrain(s: State, d: Drain, act: DrainAct) {
    match act
    case CancelAll(holdsRecv) => d !in s.drains && (holdsRecv ==> s.recvHeldBy.None?)
    case AwaitDrain => d in s.drains && s.drains[d].Cancelled?
    case WakeUp => d in s.drains && s.drains[d].Draining? && s.drains[d].ch in s.im.closed
    case TimeOut => d in s.drains && s.drains[d].Draining?
    case ReleaseRecv => d in s.drains && s.recvHeldBy == Some(d) && (s.drains[d].Drained? || s.drains[d].TimedOut?)
  }

  predicate Enabled(s: State, step: Step) {
    match step
    case OnRequest(r, act) => CanServe(s, r, act)
    case OnFlush(f, act) => CanFlush(s, f, act)
    case OnDrain(d, act) => CanDrain(s, d, act)
  }

  function Append(wire: seq<Frame>, frame: Frame, written: bool): seq<Frame> {
    if written then wire + [frame] else wire
  }

  function DoServe(s: State, r: Req, act: Serve): State
    requires CanServe(s, r, act)
  {
    match act
    case Start(tag, ctx) =>
      s.(im := s.im.Start(tag, ctx),
         ident := s.ident[r := Ident(tag, ctx)],
         phase := s.phase[r := Handling],
         pool := s.pool - {ctx},
         nextCtx := if ctx == s.nextCtx then ctx + 1 else s.nextCtx,
         owner := s.owner[tag := r],
         holder := s.holder[ctx := r])
    case Respond =>
      s.(phase := s.phase[r := Committed], im := s.im.Commit(s.ident[r].tag))
    case StaySilent =>
      s.(phase := s.phase[r := Finishing])
    case Panic(written) =>
      s.(phase := s.phase[r := Finishing], wire := Append(s.wire, Response(r), written))
    case Write(written) =>
      s.(phase := s.phase[r := Sent], wire := Append(s.wire, Response(r), written))
    case Complete =>
      var Ident(tag, ctx) := s.ident[r];
      s.(phase := s.phase[r := Closing(s.im.CompletedDone(tag, ctx))],
         im := s.im.CompleteCommit(tag, ctx),
         owner := if s.im.StillHolds(tag, ctx) then s.owner - {tag} else s.owner)
    case Finish =>
      var tag := s.ident[r].tag;
      s.(phase := s.phase[r := Closing(s.im.Get(tag).done)], im := s.im.Remove(tag), owner := s.owner - {tag})
    case CloseDone =>
      s.(phase := s.phase[r := Recycling], im := s.im.Close(s.phase[r].done))
    case Recycle =>
      var ctx := s.ident[r].ctx;
      s.(phase := s.phase[r := Gone],
         pool := s.pool + {ctx},
         im := s.im.(cancelled := s.im.cancelled - {ctx}),
         holder := s.holder - {ctx})
  }

  function DoFlush(s: State, f: Flush, act: FlushAct): State
    requires CanFlush(s, f, act)
  {
    match act
    case Arrive(tag) =>
      if tag !in s.im.entries then
        s.(flushes := s.flushes[f := Flusher(tag, None, Ready)])
      else
        var im := s.im.FlushWait(tag);
        var target := if tag in s.owner then Some(s.owner[tag]) else None;
        var done := im.Get(tag).done;
        s.(im := im,
           flushes := s.flushes[f := Flusher(tag, target, if done.Some? then Waiting(done.value) else Ready)],
           roles := if im.made > s.im.made && target.Some? then s.roles + [DoneFor(target.value)] else s.roles)
    case Wake =>
      s.(flushes := s.flushes[f := s.flushes[f].(phase := Ready)])
    case GiveUp =>
      s.(flushes := s.flushes[f := s.flushes[f].(phase := GivenUp)])
    case Answer(written) =>
      s.(flushes := s.flushes[f := s.flushes[f].(phase := Answered)], wire := Append(s.wire, Rflush(f), written))
  }

  function DoDrain(s: State, d: Drain, act: DrainAct): State
    requires CanDrain(s, d, act)
  {
    match act
    case CancelAll(holdsRecv) =>
      s.(im := s.im.CancelAll(),
         drains := s.drains[d := Cancelled],
         recvHeldBy := if holdsRecv then Some(d) else s.recvHeldBy)
    case AwaitDrain =>
      var im := s.im.DrainChan();
      s.(im := im,
         drains := s.drains[d := if im.count == 0 || im.drained.None? then Drained else Draining(im.drained.value)],
         roles := if im.made > s.im.made then s.roles + [DrainSignal] else s.roles)
    case WakeUp =>
      s.(drains := s.drains[d := Drained])
    case TimeOut =>
      s.(drains := s.drains[d := TimedOut])
    case ReleaseRecv =>
      s.(recvHeldBy := None)
  }

  function Apply(s: State, step: Step): State
    requires Enabled(s, step)
  {
    match step
    case OnRequest(r, act) => DoServe(s, r, act)
    case OnFlush(f, act) => DoFlush(s, f, act)
    case OnDrain(d, act) => DoDrain(s, d, act)
  }

  // ---------------------------------------------------------------- runs

  ghost predicate Run(run: seq<State>, steps: seq<Step>) {
    && |run| == |steps| + 1
    && run[0] == INIT
    && forall i :: 0 <= i < |steps| ==> Enabled(run[i], steps[i]) && run[i + 1] == Apply(run[i], steps[i])
  }

  /** A tag is reused only once the response to its previous request is on the wire. */
  predicate LegalReuse(s: State, step: Step) {
    step.OnRequest? && step.serve.Start? && step.serve.tag in s.owner ==> Response(s.owner[step.serve.tag]) in s.wire
  }

  /** Flush f waits for the request whose committed entry a new request now takes over unwritten. */
  predicate CutsShort(s: State, step: Step, f: Flush) {
    && step.OnRequest? && step.serve.Start?
    && var tag := step.serve.tag;
       && tag in s.owner && tag in s.im.entries && s.im.entries[tag].done.Some?
       && s.owner[tag] in s.phase && s.phase[s.owner[tag]].Committed?
       && f in s.flushes && s.flushes[f].phase == Waiting(s.im.entries[tag].done.value)
  }

  /** No reuse releases a Tflush before the response it waits for has been written. */
  ghost predicate Timely(s: State, step: Step) {
    forall f :: !CutsShort(s, step, f)
  }

  ghost predicate TimelyRun(run: seq<State>, steps: seq<Step>) {
    Run(run, steps) && forall i :: 0 <= i < |steps| ==> Timely(run[i], steps[i])
  }

  ghost predicate LegalRun(run: seq<State>, steps: seq<Step>) {
    Run(run, steps) && forall i :: 0 <= i < |steps| ==> LegalReuse(run[i], steps[i])
  }

  // ---------------------------------------------------------------- invariants of every run

  predicate Responding(phase: Phase) { phase.Committed? || phase.Sent? }

  predicate Unresponded(phase: Phase) { phase.Handling? || phase.Finishing? }

  /** Every entry belongs to one request, and every request before its commit owns its tag's entry. */
  ghost predicate Owners(entries: map<Tag, Entry>, owner: map<Tag, Req>, ident: map<Req, Ident>,
                         phase: map<Req, Phase>) {
    && ident.Keys == phase.Keys
    && owner.Keys == entries.Keys
    && (forall tag :: tag in owner ==>
          && owner[tag] in phase
          && ident[owner[tag]] == Ident(tag, entries[tag].rctx)
          && if entries[tag].committed then Responding(phase[owner[tag]]) else Unresponded(phase[owner[tag]]))
    && (forall r :: r in phase && Unresponded(phase[r]) ==> ident[r].tag in owner && owner[ident[r].tag] == r)
  }

  /** A live request holds its own context; a context that is pooled or not yet made is clean. */
  ghost predicate Contexts(s: State) {
    && s.nextCtx > NIL
    && s.ident.Keys == s.phase.Keys
    && (forall r :: r in s.phase && s.phase[r] != Gone ==>
          s.ident[r].ctx in s.holder && s.holder[s.ident[r].ctx] == r)
    && (forall c :: c in s.holder ==> NIL < c < s.nextCtx && c !in s.pool)
    && (forall c :: c in s.pool ==> NIL < c < s.nextCtx)
    && (forall c :: c in s.im.cancelled ==> c in s.holder)
  }

  ghost predicate OpenFor(closed: set<Chan>, roles: seq<Role>, ch: Chan, role: Role) {
    ch < |roles| && ch !in closed && roles[ch] == role
  }

  /** Each channel still to be closed is open, and one request (or the drain) alone will close it. */
  ghost predicate Channels(im: Table, owner: map<Tag, Req>, phase: map<Req, Phase>, roles: seq<Role>) {
    && !im.panicked
    && |roles| == im.made
    && (forall ch :: ch in im.closed ==> ch < im.made)
    && (forall tag :: tag in im.entries && tag in owner && im.entries[tag].done.Some? ==>
          OpenFor(im.closed, roles, im.entries[tag].done.value, DoneFor(owner[tag])))
    && (forall r :: r in phase && phase[r].Closing? && phase[r].done.Some? ==>
          OpenFor(im.closed, roles, phase[r].done.value, DoneFor(r)))
    && im.count == |im.entries|
    && (im.drained.Some? ==> OpenFor(im.closed, roles, im.drained.value, DrainSignal) && im.count > 0)
  }

  /** Request r has not finished and will close ch. */
  ghost predicate WillClose(s: State, r: Req, ch: Chan) {
    && r in s.phase
    && r in s.ident
    && var tag := s.ident[r].tag;
       || s.phase[r] == Closing(Some(ch))
       || (tag in s.owner && s.owner[tag] == r && tag in s.im.entries && s.im.entries[tag].done == Some(ch))
  }

  ghost predicate FlushOk(s: State, f: Flusher) {
    && (f.target.Some? ==> f.target.value in s.phase)
    && (f.phase.Waiting? ==>
          && f.target.Some?
          && f.phase.ch < |s.roles|
          && s.roles[f.phase.ch] == DoneFor(f.target.value)
          && (f.phase.ch in s.im.closed || WillClose(s, f.target.value, f.phase.ch)))
  }

  ghost predicate Flushes(s: State) {
    forall f :: f in s.flushes ==> FlushOk(s, s.flushes[f])
  }

  /**
   A drain waits on an open channel only while the table still holds that channel; and while a
   re-negotiation holds recvMu, the count it saw reach zero stays zero.
   */
  ghost predicate Drains(im: Table, roles: seq<Role>, drains: map<Drain, DrainPhase>, recvHeldBy: Option<Drain>) {
    && (forall d :: d in drains && drains[d].Draining? ==>
          && drains[d].ch < |roles|
          && roles[drains[d].ch] == DrainSignal
          && (drains[d].ch in im.closed || im.drained == Some(drains[d].ch)))
    && (recvHeldBy.Some? ==>
          && recvHeldBy.value in drains
          && var p := drains[recvHeldBy.value];
             p.Drained? || (p.Draining? && p.ch in im.closed) ==> im.count == 0)
  }

  /** A frame on the wire was put there by a request or Tflush that has moved past writing it. */
  ghost predicate Wire(wire: seq<Frame>, phase: map<Req, Phase>, flushes: map<Flush, Flusher>) {
    forall i :: 0 <= i < |wire| ==>
      match wire[i]
      case Rflush(f) => f in flushes && flushes[f].phase.Answered?
      case Response(r) => r in phase && !phase[r].Handling? && !phase[r].Committed?
  }

  ghost predicate Inv(s: State) {
    && Owners(s.im.entries, s.owner, s.ident, s.phase)
    && Contexts(s)
    && Channels(s.im, s.owner, s.phase, s.roles)
    && Flushes(s)
    && Drains(s.im, s.roles, s.drains, s.recvHeldBy)
    && Wire(s.wire, s.phase, s.flushes)
  }

  // ---------------------------------------------------------------- preservation, part by part

  ghost predicate OwnersOf(s: State) {
    Owners(s.im.entries, s.owner, s.ident, s.phase)
  }

  lemma StartKeepsOwners(s: State, r: Req, act: Serve)
    requires OwnersOf(s) && act.Start? && CanServe(s, r, act)
    ensures OwnersOf(DoServe(s, r, act))
  {
  }

  lemma RespondKeepsOwners(s: State, r: Req)
    requires OwnersOf(s) && CanServe(s, r, Respond)
    ensures OwnersOf(DoServe(s, r, Respond))
  {
  }

  lemma DropOwner(entries: map<Tag, Entry>, owner: map<Tag, Req>, ident: map<Req, Ident>, phase: map<Req, Phase>,
                  tag: Tag, p: Phase)
    requires Owners(entries, owner, ident, phase) && tag in owner && !Unresponded(p)
    ensures Owners(entries - {tag}, owner - {tag}, ident, phase[owner[tag] := p])
  {
  }

  /** A request that owns no entry any more may move on. */
  lemma LeaveOwners(entries: map<Tag, Entry>, owner: map<Tag, Req>, ident: map<Req, Ident>, phase: map<Req, Phase>,
                    r: Req, p: Phase)
    requires Owners(entries, owner, ident, phase) && r in phase && !Unresponded(p)
    requires forall tag :: tag in owner ==> owner[tag] != r
    ensures Owners(entries, owner, ident, phase[r := p])
  {
  }

  lemma CompleteKeepsOwners(s: State, r: Req)
    requires OwnersOf(s) && Contexts(s) && CanServe(s, r, Complete)
    ensures OwnersOf(DoServe(s, r, Complete))
  {
    var Ident(tag, ctx) := s.ident[r];
    var p := Closing(s.im.CompletedDone(tag, ctx));
    if s.im.StillHolds(tag, ctx) {
      assert s.ident[s.owner[tag]].ctx == ctx;
      DropOwner(s.im.entries, s.owner, s.ident, s.phase, tag, p);
    } else {
      LeaveOwners(s.im.entries, s.owner, s.ident, s.phase, r, p);
    }
  }

  lemma FinishKeepsOwners(s: State, r: Req)
    requires OwnersOf(s) && CanServe(s, r, Finish)
    ensures OwnersOf(DoServe(s, r, Finish))
  {
  }

  lemma MoveOwners(entries: map<Tag, Entry>, owner: map<Tag, Req>, ident: map<Req, Ident>, phase: map<Req, Phase>,
                   r: Req, p: Phase)
    requires Owners(entries, owner, ident, phase) && r in phase
    requires Unresponded(phase[r]) <==> Unresponded(p)
    requires Responding(phase[r]) <==> Responding(p)
    ensures Owners(entries, owner, ident, phase[r := p])
  {
  }

  /** Moves that leave the table alone. */
  lemma MoveKeepsOwners(s: State, r: Req, act: Serve)
    requires OwnersOf(s) && CanServe(s, r, act)
    requires act.StaySilent? || act.Panic? || act.Write? || act.CloseDone? || act.Recycle?
    ensures OwnersOf(DoServe(s, r, act))
  {
    var s' := DoServe(s, r, act);
    MoveOwners(s.im.entries, s.owner, s.ident, s.phase, r, s'.phase[r]);
    assert s'.im.entries == s.im.entries;
  }

  lemma FlushKeepsOwners(s: State, f: Flush, act: FlushAct)
    requires Owners(s.im.entries, s.owner, s.ident, s.phase) && CanFlush(s, f, act)
    ensures var s' := DoFlush(s, f, act); Owners(s'.im.entries, s'.owner, s'.ident, s'.phase)
  {
  }

  lemma DrainKeepsOwners(s: State, d: Drain, act: DrainAct)
    requires Owners(s.im.entries, s.owner, s.ident, s.phase) && CanDrain(s, d, act)
    ensures var s' := DoDrain(s, d, act); Owners(s'.im.entries, s'.owner, s'.ident, s'.phase)
  {
  }

  lemma BorrowKeepsContexts(s: State, r: Req, act: Serve)
    requires Contexts(s) && CanServe(s, r, act) && (act.Start? || act.Recycle?)
    ensures Contexts(DoServe(s, r, act))
  {
  }

  lemma MoveKeepsContexts(s: State, r: Req, act: Serve)
    requires Contexts(s) && CanServe(s, r, act) && !act.Start? && !act.Recycle?
    ensures Contexts(DoServe(s, r, act))
  {
    var s' := DoServe(s, r, act);
    assert s'.im.cancelled == s.im.cancelled && s'.phase == s.phase[r := s'.phase[r]];
  }

  lemma FlushKeepsContexts(s: State, f: Flush, act: FlushAct)
    requires Contexts(s) && Owners(s.im.entries, s.owner, s.ident, s.phase) && CanFlush(s, f, act)
    ensures Contexts(DoFlush(s, f, act))
  {
  }

  lemma DrainKeepsContexts(s: State, d: Drain, act: DrainAct)
    requires Contexts(s) && Owners(s.im.entries, s.owner, s.ident, s.phase) && CanDrain(s, d, act)
    ensures Contexts(DoDrain(s, d, act))
  {
  }

  ghost predicate ChannelsOf(s: State) {
    Channels(s.im, s.owner, s.phase, s.roles)
  }

  lemma StartKeepsChannels(s: State, r: Req, act: Serve)
    requires ChannelsOf(s) && OwnersOf(s) && act.Start? && CanServe(s, r, act)
    ensures ChannelsOf(DoServe(s, r, act))
  {
    UpdateSize(s.im.entries, act.tag, Entry(act.ctx, None, false));
  }

  lemma RespondKeepsChannels(s: State, r: Req)
    requires ChannelsOf(s) && OwnersOf(s) && CanServe(s, r, Respond)
    ensures ChannelsOf(DoServe(s, r, Respond))
  {
    UpdateSize(s.im.entries, s.ident[r].tag, s.im.Get(s.ident[r].tag).(committed := true));
  }

  /** Dropping r's entry leaves its channel to r alone. */
  lemma DropChannels(im: Table, owner: map<Tag, Req>, phase: map<Req, Phase>, roles: seq<Role>, tag: Tag, r: Req)
    requires Channels(im, owner, phase, roles)
    requires tag in im.entries && tag in owner && owner[tag] == r && r in phase && !phase[r].Closing?
    requires forall t :: t in owner && owner[t] == r ==> t == tag
    ensures Channels(im.Remove(tag), owner - {tag}, phase[r := Closing(im.entries[tag].done)], roles)
  {
    RemoveSize(im.entries, tag);
  }

  lemma CompleteKeepsChannels(s: State, r: Req)
    requires ChannelsOf(s) && OwnersOf(s) && Contexts(s) && CanServe(s, r, Complete)
    ensures ChannelsOf(DoServe(s, r, Complete))
  {
    var Ident(tag, ctx) := s.ident[r];
    if s.im.StillHolds(tag, ctx) {
      assert s.ident[s.owner[tag]].ctx == ctx;
      DropChannels(s.im, s.owner, s.phase, s.roles, tag, r);
    }
  }

  lemma FinishKeepsChannels(s: State, r: Req)
    requires ChannelsOf(s) && OwnersOf(s) && CanServe(s, r, Finish)
    ensures ChannelsOf(DoServe(s, r, Finish))
  {
    DropChannels(s.im, s.owner, s.phase, s.roles, s.ident[r].tag, r);
  }

  lemma CloseKeepsChannels(s: State, r: Req)
    requires ChannelsOf(s) && OwnersOf(s) && CanServe(s, r, CloseDone)
    ensures ChannelsOf(DoServe(s, r, CloseDone))
  {
  }

  lemma MoveKeepsChannels(s: State, r: Req, act: Serve)
    requires ChannelsOf(s) && CanServe(s, r, act)
    requires act.StaySilent? || act.Panic? || act.Write? || act.Recycle?
    ensures ChannelsOf(DoServe(s, r, act))
  {
  }

  lemma ArriveKeepsChannels(s: State, f: Flush, tag: Tag)
    requires ChannelsOf(s) && OwnersOf(s) && CanFlush(s, f, Arrive(tag)) && tag in s.im.entries
    ensures ChannelsOf(DoFlush(s, f, Arrive(tag)))
  {
    UpdateSize(s.im.entries, tag, s.im.entries[tag].(done := Some(s.im.made)));
  }

  lemma FlushKeepsChannels(s: State, f: Flush, act: FlushAct)
    requires ChannelsOf(s) && OwnersOf(s) && CanFlush(s, f, act)
    ensures ChannelsOf(DoFlush(s, f, act))
  {
    if act.Arrive? && act.tag in s.im.entries {
      ArriveKeepsChannels(s, f, act.tag);
    } else {
      var s' := DoFlush(s, f, act);
      assert s'.im == s.im && s'.owner == s.owner && s'.phase == s.phase && s'.roles == s.roles;
    }
  }

  lemma DrainKeepsChannels(s: State, d: Drain, act: DrainAct)
    requires ChannelsOf(s) && CanDrain(s, d, act)
    ensures ChannelsOf(DoDrain(s, d, act))
  {
  }

  lemma StartKeepsFlushes(s: State, r: Req, act: Serve)
    requires Flushes(s) && OwnersOf(s) && act.Start? && CanServe(s, r, act)
    ensures Flushes(DoServe(s, r, act))
  {
  }

  lemma RespondKeepsFlushes(s: State, r: Req)
    requires Flushes(s) && OwnersOf(s) && CanServe(s, r, Respond)
    ensures Flushes(DoServe(s, r, Respond))
  {
  }

  lemma CompleteKeepsFlushes(s: State, r: Req)
    requires Flushes(s) && OwnersOf(s) && Contexts(s) && CanServe(s, r, Complete)
    ensures Flushes(DoServe(s, r, Complete))
  {
    var Ident(tag, ctx) := s.ident[r];
    if s.im.StillHolds(tag, ctx) {
      assert s.ident[s.owner[tag]].ctx == ctx;
      assert s.owner[tag] == r;
    }
  }

  lemma FinishKeepsFlushes(s: State, r: Req)
    requires Flushes(s) && OwnersOf(s) && CanServe(s, r, Finish)
    ensures Flushes(DoServe(s, r, Finish))
  {
  }

  lemma MoveKeepsFlushes(s: State, r: Req, act: Serve)
    requires Flushes(s) && CanServe(s, r, act)
    requires act.StaySilent? || act.Panic? || act.Write? || act.Recycle? || act.CloseDone?
    ensures Flushes(DoServe(s, r, act))
  {
  }

  lemma ArriveKeepsFlushes(s: State, f: Flush, tag: Tag)
    requires Flushes(s) && OwnersOf(s) && ChannelsOf(s) && CanFlush(s, f, Arrive(tag))
    ensures Flushes(DoFlush(s, f, Arrive(tag)))
  {
  }

  lemma FlushKeepsFlushes(s: State, f: Flush, act: FlushAct)
    requires Flushes(s) && OwnersOf(s) && ChannelsOf(s) && CanFlush(s, f, act)
    ensures Flushes(DoFlush(s, f, act))
  {
    if act.Arrive? {
      ArriveKeepsFlushes(s, f, act.tag);
    }
  }

  lemma DrainKeepsFlushes(s: State, d: Drain, act: DrainAct)
    requires Flushes(s) && CanDrain(s, d, act)
    ensures Flushes(DoDrain(s, d, act))
  {
  }

  ghost predicate DrainsOf(s: State) {
    Drains(s.im, s.roles, s.drains, s.recvHeldBy)
  }

  lemma RemovalKeepsDrains(s: State, r: Req, act: Serve)
    requires DrainsOf(s) && ChannelsOf(s) && OwnersOf(s) && CanServe(s, r, act) && (act.Complete? || act.Finish?)
    ensures DrainsOf(DoServe(s, r, act))
  {
  }

  lemma ServeKeepsDrains(s: State, r: Req, act: Serve)
    requires DrainsOf(s) && ChannelsOf(s) && OwnersOf(s) && CanServe(s, r, act)
    ensures DrainsOf(DoServe(s, r, act))
  {
    match act
    case Start(_, _) => assert DrainsOf(DoServe(s, r, act));
    case Complete => RemovalKeepsDrains(s, r, act);
    case Finish => RemovalKeepsDrains(s, r, act);
    case _ => assert DrainsOf(DoServe(s, r, act));
  }

  lemma FlushKeepsDrains(s: State, f: Flush, act: FlushAct)
    requires DrainsOf(s) && CanFlush(s, f, act)
    ensures DrainsOf(DoFlush(s, f, act))
  {
  }

  lemma DrainKeepsDrains(s: State, d: Drain, act: DrainAct)
    requires DrainsOf(s) && ChannelsOf(s) && CanDrain(s, d, act)
    ensures DrainsOf(DoDrain(s, d, act))
  {
  }

  lemma MoveWire(wire: seq<Frame>, phase: map<Req, Phase>, flushes: map<Flush, Flusher>, r: Req, p: Phase)
    requires Wire(wire, phase, flushes)
    requires r in phase && !p.Handling? && (p.Committed? ==> phase[r].Handling?)
    ensures Wire(wire, phase[r := p], flushes)
  {
  }

  lemma ServeKeepsWire(s: State, r: Req, act: Serve)
    requires Wire(s.wire, s.phase, s.flushes) && CanServe(s, r, act)
    ensures var s' := DoServe(s, r, act); Wire(s'.wire, s'.phase, s'.flushes)
  {
    var s' := DoServe(s, r, act);
    assert s'.flushes == s.flushes && s'.phase == s.phase[r := s'.phase[r]];
    if !act.Start? {
      MoveWire(s.wire, s.phase, s.flushes, r, s'.phase[r]);
    }
  }

  lemma FlushKeepsWire(s: State, f: Flush, act: FlushAct)
    requires Wire(s.wire, s.phase, s.flushes) && CanFlush(s, f, act)
    ensures var s' := DoFlush(s, f, act); Wire(s'.wire, s'.phase, s'.flushes)
  {
    var s' := DoFlush(s, f, act);
    assert s'.phase == s.phase && s'.flushes == s.flushes[f := s'.flushes[f]];
  }

  lemma ServeKeepsInv(s: State, r: Req, act: Serve)
    requires Inv(s) && CanServe(s, r, act)
    ensures Inv(DoServe(s, r, act))
  {
    ServeKeepsWire(s, r, act);
    ServeKeepsDrains(s, r, act);
    match act
    case Start(_, _) =>
      StartKeepsOwners(s, r, act); StartKeepsChannels(s, r, act); StartKeepsFlushes(s, r, act);
      BorrowKeepsContexts(s, r, act);
    case Respond =>
      RespondKeepsOwners(s, r); RespondKeepsChannels(s, r); RespondKeepsFlushes(s, r); MoveKeepsContexts(s, r, act);
    case Complete =>
      CompleteKeepsOwners(s, r); CompleteKeepsChannels(s, r); CompleteKeepsFlushes(s, r); MoveKeepsContexts(s, r, act);
    case Finish =>
      FinishKeepsOwners(s, r); FinishKeepsChannels(s, r); FinishKeepsFlushes(s, r); MoveKeepsContexts(s, r, act);
    case CloseDone =>
      MoveKeepsOwners(s, r, act); CloseKeepsChannels(s, r); MoveKeepsFlushes(s, r, act); MoveKeepsContexts(s, r, act);
    case Recycle =>
      MoveKeepsOwners(s, r, act); MoveKeepsChannels(s, r, act); MoveKeepsFlushes(s, r, act);
      BorrowKeepsContexts(s, r, act);
    case _ =>
      MoveKeepsOwners(s, r, act); MoveKeepsChannels(s, r, act); MoveKeepsFlushes(s, r, act);
      MoveKeepsContexts(s, r, act);
  }

  lemma FlushKeepsInv(s: State, f: Flush, act: FlushAct)
    requires Inv(s) && CanFlush(s, f, act)
    ensures Inv(DoFlush(s, f, act))
  {
    FlushKeepsWire(s, f, act);
    FlushKeepsOwners(s, f, act);
    FlushKeepsContexts(s, f, act);
    FlushKeepsChannels(s, f, act);
    FlushKeepsFlushes(s, f, act);
    FlushKeepsDrains(s, f, act);
  }

  lemma DrainKeepsInv(s: State, d: Drain, act: DrainAct)
    requires Inv(s) && CanDrain(s, d, act)
    ensures Inv(DoDrain(s, d, act))
  {
    DrainKeepsOwners(s, d, act);
    DrainKeepsContexts(s, d, act);
    DrainKeepsChannels(s, d, act);
    DrainKeepsFlushes(s, d, act);
    DrainKeepsDrains(s, d, act);
  }

  lemma {:induction false} RunKeepsInv(run: seq<State>, steps: seq<Step>, k: nat)
    requires Run(run, steps) && k < |run|
    ensures Inv(run[k])
  {
    if k > 0 {
      RunKeepsInv(run, steps, k - 1);
      match steps[k - 1]
      case OnRequest(r, act) => ServeKeepsInv(run[k - 1], r, act);
      case OnFlush(f, act) => FlushKeepsInv(run[k - 1], f, act);
      case OnDrain(d, act) => DrainKeepsInv(run[k - 1], d, act);
    }
  }

  // ---------------------------------------------------------------- wire order

  predicate PastWrite(phase: Phase) {
    phase.Sent? || phase.Closing? || phase.Recycling? || phase.Gone?
  }

  /** A Tflush that may answer has a target whose response can no longer be written. */
  ghost predicate Ordered(s: State, f: Flusher) {
    f.target.Some? && (f.phase.Ready? || f.phase.Answered? || (f.phase.Waiting? && f.phase.ch in s.im.closed)) ==>
      f.target.value in s.phase && PastWrite(s.phase[f.target.value])
  }

  ghost predicate InOrder(wire: seq<Frame>, flushes: map<Flush, Flusher>) {
    forall i, j :: 0 <= i < j < |wire| && wire[i].Rflush? && wire[j].Response? && wire[i].f in flushes ==>
      flushes[wire[i].f].target != Some(wire[j].r)
  }

  ghost predicate Order(s: State) {
    && (forall f :: f in s.flushes ==> Ordered(s, s.flushes[f]))
    && InOrder(s.wire, s.flushes)
  }

  lemma StartKeepsOrder(s: State, r: Req, act: Serve)
    requires Order(s) && Flushes(s) && OwnersOf(s) && ChannelsOf(s) && act.Start? && CanServe(s, r, act)
    requires Timely(s, OnRequest(r, act))
    ensures Order(DoServe(s, r, act))
  {
    var s' := DoServe(s, r, act);
    forall f | f in s'.flushes ensures Ordered(s', s'.flushes[f]) {
      assert !CutsShort(s, OnRequest(r, act), f);
      assert Ordered(s, s.flushes[f]) && FlushOk(s, s.flushes[f]);
    }
  }

  lemma AppendInOrder(wire: seq<Frame>, flushes: map<Flush, Flusher>, r: Req)
    requires InOrder(wire, flushes)
    requires forall i :: 0 <= i < |wire| && wire[i].Rflush? ==>
               wire[i].f in flushes && flushes[wire[i].f].target != Some(r)
    ensures InOrder(wire + [Response(r)], flushes)
  {
  }

  /** A response is written only while no Tflush for its request has been answered. */
  lemma WriteKeepsOrder(s: State, r: Req, act: Serve)
    requires Order(s) && Wire(s.wire, s.phase, s.flushes) && (act.Panic? || act.Write?) && CanServe(s, r, act)
    ensures Order(DoServe(s, r, act))
  {
    var s' := DoServe(s, r, act);
    forall i | 0 <= i < |s.wire| && s.wire[i].Rflush?
      ensures s.wire[i].f in s.flushes && s.flushes[s.wire[i].f].target != Some(r)
    {
      assert Ordered(s, s.flushes[s.wire[i].f]);
    }
    AppendInOrder(s.wire, s.flushes, r);
    forall f | f in s'.flushes ensures Ordered(s', s'.flushes[f]) {
      assert Ordered(s, s.flushes[f]);
    }
  }

  /** Only a channel of r's own, or the drain channel, is closed as r leaves. */
  lemma LeaveKeepsOrder(s: State, r: Req, act: Serve)
    requires Order(s) && Flushes(s) && OwnersOf(s) && ChannelsOf(s) && CanServe(s, r, act)
    requires !act.Start? && !act.Panic? && !act.Write?
    ensures Order(DoServe(s, r, act))
  {
    var s' := DoServe(s, r, act);
    forall f | f in s'.flushes ensures Ordered(s', s'.flushes[f]) {
      assert Ordered(s, s.flushes[f]) && FlushOk(s, s.flushes[f]);
    }
  }

  lemma ArriveKeepsOrder(s: State, f: Flush, act: FlushAct)
    requires Order(s) && ChannelsOf(s) && OwnersOf(s) && Wire(s.wire, s.phase, s.flushes)
    requires act.Arrive? && CanFlush(s, f, act)
    ensures Order(DoFlush(s, f, act))
  {
    var s' := DoFlush(s, f, act);
    forall g | g in s'.flushes ensures Ordered(s', s'.flushes[g]) {
      if g != f {
        assert Ordered(s, s.flushes[g]);
      }
    }
  }

  lemma FlushKeepsOrder(s: State, f: Flush, act: FlushAct)
    requires Order(s) && Wire(s.wire, s.phase, s.flushes) && !act.Arrive? && CanFlush(s, f, act)
    ensures Order(DoFlush(s, f, act))
  {
    var s' := DoFlush(s, f, act);
    forall g | g in s'.flushes ensures Ordered(s', s'.flushes[g]) {
      assert Ordered(s, s.flushes[g]);
    }
  }

  lemma DrainKeepsOrder(s: State, d: Drain, act: DrainAct)
    requires Order(s) && CanDrain(s, d, act)
    ensures Order(DoDrain(s, d, act))
  {
    var s' := DoDrain(s, d, act);
    forall f | f in s'.flushes ensures Ordered(s', s'.flushes[f]) {
      assert Ordered(s, s.flushes[f]);
    }
  }

  lemma {:induction false} TimelyRunKeepsOrder(run: seq<State>, steps: seq<Step>, k: nat)
    requires TimelyRun(run, steps) && k < |run|
    ensures Order(run[k])
  {
    if k > 0 {
      var s, step := run[k - 1], steps[k - 1];
      RunKeepsInv(run, steps, k - 1);
      TimelyRunKeepsOrder(run, steps, k - 1);
      assert Timely(s, step);
      match step
      case OnRequest(r, act) =>
        if act.Start? { StartKeepsOrder(s, r, act); }
        else if act.Panic? || act.Write? { WriteKeepsOrder(s, r, act); }
        else { LeaveKeepsOrder(s, r, act); }
      case OnFlush(f, act) => if act.Arrive? { ArriveKeepsOrder(s, f, act); } else { FlushKeepsOrder(s, f, act); }
      case OnDrain(d, act) => DrainKeepsOrder(s, d, act);
    }
  }
}
