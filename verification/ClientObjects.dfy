/**
 The three shared objects of a client connection as objects: the tag free list (client/tags.go),
 the in-flight map (client/inflight.go) and the fid allocator (client/fidalloc.go). Each method is
 one channel operation or one critical section.
 */
module ClientObjects {
  import opened Common
  import opened ClientMux

  // ---------------------------------------------------------------- tags

  predicate Distinct<T(==)>(s: seq<T>) {
    forall i, j :: 0 <= i < j < |s| ==> s[i] != s[j]
  }

  lemma {:induction false} DistinctSize<T>(s: seq<T>)
    requires Distinct(s)
    ensures |set x | x in s| == |s|
  {
    if s != [] {
      DistinctSize(s[1..]);
      assert (set x | x in s) == (set x | x in s[1..]) + {s[0]};
    }
  }

  lemma {:induction false} TagsSize(n: nat)
    ensures |Tags(n)| == n
  {
    if n > 0 {
      TagsSize(n - 1);
    }
  }

  /** A buffered channel of capacity n, first in first out. */
  class TagAllocator {
    const n: nat
    var free: seq<Tag>

    ghost predicate Valid()
      reads this
    {
      Distinct(free) && forall t :: t in free ==> t in Tags(n)
    }

    /** The free list as the multiplexer sees it. */
    ghost function Free(): set<Tag>
      reads this
    {
      set t | t in free
    }

    constructor (n: nat)
      ensures this.n == n && Valid() && Free() == Tags(n)
    {
      this.n := n;
      free := [];
      new;
      for i := 1 to n + 1
        invariant |free| == i - 1 && forall k :: 0 <= k < |free| ==> free[k] == k + 1
      {
        free := free + [i];
      }
      forall t | t in Tags(n) ensures t in free {
        assert free[t - 1] == t;
      }
    }

    /** The ready arm of acquire; None when the list is empty and acquire would block. */
    method Acquire() returns (tag: Option<Tag>)
      requires Valid()
      modifies this
      ensures Valid()
      ensures tag.None? <==> old(Free()) == {}
      ensures tag.None? ==> Free() == old(Free())
      ensures tag.Some? ==> tag.value in old(Free()) && Free() == old(Free()) - {tag.value}
    {
      if free == [] {
        return None;
      }
      assert free[0] in old(Free());
      tag := Some(free[0]);
      free := free[1..];
    }

    /** A tag held by its caller always finds room: the drop branch is never taken. */
    method Release(tag: Tag)
      requires Valid() && tag in Tags(n) && tag !in Free()
      modifies this
      ensures Valid() && Free() == old(Free()) + {tag}
    {
      DistinctSize(free);
      TagsSize(n);
      assert Free() <= Tags(n) - {tag};
      SubsetSize(Free(), Tags(n) - {tag});
      if |free| < n {
        free := free + [tag];
      }
    }
  }

  lemma {:induction false} SubsetSize<T>(a: set<T>, b: set<T>)
    requires a <= b
    ensures |a| <= |b|
  {
    if a != {} {
      var x :| x in a;
      SubsetSize(a - {x}, b - {x});
    }
  }

  // ---------------------------------------------------------------- in-flight map

  /** A response channel: room for one message. Sending on it or closing it once closed would panic. */
  class Channel {
    var buf: Option<Slot>
    var closed: bool

    constructor ()
      ensures buf == None && !closed
    {
      buf, closed := None, false;
    }

    /** A send that does not wait for room. */
    method TrySend(x: Slot) returns (sent: bool)
      requires !closed
      modifies this`buf
      ensures sent <==> old(buf).None?
      ensures buf == if sent then Some(x) else old(buf)
    {
      sent := buf.None?;
      if sent {
        buf := Some(x);
      }
    }

    method Close()
      requires !closed
      modifies this`closed
      ensures closed
    {
      closed := true;
    }
  }

  /** The map from tags to response channels. */
  class InflightMap {
    var entries: map<Tag, Channel>

    /** Each registered channel is open and registered once. */
    ghost predicate Valid()
      reads this, entries.Values
    {
      && (forall t :: t in entries ==> !entries[t].closed)
      && (forall s, t :: s in entries && t in entries && s != t ==> entries[s] != entries[t])
    }

    /** A frame for the tag would reach a caller. */
    ghost predicate Awaits(tag: Tag)
      reads this, entries.Values
    {
      tag in entries && entries[tag].buf.None?
    }

    constructor ()
      ensures Valid() && entries == map[]
    {
      entries := map[];
    }

    /** The tag awaits a frame on a channel of its own, and what the other tags await is as before. */
    method Register(tag: Tag) returns (ch: Channel)
      requires Valid()
      modifies this
      ensures Valid() && fresh(ch) && Awaits(tag) && entries[tag] == ch
      ensures entries.Keys == old(entries.Keys) + {tag}
      ensures forall t :: t in old(entries) && t != tag ==>
                entries[t] == old(entries[t]) && (Awaits(t) <==> old(Awaits(t)))
    {
      ch := new Channel();
      entries := entries[tag := ch];
    }

    /** From here on every frame for the tag is dropped; the channel and all other tags are as before. */
    method Unregister(tag: Tag)
      requires Valid()
      modifies this
      ensures Valid() && !Awaits(tag) && entries.Keys == old(entries.Keys) - {tag}
      ensures forall t :: t in entries ==> entries[t] == old(entries[t]) && (Awaits(t) <==> old(Awaits(t)))
    {
      entries := entries - {tag};
    }

    /** A frame reaches the channel of its own tag if that tag awaits one, and no channel otherwise. */
    method Deliver(tag: Tag, x: Slot) returns (sent: bool)
      requires Valid()
      modifies set t | t in entries :: entries[t]`buf
      ensures Valid() && (sent <==> old(Awaits(tag))) && !Awaits(tag)
      ensures sent ==> entries[tag].buf == Some(x)
      ensures forall t :: t in entries && (t != tag || !sent) ==> unchanged(entries[t])
    {
      if tag !in entries {
        return false;
      }
      sent := entries[tag].TrySend(x);
    }

    /** Every registered channel is closed, none twice, with the message it holds; the map is empty. */
    method CancelAll()
      requires Valid()
      modifies this, set t | t in entries :: entries[t]`closed
      ensures Valid() && entries == map[]
      ensures forall t :: t in old(entries) ==> old(entries)[t].closed
    {
      var todo := entries.Keys;
      while todo != {}
        invariant todo <= entries.Keys && entries == old(entries)
        invariant forall t :: t in entries ==> (entries[t].closed <==> t !in todo)
        decreases todo
      {
        var tag :| tag in todo;
        entries[tag].Close();
        todo := todo - {tag};
      }
      entries := map[];
    }
  }

  // ---------------------------------------------------------------- fids

  type Fid = nat

  const FID_START: Fid := 1
  const REUSE_CACHE_SIZE := 1024

  datatype Fids = Fids(next: Fid, reuse: seq<Fid>) {
    ghost predicate Valid() {
      && FID_START <= next <= NO_FID
      && Distinct(reuse)
      && |reuse| <= REUSE_CACHE_SIZE
      && forall i :: 0 <= i < |reuse| ==> FID_START <= reuse[i] < next
    }

    predicate Exhausted() { reuse == [] && next >= NO_FID }

    function Acquire(): (Fids, Fid)
      requires !Exhausted()
    {
      if reuse != [] then
        (this.(reuse := reuse[..|reuse| - 1]), reuse[|reuse| - 1])
      else
        (this.(next := next + 1), next)
    }

    function Release(fid: Fid): Fids {
      if |reuse| < REUSE_CACHE_SIZE then this.(reuse := reuse + [fid]) else this
    }
  }

  class FidAllocator {
    var next: Fid
    var reuse: seq<Fid>

    function View(): Fids
      reads this
    {
      Fids(next, reuse)
    }

    constructor ()
      ensures View() == Fids(FID_START, []) && View().Valid()
    {
      next, reuse := FID_START, [];
    }

    method Acquire() returns (fid: Option<Fid>)
      requires View().Valid()
      modifies this
      ensures View().Valid()
      ensures fid.None? <==> old(View()).Exhausted()
      ensures fid.None? ==> View() == old(View())
      ensures fid.Some? ==> (View(), fid.value) == old(View()).Acquire()
      ensures fid.Some? ==>
                if old(reuse) != [] then fid.value in old(reuse) && next == old(next) else fid.value == old(next)
      ensures fid.Some? ==> FID_START <= fid.value < NO_FID && fid.value < next && fid.value !in reuse
    {
      var n := |reuse|;
      if n > 0 {
        var f := reuse[n - 1];
        reuse := reuse[..n - 1];
        return Some(f);
      }
      if next >= NO_FID {
        return None;
      }
      var f := next;
      next := next + 1;
      return Some(f);
    }

    method Release(fid: Fid)
      requires View().Valid() && FID_START <= fid < next && fid !in reuse
      modifies this
      ensures View() == old(View()).Release(fid) && View().Valid()
      ensures next == old(next) && (fid in reuse <==> |old(reuse)| < REUSE_CACHE_SIZE)
      ensures forall f :: f in old(reuse) ==> f in reuse
    {
      if |reuse| < REUSE_CACHE_SIZE {
        reuse := reuse + [fid];
      }
    }
  }

  /** How a cleanup Tclunk ended. */
  datatype Reply = Rclunk | ServerError | ConnClosed | WrongType | Unanswered

  /** cleanupFid's test: which endings give the number back. */
  predicate GivesBack(reply: Reply) {
    reply.Rclunk? || reply.ServerError? || reply.ConnClosed?
  }

  datatype FidStep = Hand | Cleanup(fid: Fid, reply: Reply)

  datatype FidWorld = FidWorld(fids: Fids, held: set<Fid>, retired: set<Fid>)

  predicate FidEnabled(w: FidWorld, step: FidStep) {
    match step
    case Hand => !w.fids.Exhausted()
    case Cleanup(fid, _) => fid in w.held
  }

  function FidApply(w: FidWorld, step: FidStep): FidWorld
    requires FidEnabled(w, step)
  {
    match step
    case Hand =>
      var (fids, fid) := w.fids.Acquire();
      w.(fids := fids, held := w.held + {fid})
    case Cleanup(fid, reply) =>
      if GivesBack(reply) then
        w.(fids := w.fids.Release(fid), held := w.held - {fid})
      else
        w.(held := w.held - {fid}, retired := w.retired + {fid})
  }

  ghost predicate FidRun(run: seq<FidWorld>, steps: seq<FidStep>) {
    && |run| == |steps| + 1
    && run[0] == FidWorld(Fids(FID_START, []), {}, {})
    && forall i :: 0 <= i < |steps| ==> FidEnabled(run[i], steps[i]) && run[i + 1] == FidApply(run[i], steps[i])
  }

  ghost predicate FidInv(w: FidWorld) {
    && w.fids.Valid()
    && w.held !! w.retired
    && (forall f :: f in w.held || f in w.retired ==> FID_START <= f < w.fids.next && f !in w.fids.reuse)
  }

  lemma FidStepKeepsInv(w: FidWorld, step: FidStep)
    requires FidInv(w) && FidEnabled(w, step)
    ensures FidInv(FidApply(w, step))
  {
    if step.Hand? && w.fids.reuse != [] {
      assert w.fids.reuse[|w.fids.reuse| - 1] in w.fids.reuse;
    }
  }

  lemma {:induction false} FidRunKeepsInv(run: seq<FidWorld>, steps: seq<FidStep>, k: nat)
    requires FidRun(run, steps) && k < |run|
    ensures FidInv(run[k])
  {
    if k > 0 {
      FidRunKeepsInv(run, steps, k - 1);
      FidStepKeepsInv(run[k - 1], steps[k - 1]);
    }
  }

  lemma {:induction false} RetiredLasts(run: seq<FidWorld>, steps: seq<FidStep>, j: nat, k: nat)
    requires FidRun(run, steps) && j <= k < |run|
    ensures run[j].retired <= run[k].retired
  {
    if j < k {
      RetiredLasts(run, steps, j, k - 1);
    }
  }

  /**
   A fid handed out is a real fid number that nobody holds, and one whose cleanup Tclunk went
   unanswered on a live connection is never handed out again.
   */
  lemma FidsAreHandedOutOnce(run: seq<FidWorld>, steps: seq<FidStep>, j: nat, k: nat)
    requires FidRun(run, steps) && j <= k < |steps| && steps[k].Hand?
    ensures var fid := run[k].fids.Acquire().1;
            && FID_START <= fid < NO_FID
            && fid !in run[k].held
            && fid !in run[j].retired
    ensures steps[j].Cleanup? && steps[j].reply in {Unanswered, WrongType} ==> steps[j].fid in run[j + 1].retired
    ensures steps[j].Cleanup? && steps[j].reply in {Rclunk, ServerError, ConnClosed} ==>
              && steps[j].fid !in run[j + 1].held && run[j + 1].retired == run[j].retired
              && (|run[j].fids.reuse| < REUSE_CACHE_SIZE ==> run[j + 1].fids.Acquire().1 == steps[j].fid)
  {
    FidRunKeepsInv(run, steps, k);
    RetiredLasts(run, steps, j, k);
    var reuse := run[k].fids.reuse;
    assert reuse != [] ==> reuse[|reuse| - 1] in reuse;
  }
}
