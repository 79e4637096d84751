/** The fid state and the fid table as the server keeps them (server/fid.go). */
module FidObjects {
  import opened Common
  import M = FidMachine

  type Node = M.Node
  type Handle = M.Handle
  type Status = M.Status

  datatype AddError = LimitExceeded | InUse

  /** What one releaseNow did. */
  datatype Release = Release(handle: Option<Handle>, node: Option<Node>)

  class FidState {
    var node: Node
    var status: Status
    var handle: Option<Handle>
    var ioRefs: int
    var closing: bool
    var closeNode: bool
    ghost var releases: seq<Release>

    /** Torn down exactly once, exactly when clunked and idle. */
    ghost predicate Valid()
      reads this
    {
      && ioRefs >= 0
      && (M.TearsDown(closing, ioRefs) ==> releases == [Release(handle, if closeNode then Some(node) else None)])
      && (!M.TearsDown(closing, ioRefs) ==> releases == [])
    }

    /** The I/O count and the teardown are as they were. */
    twostate predicate IoKept()
      reads this
    {
      unchanged(`ioRefs, `closing, `closeNode, `releases)
    }

    constructor (node: Node, status: Status)
      ensures Valid() && this.node == node && this.status == status
      ensures handle == None && ioRefs == 0 && !closing && releases == []
    {
      this.node, this.status := node, status;
      handle, ioRefs, closing, closeNode, releases := None, 0, false, false, [];
    }

    method BeginIO() returns (ok: bool)
      requires Valid()
      modifies this
      ensures Valid()
      ensures ok == !old(closing)
      ensures ok ==> ioRefs == old(ioRefs) + 1 && releases == []
      ensures !ok ==> ioRefs == old(ioRefs)
      ensures unchanged(`node, `status, `handle, `closing, `closeNode, `releases)
    {
      if closing {
        return false;
      }
      ioRefs := ioRefs + 1;
      return true;
    }

    /** The last I/O call on a clunked fid, and no other, releases. */
    method EndIO()
      requires Valid() && ioRefs > 0
      modifies this
      ensures Valid() && ioRefs == old(ioRefs) - 1
      ensures |releases| == if old(closing) && old(ioRefs) == 1 then 1 else 0
      ensures unchanged(`node, `status, `handle, `closing, `closeNode)
    {
      ioRefs := ioRefs - 1;
      if M.TearsDown(closing, ioRefs) {
        ReleaseNow(closeNode);
      }
    }

    method ReleaseNow(close: bool)
      modifies `releases
      ensures releases == old(releases) + [Release(handle, if close then Some(node) else None)]
    {
      releases := releases + [Release(handle, if close then Some(node) else None)];
    }

    /** A clunk releases at once when the fid is idle, and leaves it to the last I/O call otherwise. */
    method FinishClunk(close: bool)
      requires Valid() && !closing
      modifies this
      ensures Valid() && closing && closeNode == close
      ensures |releases| == if old(ioRefs) == 0 then 1 else 0
      ensures unchanged(`node, `status, `handle, `ioRefs)
    {
      closing, closeNode := true, close;
      if ioRefs == 0 {
        ReleaseNow(close);
      }
    }
  }

  class FidTable {
    var fids: map<nat, FidState>

    ghost predicate Valid()
      reads this, fids.Values
    {
      && (forall f :: f in fids ==> fids[f].Valid() && !fids[f].closing)
      && (forall f, g :: f in fids && g in fids && f != g ==> fids[f] != fids[g])
    }

    constructor ()
      ensures Valid() && fids == map[]
    {
      fids := map[];
    }

    method Get(fid: nat) returns (r: Option<FidState>)
      ensures r == if fid in fids then Some(fids[fid]) else None
    {
      r := if fid in fids then Some(fids[fid]) else None;
    }

    /** The limit is checked before the duplicate, and only then is the fid bound. */
    method Add(fid: nat, fs: FidState, maxFids: int) returns (r: Option<AddError>)
      requires Valid() && fs.Valid() && !fs.closing && fs !in fids.Values
      modifies `fids
      ensures Valid()
      ensures r == Some(LimitExceeded) <==> maxFids > 0 && |old(fids)| >= maxFids
      ensures r == Some(InUse) <==> fid in old(fids) && !(maxFids > 0 && |old(fids)| >= maxFids)
      ensures fids == if r.None? then old(fids)[fid := fs] else old(fids)
      ensures maxFids > 0 && |old(fids)| <= maxFids ==> |fids| <= maxFids
    {
      if maxFids > 0 && |fids| >= maxFids {
        return Some(LimitExceeded);
      }
      if fid in fids {
        return Some(InUse);
      }
      ghost var before := fids;
      fids := fids[fid := fs];
      assert fids.Keys == before.Keys + {fid};
      assert |fids.Keys| == |before.Keys| + 1;
      return None;
    }

    /** A fid is handed to one clunk only, and that clunk finds it not yet closing. */
    method Clunk(fid: nat) returns (r: Option<FidState>)
      requires Valid()
      modifies `fids
      ensures Valid() && fids == old(fids) - {fid}
      ensures r == if fid in old(fids) then Some(old(fids)[fid]) else None
      ensures r.Some? ==> r.value !in fids.Values && r.value.Valid() && !r.value.closing
    {
      if fid !in fids {
        assert fids == fids - {fid};
        return None;
      }
      r := Some(fids[fid]);
      fids := fids - {fid};
    }

    /** Each fid state is handed over once, not yet closing, and the table starts afresh. */
    method ClunkAll() returns (states: seq<FidState>)
      requires Valid()
      modifies `fids
      ensures Valid() && fids == map[]
      ensures |states| == |old(fids)|
      ensures forall fs :: fs in states <==> fs in old(fids).Values
      ensures forall i, j :: 0 <= i < j < |states| ==> states[i] != states[j]
      ensures forall fs :: fs in states ==> fs.Valid() && !fs.closing
    {
      var before := fids;
      fids := map[];
      states := [];
      var todo := before.Keys;
      while todo != {}
        invariant todo <= before.Keys && |states| + |todo| == |before|
        invariant forall fs :: fs in states <==> exists f :: f in before && f !in todo && before[f] == fs
        invariant forall i, j :: 0 <= i < j < |states| ==> states[i] != states[j]
        decreases todo
      {
        var fid :| fid in todo;
        assert before[fid] !in states;
        states := states + [before[fid]];
        todo := todo - {fid};
      }
    }

    /** The node an in-place walk displaces comes from the same critical section as the swap. */
    method Update(fid: nat, node: Node) returns (prev: Option<Node>)
      requires Valid()
      modifies fids.Values
      ensures Valid() && unchanged(`fids)
      ensures prev == if fid in fids then Some(old(fids[fid].node)) else None
      ensures prev.Some? ==>
                && fids[fid].node == node && fids[fid].status == old(fids[fid].status)
                && fids[fid].handle == old(fids[fid].handle) && fids[fid].IoKept()
      ensures forall g :: g in fids && (g != fid || prev.None?) ==> unchanged(fids[g])
    {
      if fid !in fids {
        return None;
      }
      prev := Some(fids[fid].node);
      fids[fid].node := node;
    }

    /** Of the opens racing on a fid, the first stores its handle and the rest are told to release theirs. */
    method MarkOpenedWithHandle(fid: nat, h: Option<Handle>) returns (ok: bool)
      requires Valid()
      modifies fids.Values
      ensures Valid() && unchanged(`fids)
      ensures ok <==> fid in fids && old(fids[fid].status) == M.Allocated
      ensures ok ==> fids[fid].status == M.Opened && fids[fid].handle == h && fids[fid].node == old(fids[fid].node)
      ensures ok ==> fids[fid].IoKept()
      ensures forall g :: g in fids && (g != fid || !ok) ==> unchanged(fids[g])
    {
      if fid !in fids || fids[fid].status != M.Allocated {
        return false;
      }
      fids[fid].status := M.Opened;
      fids[fid].handle := h;
      return true;
    }

    /** A create swaps the node, opens the fid and stores the handle together, or does nothing. */
    method UpdateAndOpen(fid: nat, node: Node, h: Option<Handle>) returns (prev: Option<Node>)
      requires Valid()
      modifies fids.Values
      ensures Valid() && unchanged(`fids)
      ensures prev.Some? <==> fid in fids && old(fids[fid].status) == M.Allocated
      ensures prev.Some? ==>
                && prev.value == old(fids[fid].node) && fids[fid].node == node
                && fids[fid].status == M.Opened && fids[fid].handle == h && fids[fid].IoKept()
      ensures forall g :: g in fids && (g != fid || prev.None?) ==> unchanged(fids[g])
    {
      if fid !in fids || fids[fid].status != M.Allocated {
        return None;
      }
      prev := Some(fids[fid].node);
      fids[fid].node := node;
      fids[fid].status := M.Opened;
      fids[fid].handle := h;
    }
  }

  // ---------------------------------------------------------------- the life of an open fid

  /** An open, then the clunk of the idle fid: the handle is released, once, by the clunk. */
  method OpenThenClunk(table: FidTable, fid: nat, h: Option<Handle>, close: bool) returns (fs: FidState)
    requires table.Valid() && fid in table.fids && table.fids[fid].status == M.Allocated && table.fids[fid].ioRefs == 0
    modifies table, table.fids.Values
    ensures table.Valid() && fs == old(table.fids[fid]) && table.fids == old(table.fids) - {fid}
    ensures fs.releases == [Release(h, if close then Some(old(table.fids[fid].node)) else None)]
  {
    var ok := table.MarkOpenedWithHandle(fid, h);
    var taken := table.Clunk(fid);
    fs := taken.value;
    fs.FinishClunk(close);
  }

  /** The same with a read or write under way: the clunk leaves the handle alone, and the end of the I/O releases it. */
  method ClunkDuringIO(table: FidTable, fid: nat, close: bool) returns (fs: FidState, began: bool)
    requires table.Valid() && fid in table.fids && table.fids[fid].ioRefs == 0
    modifies table, table.fids.Values
    ensures table.Valid() && began && fs == old(table.fids[fid])
    ensures fs.releases ==
            [Release(old(table.fids[fid].handle), if close then Some(old(table.fids[fid].node)) else None)]
  {
    fs := table.fids[fid];
    began := fs.BeginIO();
    var taken := table.Clunk(fid);
    fs.FinishClunk(close);
    assert fs.releases == [];
    fs.EndIO();
  }
}
