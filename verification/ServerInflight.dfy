/**
 The table of in-flight requests a server connection keeps (server/flush.go).

 `Table` is the table as a value, with one function per critical section; `InflightMap` is the
 object itself, each of whose methods is proved against the function of the same name. The
 functions are what the flush protocol of module FlushProtocol takes its steps with.

 Channels are numbered in the order they are made, and `closed` records which have been
 closed. Closing a closed channel is a run-time panic in Go; here it sets `panicked`.
 */
module ServerInflight {
  import opened Common

  type Tag = nat
  type Ctx = nat
  type Chan = nat

  /** The nil *requestCtx, which the zero value of an entry holds. */
  const NIL: Ctx := 0

  datatype Entry = Entry(rctx: Ctx, done: Option<Chan>, committed: bool)

  datatype Table = Table(
    entries: map<Tag, Entry>,
    count: int,
    drained: Option<Chan>,
    made: nat,
    closed: set<Chan>,
    panicked: bool,
    cancelled: set<Ctx>)
  {
    function Close(ch: Option<Chan>): Table {
      match ch
      case None => this
      case Some(c) => this.(closed := closed + {c}, panicked := panicked || c in closed)
    }

    /** The entry a Go map read yields: the zero value when the tag is absent. */
    function Get(tag: Tag): Entry {
      if tag in entries then entries[tag] else Entry(NIL, None, false)
    }

    predicate Startable(tag: Tag) {
      tag in entries ==> entries[tag].committed
    }

    function Start(tag: Tag, rctx: Ctx): Table {
      if tag !in entries then
        this.(entries := entries[tag := Entry(rctx, None, false)], count := count + 1)
      else if !entries[tag].committed then
        this
      else
        Close(entries[tag].done).(entries := entries[tag := Entry(rctx, None, false)])
    }

    /** Drops one request from the count and wakes the drain waiters at zero. */
    function Lower(): Table {
      var t := this.(count := count - 1);
      if t.count == 0 then t.Close(drained).(drained := None) else t
    }

    function Remove(tag: Tag): Table {
      this.(entries := entries - {tag}).Lower()
    }

    function Commit(tag: Tag): Table {
      this.(entries := entries[tag := Get(tag).(committed := true)])
    }

    /** Whether completeCommit still finds the request that committed. */
    predicate StillHolds(tag: Tag, rctx: Ctx) {
      tag in entries && entries[tag].rctx == rctx
    }

    function CompleteCommit(tag: Tag, rctx: Ctx): Table {
      if StillHolds(tag, rctx) then Remove(tag) else this
    }

    /** The channel completeCommit leaves for its caller to close. */
    function CompletedDone(tag: Tag, rctx: Ctx): Option<Chan> {
      if StillHolds(tag, rctx) then entries[tag].done else None
    }

    function DrainChan(): Table {
      if count == 0 || drained.Some? then this else this.(drained := Some(made), made := made + 1)
    }

    function FlushWait(tag: Tag): Table {
      if tag !in entries then
        this
      else
        var e := entries[tag];
        var t := this.(cancelled := cancelled + {e.rctx});
        if e.done.Some? then t
        else t.(entries := entries[tag := e.(done := Some(made))], made := made + 1)
    }

    function CancelAll(): Table {
      this.(cancelled := cancelled + set tag | tag in entries :: entries[tag].rctx)
    }

    predicate Open(ch: Chan) {
      ch < made && ch !in closed
    }

    /**
     What holds of the table between critical sections: the count is the number of entries, every
     channel it still refers to has been made and is open, no two entries share one, and the drain
     channel exists only while something is in flight.
     */
    ghost predicate Valid() {
      && count == |entries|
      && !panicked
      && (forall ch :: ch in closed ==> ch < made)
      && (forall tag :: tag in entries && entries[tag].done.Some? ==> Open(entries[tag].done.value))
      && (forall a, b :: a in entries && b in entries && a != b && entries[a].done.Some? ==>
                           entries[a].done != entries[b].done)
      && (drained.Some? ==>
            && count > 0
            && Open(drained.value)
            && forall tag :: tag in entries ==> entries[tag].done != drained)
    }
  }

  const EMPTY := Table(map[], 0, None, 0, {}, false, {})

  lemma RemoveSize<K, V>(m: map<K, V>, k: K)
    requires k in m
    ensures |m - {k}| == |m| - 1
  {
    assert (m - {k}).Keys == m.Keys - {k};
  }

  lemma UpdateSize<K, V>(m: map<K, V>, k: K, v: V)
    ensures |m[k := v]| == if k in m then |m| else |m| + 1
  {
    assert m[k := v].Keys == m.Keys + {k};
  }

  /** The in-flight map of one connection. Each method is one critical section of its mutex. */
  class InflightMap {
    var entries: map<Tag, Entry>
    var count: int
    var drained: Option<Chan>
    // The channels and request contexts the map refers to.
    var made: nat
    var closed: set<Chan>
    var panicked: bool
    var cancelled: set<Ctx>

    function View(): Table
      reads this
    {
      Table(entries, count, drained, made, closed, panicked, cancelled)
    }

    constructor ()
      ensures View() == EMPTY && View().Valid()
    {
      entries, count, drained := map[], 0, None;
      made, closed, panicked, cancelled := 0, {}, false, {};
    }

    method CloseChan(ch: Chan)
      modifies this
      ensures View() == old(View()).Close(Some(ch))
    {
      panicked := panicked || ch in closed;
      closed := closed + {ch};
    }

    /** Registers a request; refuses a tag whose request has not begun its response. */
    method Start(tag: Tag, rctx: Ctx) returns (ok: bool)
      requires View().Valid()
      modifies this
      ensures View() == old(View()).Start(tag, rctx)
      ensures ok == old(View()).Startable(tag)
      ensures View().Valid()
    {
      UpdateSize(entries, tag, Entry(rctx, None, false));
      if tag in entries {
        var entry := entries[tag];
        if !entry.committed {
          return false;
        }
        if entry.done.Some? {
          CloseChan(entry.done.value);
        }
        entries := entries[tag := Entry(rctx, None, false)];
        return true;
      }
      entries := entries[tag := Entry(rctx, None, false)];
      count := count + 1;
      return true;
    }

    /** Drops a registered tag; the caller closes the returned channel. */
    method Remove(tag: Tag) returns (done: Option<Chan>)
      requires View().Valid()
      requires tag in entries
      modifies this
      ensures View() == old(View()).Remove(tag)
      ensures done == old(entries[tag].done)
      ensures View().Valid() && (done.Some? ==> View().Open(done.value))
    {
      RemoveSize(entries, tag);
      done := entries[tag].done;
      entries := entries - {tag};
      count := count - 1;
      if count == 0 && drained.Some? {
        CloseChan(drained.value);
        drained := None;
      }
    }

    method Finish(tag: Tag)
      requires View().Valid()
      requires tag in entries
      modifies this
      ensures View() == old(View()).Remove(tag).Close(old(entries[tag].done))
      ensures View().Valid()
    {
      var done := Remove(tag);
      if done.Some? {
        CloseChan(done.value);
      }
    }

    method Commit(tag: Tag)
      requires View().Valid()
      requires tag in entries
      modifies this
      ensures View() == old(View()).Commit(tag)
      ensures View().Valid()
    {
      UpdateSize(entries, tag, entries[tag].(committed := true));
      var entry := entries[tag];
      entry := entry.(committed := true);
      entries := entries[tag := entry];
    }

    /** Ends a committed request unless a reused tag has taken its entry over. */
    method CompleteCommit(tag: Tag, rctx: Ctx) returns (done: Option<Chan>)
      requires View().Valid()
      modifies this
      ensures View() == old(View()).CompleteCommit(tag, rctx)
      ensures done == old(View()).CompletedDone(tag, rctx)
      ensures View().Valid() && (done.Some? ==> View().Open(done.value))
    {
      if tag !in entries || entries[tag].rctx != rctx {
        return None;
      }
      done := Remove(tag);
    }

    method DrainChan() returns (ch: Option<Chan>)
      requires View().Valid()
      modifies this
      ensures View() == old(View()).DrainChan()
      ensures ch == if count == 0 then None else drained
      ensures View().Valid() && (ch.Some? ==> View().Open(ch.value))
    {
      if count == 0 {
        return None;
      }
      if drained.None? {
        drained := Some(made);
        made := made + 1;
      }
      return drained;
    }

    /** Cancels a request and returns the channel that its end will close. */
    method FlushWait(tag: Tag) returns (done: Option<Chan>)
      requires View().Valid()
      modifies this
      ensures View() == old(View()).FlushWait(tag)
      ensures done == View().Get(tag).done
      ensures View().Valid() && (done.Some? <==> tag in entries) && (done.Some? ==> View().Open(done.value))
    {
      if tag !in entries {
        return None;
      }
      var entry := entries[tag];
      cancelled := cancelled + {entry.rctx};
      if entry.done.None? {
        UpdateSize(entries, tag, entry.(done := Some(made)));
        entry := entry.(done := Some(made));
        made := made + 1;
        entries := entries[tag := entry];
      }
      return entry.done;
    }

    /** Every registered request is told to stop, nobody else is, and all stay registered. */
    method CancelAll()
      modifies this
      ensures View() == old(View()).CancelAll()
      ensures forall tag :: tag in entries ==> entries[tag].rctx in cancelled
      ensures forall c :: c in cancelled && c !in old(cancelled) ==>
                exists tag :: tag in entries && entries[tag].rctx == c
      ensures old(cancelled) <= cancelled
      ensures unchanged(`entries, `count, `drained, `made, `closed, `panicked)
    {
      var todo := entries.Keys;
      while todo != {}
        invariant todo <= entries.Keys && entries == old(entries)
        invariant View() == old(View()).(cancelled :=
          old(cancelled) + set tag | tag in entries && tag !in todo :: entries[tag].rctx)
        decreases todo
      {
        var tag :| tag in todo;
        cancelled := cancelled + {entries[tag].rctx};
        todo := todo - {tag};
      }
    }
  }
}
