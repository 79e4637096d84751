/**
 Twalk on the server: resolve names one at a time, bind the result or close what was looked up
 (server/dispatch.go).
 */
module Walk {
  import opened Common

  type Fid = nat
  type Node = nat
  type Qid = int

  datatype Errno = EBADF | EINVAL | ENOTDIR | EMFILE | Other(code: nat)

  datatype Twalk = Twalk(fid: Fid, newFid: Fid, names: seq<string>)

  datatype Reply = Failed(errno: Errno) | Walked(qids: seq<Qid>)

  /** The file system: which nodes are directories that can look names up, and what they find. */
  datatype Env = Env(dir: Node -> bool, lookuper: Node -> bool, qid: Node -> Qid,
                     lookup: (Node, string) -> Result<Node, Errno>)

  /** The connection: bound fids, reference counts, and the nodes closed so far in order. */
  datatype Conn = Conn(fids: map<Fid, Node>, refs: map<Node, int>, closed: seq<Node>)

  predicate ValidName(name: string) {
    name != "" && '/' !in name && '\0' !in name
  }

  predicate ValidNames(names: seq<string>) {
    forall i :: 0 <= i < |names| ==> ValidName(names[i])
  }

  function RefsOf(refs: map<Node, int>, n: Node): int { if n in refs then refs[n] else 0 }

  /** One element: the node must be a directory that can look up, and the lookup must succeed. */
  function Element(env: Env, at: Node, name: string): Result<Node, Errno> {
    if !env.dir(at) || !env.lookuper(at) then Err(ENOTDIR) else env.lookup(at, name)
  }

  /** The nodes found for the longest prefix of the names that resolves. */
  function Path(env: Env, at: Node, names: seq<string>): (path: seq<Node>)
    ensures |path| <= |names|
    decreases |names|
  {
    if names == [] then []
    else
      match Element(env, at, names[0])
      case Err(_) => []
      case Ok(child) => [child] + Path(env, child, names[1..])
  }

  function Qids(env: Env, path: seq<Node>): seq<Qid> {
    seq(|path|, i requires 0 <= i < |path| => env.qid(path[i]))
  }

  /** Closed while stepping: each node left behind, unless it is the start, the next node or in use. */
  function LeftBehind(refs: map<Node, int>, start: Node, path: seq<Node>): seq<Node> {
    if |path| < 2 then []
    else
      var n := path[|path| - 2];
      LeftBehind(refs, start, path[..|path| - 1])
      + if n != start && n != path[|path| - 1] && RefsOf(refs, n) == 0 then [n] else []
  }

  /** closeUnboundNode, guarded against the start. */
  function Unbound(refs: map<Node, int>, start: Node, n: Node): seq<Node> {
    if n != start && RefsOf(refs, n) == 0 then [n] else []
  }

  function Limited(fids: map<Fid, Node>, maxFids: int): bool { maxFids > 0 && |fids| >= maxFids }

  function Bound(c: Conn, fid: Fid, n: Node): Conn {
    c.(fids := c.fids[fid := n], refs := c.refs[n := RefsOf(c.refs, n) + 1])
  }

  /** fids.update and the reference transfer, the new node first. */
  function Rebound(c: Conn, fid: Fid, n: Node): Conn
    requires fid in c.fids
  {
    var up := c.refs[n := RefsOf(c.refs, n) + 1];
    c.(fids := c.fids[fid := n], refs := up[c.fids[fid] := RefsOf(up, c.fids[fid]) - 1])
  }

  /** fids.add: the limit is checked before the duplicate. */
  function AddError(fids: map<Fid, Node>, fid: Fid, maxFids: int): Option<Errno> {
    if Limited(fids, maxFids) then Some(EMFILE) else if fid in fids then Some(EBADF) else None
  }

  /** A complete walk binds the node it reached; any other, or one that cannot bind, closes it. */
  function EndResult(c: Conn, tw: Twalk, start: Node, last: Node, qids: seq<Qid>, maxFids: int): (Reply, Conn) {
    var dropped := c.(closed := c.closed + Unbound(c.refs, start, last));
    if |qids| < |tw.names| then (Walked(qids), dropped)
    else if tw.fid == tw.newFid then
      (Walked(qids), if tw.fid in c.fids then Rebound(c, tw.fid, last) else dropped)
    else
      match AddError(c.fids, tw.newFid, maxFids)
      case Some(e) => (Failed(e), dropped)
      case None => (Walked(qids), Bound(c, tw.newFid, last))
  }

  /** The whole reply and the connection after it; `fids` is the table when the walk comes to bind. */
  function WalkResult(env: Env, c: Conn, tw: Twalk, fids: map<Fid, Node>, maxFids: int): (Reply, Conn) {
    if tw.fid !in c.fids then (Failed(EBADF), c)
    else if tw.names == [] then
      var c1 := c.(fids := fids);
      if tw.fid == tw.newFid then (Walked([]), c1)
      else
        match AddError(fids, tw.newFid, maxFids)
        case Some(e) => (Failed(e), c1)
        case None => (Walked([]), Bound(c1, tw.newFid, c.fids[tw.fid]))
    else if !ValidNames(tw.names) then (Failed(EINVAL), c)
    else
      var start := c.fids[tw.fid];
      var path := Path(env, start, tw.names);
      if path == [] then (Failed(Element(env, start, tw.names[0]).error), c)
      else
        var c1 := c.(fids := fids, closed := c.closed + LeftBehind(c.refs, start, path));
        EndResult(c1, tw, start, path[|path| - 1], Qids(env, path), maxFids)
  }

  // ---------------------------------------------------------------- the handler

  lemma PathStep(env: Env, at: Node, names: seq<string>, path: seq<Node>)
    requires Leads(env, at, names, path) && |path| < |names|
    ensures Element(env, (([at] + path)[|path|]), names[|path|]).Ok? ==>
              Leads(env, at, names, path + [Element(env, ([at] + path)[|path|], names[|path|]).value])
  {}

  class Handler {
    var fids: map<Fid, Node>
    var refs: map<Node, int>
    var closed: seq<Node>
    const maxFids: int

    ghost function View(): Conn
      reads this
    {
      Conn(fids, refs, closed)
    }

    constructor (maxFids: int)
      ensures View() == Conn(map[], map[], []) && this.maxFids == maxFids
    {
      fids, refs, closed := map[], map[], [];
      this.maxFids := maxFids;
    }

    method CloseUnbound(n: Node)
      modifies `closed
      ensures closed == old(closed) + if RefsOf(refs, n) == 0 then [n] else []
    {
      if RefsOf(refs, n) == 0 {
        closed := closed + [n];
      }
    }

    /** The resolved node that ends up bound to no fid. */
    method CloseAbandoned(start: Node, n: Node)
      modifies `closed
      ensures closed == old(closed) + Unbound(refs, start, n)
    {
      if n != start {
        CloseUnbound(n);
      }
    }

    method Validate(names: seq<string>) returns (ok: bool)
      ensures ok == ValidNames(names)
    {
      for i := 0 to |names|
        invariant forall j :: 0 <= j < i ==> ValidName(names[j])
      {
        if !ValidName(names[i]) {
          return false;
        }
      }
      return true;
    }

    /** Steps through the names, closing each unreferenced node it leaves behind. */
    method Resolve(env: Env, start: Node, names: seq<string>)
      returns (qids: seq<Qid>, current: Node, err: Errno, ghost path: seq<Node>)
      requires names != []
      modifies `closed
      ensures path == Path(env, start, names) && qids == Qids(env, path)
      ensures closed == old(closed) + LeftBehind(refs, start, path)
      ensures current == ([start] + path)[|path|]
      ensures path == [] ==> Element(env, start, names[0]) == Err(err)
    {
      current, qids, err, path := start, [], ENOTDIR, [];
      var i := 0;
      while i < |names|
        invariant 0 <= i <= |names| && |path| == i
        invariant Leads(env, start, names, path) && qids == Qids(env, path)
        invariant current == ([start] + path)[i]
        invariant closed == old(closed) + LeftBehind(refs, start, path)
      {
        if !env.dir(current) {
          break;
        }
        if !env.lookuper(current) {
          break;
        }
        var r := env.lookup(current, names[i]);
        if r.Err? {
          err := r.error;
          break;
        }
        var child := r.value;
        PathStep(env, start, names, path);
        qids := qids + [env.qid(child)];
        if current != start && current != child {
          CloseUnbound(current);
        }
        LeftBehindStep(refs, start, path, child);
        path := path + [child];
        current := child;
        i := i + 1;
      }
      LongestIsPath(env, start, names, path);
    }

    /** `later` is the fid table other handlers have left by the time this one binds. */
    method HandleWalk(env: Env, tw: Twalk, later: map<Fid, Node>) returns (reply: Reply)
      modifies this
      ensures (reply, View()) == WalkResult(env, old(View()), tw, later, maxFids)
    {
      if tw.fid !in fids {
        return Failed(EBADF);
      }
      var start := fids[tw.fid];
      if tw.names == [] {
        fids := later;
        if tw.fid == tw.newFid {
          return Walked([]);
        }
        var e := Add(tw.newFid, start);
        return if e.Some? then Failed(e.value) else Walked([]);
      }
      var ok := Validate(tw.names);
      if !ok {
        return Failed(EINVAL);
      }
      var qids, current, err, path := Resolve(env, start, tw.names);
      if |qids| == 0 {
        assert closed == old(closed);
        return Failed(err);
      }
      fids := later;
      reply := EndWalk(tw, start, current, qids);
    }

    method EndWalk(tw: Twalk, start: Node, current: Node, qids: seq<Qid>) returns (reply: Reply)
      requires |qids| <= |tw.names|
      modifies this
      ensures (reply, View()) == EndResult(old(View()), tw, start, current, qids, maxFids)
    {
      if |qids| == |tw.names| {
        if tw.fid == tw.newFid {
          if tw.fid in fids {
            var prev := fids[tw.fid];
            fids := fids[tw.fid := current];
            refs := refs[current := RefsOf(refs, current) + 1];
            refs := refs[prev := RefsOf(refs, prev) - 1];
          } else {
            CloseAbandoned(start, current);
          }
        } else {
          var e := Add(tw.newFid, current);
          if e.Some? {
            CloseAbandoned(start, current);
            return Failed(e.value);
          }
        }
      } else {
        CloseAbandoned(start, current);
      }
      return Walked(qids);
    }

    method Add(fid: Fid, n: Node) returns (e: Option<Errno>)
      modifies `fids, `refs
      ensures e == AddError(old(fids), fid, maxFids)
      ensures View() == if e.None? then Bound(old(View()), fid, n) else old(View())
    {
      if maxFids > 0 && |fids| >= maxFids {
        return Some(EMFILE);
      }
      if fid in fids {
        return Some(EBADF);
      }
      fids := fids[fid := n];
      refs := refs[n := RefsOf(refs, n) + 1];
      return None;
    }
  }

  // ---------------------------------------------------------------- what Path means

  /** Each node of the path is what looking its name up in the node before finds. */
  ghost predicate Leads(env: Env, start: Node, names: seq<string>, path: seq<Node>) {
    && |path| <= |names|
    && forall i :: 0 <= i < |path| ==> Element(env, ([start] + path)[i], names[i]) == Ok(path[i])
  }

  /** The node is a directory that can look names up, and finds this child. */
  ghost predicate Finds(env: Env, at: Node, name: string, child: Node) {
    env.dir(at) && env.lookuper(at) && env.lookup(at, name) == Ok(child)
  }

  /** Path leads from the start, and cannot be extended. */
  lemma {:induction false} PathLeads(env: Env, start: Node, names: seq<string>)
    ensures var path := Path(env, start, names);
            && Leads(env, start, names, path)
            && (forall i :: 0 <= i < |path| ==> Finds(env, ([start] + path)[i], names[i], path[i]))
            && (|path| < |names| ==> forall child :: !Finds(env, ([start] + path)[|path|], names[|path|], child))
            && (|path| < |names| ==> Element(env, ([start] + path)[|path|], names[|path|]).Err?)
    decreases |names|
  {
    if names != [] && Element(env, start, names[0]).Ok? {
      var child := Element(env, start, names[0]).value;
      var rest := Path(env, child, names[1..]);
      PathLeads(env, child, names[1..]);
      assert Path(env, start, names) == [child] + rest;
      forall i | 0 <= i < |rest| + 1
        ensures Element(env, ([start] + ([child] + rest))[i], names[i]) == Ok(([child] + rest)[i])
      {
        if i > 0 {
          assert names[i] == names[1..][i - 1] && ([start] + ([child] + rest))[i] == ([child] + rest)[i - 1];
        }
      }
    }
  }

  /** Every other path that leads from the start is a prefix of it. */
  lemma {:induction false} LeadsIsPrefix(env: Env, start: Node, names: seq<string>, path: seq<Node>)
    requires Leads(env, start, names, path)
    ensures path <= Path(env, start, names)
    decreases |path|
  {
    if path != [] {
      var child := path[0];
      assert Element(env, start, names[0]) == Ok(child);
      forall i | 0 <= i < |path| - 1
        ensures Element(env, ([child] + path[1..])[i], names[1..][i]) == Ok(path[1..][i])
      {
        assert ([child] + path[1..])[i] == ([start] + path)[i + 1];
        assert Element(env, ([start] + path)[i + 1], names[i + 1]) == Ok(path[i + 1]);
      }
      LeadsIsPrefix(env, child, names[1..], path[1..]);
      assert path == [child] + path[1..];
    }
  }

  lemma LongestIsPath(env: Env, start: Node, names: seq<string>, path: seq<Node>)
    requires Leads(env, start, names, path)
    requires |path| < |names| ==> Element(env, ([start] + path)[|path|], names[|path|]).Err?
    ensures path == Path(env, start, names)
  {
    LeadsIsPrefix(env, start, names, path);
    PathLeads(env, start, names);
  }

  lemma LeftBehindStep(refs: map<Node, int>, start: Node, path: seq<Node>, child: Node)
    ensures var n := ([start] + path)[|path|];
            LeftBehind(refs, start, path + [child])
            == LeftBehind(refs, start, path) + if n != start && n != child && RefsOf(refs, n) == 0 then [n] else []
  {
    assert (path + [child])[..|path|] == path;
  }

  // ---------------------------------------------------------------- what a walk promises

  /** Lookup made every node of the path for this walk: new, distinct and referenced by no fid. */
  ghost predicate AllFresh(refs: map<Node, int>, start: Node, path: seq<Node>) {
    && start !in path
    && (forall i :: 0 <= i < |path| ==> RefsOf(refs, path[i]) == 0)
    && (forall i, j :: 0 <= i < j < |path| ==> path[i] != path[j])
  }

  lemma {:induction false} FreshLeftBehind(refs: map<Node, int>, start: Node, path: seq<Node>)
    requires AllFresh(refs, start, path) && path != []
    ensures LeftBehind(refs, start, path) == path[..|path| - 1]
    decreases |path|
  {
    if |path| > 1 {
      var most := path[..|path| - 1];
      FreshLeftBehind(refs, start, most);
      assert path[..|path| - 1] == most[..|most| - 1] + [path[|path| - 2]];
    }
  }

  /** With fresh nodes, those left behind and the one reached are the whole path. */
  lemma FreshCloses(refs: map<Node, int>, start: Node, path: seq<Node>)
    requires AllFresh(refs, start, path)
    ensures path != [] ==>
              && LeftBehind(refs, start, path) + [] == path[..|path| - 1]
              && LeftBehind(refs, start, path) + Unbound(refs, start, path[|path| - 1]) == path
    ensures path == [] ==> LeftBehind(refs, start, path) + [] == path
  {
    if path != [] {
      FreshLeftBehind(refs, start, path);
      assert Unbound(refs, start, path[|path| - 1]) == [path[|path| - 1]];
    }
  }

  /** The request resolves its fid, has names, all of them well formed. */
  predicate Resolving(c: Conn, tw: Twalk) { tw.fid in c.fids && tw.names != [] && ValidNames(tw.names) }

  /** fids.add has no room for another fid. */
  predicate Full(fids: map<Fid, Node>, maxFids: int) { maxFids > 0 && |fids| >= maxFids }

  /** The fid a complete walk binds is there to rebind, or free and within the limit. */
  predicate Binds(tw: Twalk, fids: map<Fid, Node>, maxFids: int) {
    if tw.fid == tw.newFid then tw.fid in fids else !Full(fids, maxFids) && tw.newFid !in fids
  }

  /** What stops a walk at its first name. */
  function FirstError(env: Env, start: Node, name: string): Option<Errno> {
    if !env.dir(start) || !env.lookuper(start) then Some(ENOTDIR)
    else if env.lookup(start, name).Err? then Some(env.lookup(start, name).error)
    else None
  }

  /**
   The reply carries the QIDs of exactly the longest resolvable prefix, unless its first name fails or a
   complete walk cannot bind; newfid is bound exactly when every name resolved and the bind succeeds.
   */
  lemma WalkReturnsLongestPrefix(env: Env, c: Conn, tw: Twalk, fids: map<Fid, Node>, maxFids: int)
    requires Resolving(c, tw)
    ensures var path := Path(env, c.fids[tw.fid], tw.names);
            var (reply, c') := WalkResult(env, c, tw, fids, maxFids);
            && (path == [] <==> FirstError(env, c.fids[tw.fid], tw.names[0]).Some?)
            && (path == [] ==> reply == Failed(FirstError(env, c.fids[tw.fid], tw.names[0]).value) && c' == c)
            && (reply.Walked? ==>
                |reply.qids| == |path| && forall i :: 0 <= i < |path| ==> reply.qids[i] == env.qid(path[i]))
            && (path != [] ==>
                (reply.Failed? <==>
                 |path| == |tw.names| && tw.fid != tw.newFid && (Full(fids, maxFids) || tw.newFid in fids)))
            && (path != [] && reply.Failed? ==> reply == Failed(if Full(fids, maxFids) then EMFILE else EBADF))
            && (path != [] ==>
                c'.fids == if |path| == |tw.names| && Binds(tw, fids, maxFids)
                           then fids[tw.newFid := path[|path| - 1]] else fids)
  {
    PathLeads(env, c.fids[tw.fid], tw.names);
  }

  /** A missing fid and a malformed name are refused with nothing changed. */
  lemma WalkRefuses(env: Env, c: Conn, tw: Twalk, fids: map<Fid, Node>, maxFids: int)
    ensures tw.fid !in c.fids ==> WalkResult(env, c, tw, fids, maxFids) == (Failed(EBADF), c)
    ensures tw.fid in c.fids &&
            (exists i :: 0 <= i < |tw.names| && (tw.names[i] == "" || '/' in tw.names[i] || '\0' in tw.names[i])) ==>
              WalkResult(env, c, tw, fids, maxFids) == (Failed(EINVAL), c)
  {}

  /**
   A walk without names binds newfid to the fid's own node, with one more reference, when newfid is free and within
   the limit; it changes nothing but the error otherwise, and nothing at all for newfid equal to fid.
   */
  lemma WalkClones(env: Env, c: Conn, tw: Twalk, fids: map<Fid, Node>, maxFids: int, n: Node)
    requires tw.fid in c.fids && tw.names == []
    ensures var (reply, c') := WalkResult(env, c, tw, fids, maxFids);
            var start, binds := c.fids[tw.fid], tw.fid != tw.newFid && !Full(fids, maxFids) && tw.newFid !in fids;
            && reply == (if tw.fid == tw.newFid || binds then Walked([])
                         else Failed(if Full(fids, maxFids) then EMFILE else EBADF))
            && c'.fids == (if binds then fids[tw.newFid := start] else fids)
            && RefsOf(c'.refs, n) == RefsOf(c.refs, n) + (if binds && n == start then 1 else 0)
            && c'.closed == c.closed
  {}

  /** The node a walk reached, if it is unused and ends up bound to no fid. */
  function Abandoned(env: Env, c: Conn, tw: Twalk, fids: map<Fid, Node>, maxFids: int): seq<Node>
    requires Resolving(c, tw)
  {
    var path := Path(env, c.fids[tw.fid], tw.names);
    if path == [] || (|path| == |tw.names| && Binds(tw, fids, maxFids)) then []
    else Unbound(c.refs, c.fids[tw.fid], path[|path| - 1])
  }

  lemma WalkCloses(env: Env, c: Conn, tw: Twalk, fids: map<Fid, Node>, maxFids: int)
    requires Resolving(c, tw)
    ensures var start := c.fids[tw.fid];
            WalkResult(env, c, tw, fids, maxFids).1.closed
            == c.closed + (LeftBehind(c.refs, start, Path(env, start, tw.names)) + Abandoned(env, c, tw, fids, maxFids))
  {
    var left := LeftBehind(c.refs, c.fids[tw.fid], Path(env, c.fids[tw.fid], tw.names));
    var end := Abandoned(env, c, tw, fids, maxFids);
    assert (c.closed + left) + end == c.closed + (left + end) && left + [] == left && c.closed + [] == c.closed;
  }

  /** With fresh lookups every looked-up node is closed exactly once, except the one that was bound. */
  lemma WalkClosesTheRest(env: Env, c: Conn, tw: Twalk, fids: map<Fid, Node>, maxFids: int)
    requires Resolving(c, tw)
    requires AllFresh(c.refs, c.fids[tw.fid], Path(env, c.fids[tw.fid], tw.names))
    ensures var path := Path(env, c.fids[tw.fid], tw.names);
            var c' := WalkResult(env, c, tw, fids, maxFids).1;
            c'.closed == c.closed
            + if |path| == |tw.names| && Binds(tw, fids, maxFids) then path[..|path| - 1] else path
  {
    WalkCloses(env, c, tw, fids, maxFids);
    FreshCloses(c.refs, c.fids[tw.fid], Path(env, c.fids[tw.fid], tw.names));
  }

  /** A walk moves references with bindings: one more for the node bound, one fewer for the node displaced. */
  lemma WalkMovesReferences(env: Env, c: Conn, tw: Twalk, fids: map<Fid, Node>, maxFids: int, n: Node)
    requires Resolving(c, tw)
    ensures var c' := WalkResult(env, c, tw, fids, maxFids).1;
            var path := Path(env, c.fids[tw.fid], tw.names);
            var bound := |path| == |tw.names| && Binds(tw, fids, maxFids);
            RefsOf(c'.refs, n) == RefsOf(c.refs, n)
            + (if bound && n == path[|path| - 1] then 1 else 0)
            - (if bound && tw.fid == tw.newFid && n == fids[tw.fid] then 1 else 0)
  {}

  /** The walk stepped from the node to another, and nobody else uses it. */
  ghost predicate SteppedOff(refs: map<Node, int>, start: Node, path: seq<Node>, n: Node) {
    n != start && RefsOf(refs, n) == 0 && exists i :: 0 <= i < |path| - 1 && path[i] == n && path[i + 1] != n
  }

  lemma {:induction false} LeftBehindIffSteppedOff(refs: map<Node, int>, start: Node, path: seq<Node>, n: Node)
    ensures n in LeftBehind(refs, start, path) <==> SteppedOff(refs, start, path, n)
    decreases |path|
  {
    if |path| >= 2 {
      var most := path[..|path| - 1];
      LeftBehindIffSteppedOff(refs, start, most, n);
      if i :| 0 <= i < |path| - 1 && path[i] == n && path[i + 1] != n && i < |path| - 2 {
        assert most[i] == n && most[i + 1] != n;
      }
    }
  }

  /** The node is the one the walk reached, is unused, and ends up bound to no fid. */
  ghost predicate LeftUnbound(env: Env, c: Conn, tw: Twalk, fids: map<Fid, Node>, maxFids: int, n: Node)
    requires Resolving(c, tw)
  {
    var path := Path(env, c.fids[tw.fid], tw.names);
    && path != [] && !(|path| == |tw.names| && Binds(tw, fids, maxFids))
    && n == path[|path| - 1] && n != c.fids[tw.fid] && RefsOf(c.refs, n) == 0
  }

  lemma AbandonedIsLeftUnbound(env: Env, c: Conn, tw: Twalk, fids: map<Fid, Node>, maxFids: int, n: Node)
    requires Resolving(c, tw)
    ensures n in Abandoned(env, c, tw, fids, maxFids) <==> LeftUnbound(env, c, tw, fids, maxFids, n)
  {}

  lemma AddedAfter(before: seq<Node>, after: seq<Node>, a: seq<Node>, b: seq<Node>, n: Node)
    requires after == before + (a + b)
    ensures before <= after && (n in after[|before|..] <==> n in a || n in b)
  {
    assert after[|before|..] == a + b;
  }

  /**
   Whatever Lookup hands back, a walk closes exactly the unused nodes it stepped off, and the one it reached if that
   is unused and not bound.
   */
  lemma WalkClosesExactly(env: Env, c: Conn, tw: Twalk, fids: map<Fid, Node>, maxFids: int, n: Node)
    requires Resolving(c, tw)
    ensures var closed := WalkResult(env, c, tw, fids, maxFids).1.closed;
            && c.closed <= closed
            && (n in closed[|c.closed|..] <==>
                || SteppedOff(c.refs, c.fids[tw.fid], Path(env, c.fids[tw.fid], tw.names), n)
                || LeftUnbound(env, c, tw, fids, maxFids, n))
  {
    var closed := WalkResult(env, c, tw, fids, maxFids).1.closed;
    var path := Path(env, c.fids[tw.fid], tw.names);
    var left, end := LeftBehind(c.refs, c.fids[tw.fid], path), Abandoned(env, c, tw, fids, maxFids);
    assert closed == c.closed + (left + end) by { WalkCloses(env, c, tw, fids, maxFids); }
    AddedAfter(c.closed, closed, left, end, n);
    LeftBehindIffSteppedOff(c.refs, c.fids[tw.fid], path, n);
    AbandonedIsLeftUnbound(env, c, tw, fids, maxFids, n);
  }

  /** Whatever Lookup hands back, a walk closes neither its start nor a node some fid is using. */
  lemma WalkClosesOnlyUnused(env: Env, c: Conn, tw: Twalk, fids: map<Fid, Node>, maxFids: int, i: nat)
    requires Resolving(c, tw)
    requires |c.closed| <= i < |WalkResult(env, c, tw, fids, maxFids).1.closed|
    ensures var n := WalkResult(env, c, tw, fids, maxFids).1.closed[i]; n != c.fids[tw.fid] && RefsOf(c.refs, n) == 0
  {
    var closed := WalkResult(env, c, tw, fids, maxFids).1.closed;
    WalkClosesExactly(env, c, tw, fids, maxFids, closed[i]);
    assert closed[i] == closed[|c.closed|..][i - |c.closed|];
  }

  /** So a walk binds a node it has closed exactly when it came back to an unused node it had stepped off. */
  lemma WalkBindsClosedIffItCameBack(env: Env, c: Conn, tw: Twalk, fids: map<Fid, Node>, maxFids: int)
    requires Resolving(c, tw) && |Path(env, c.fids[tw.fid], tw.names)| == |tw.names| && Binds(tw, fids, maxFids)
    ensures var path := Path(env, c.fids[tw.fid], tw.names);
            var c' := WalkResult(env, c, tw, fids, maxFids).1;
            && tw.newFid in c'.fids && c.closed <= c'.closed
            && (c'.fids[tw.newFid] in c'.closed[|c.closed|..] <==>
                SteppedOff(c.refs, c.fids[tw.fid], path, path[|path| - 1]))
  {
    var path := Path(env, c.fids[tw.fid], tw.names);
    WalkClosesExactly(env, c, tw, fids, maxFids, path[|path| - 1]);
  }
}
