/**
 Reading a directory end to end: the client's cursor loop (client/readdir.go) against the server's
 cached listing (readdirSimple in server/bridge.go), over packed entries (proto/dirent.go).
 */
module ReadDir {
  import opened Chunks
  import opened Common
  import opened Dirents

  /** The largest length of a Go slice. */
  const MAX_LEN := 0x7FFF_FFFF_FFFF_FFFF

  ghost predicate Cookied(listing: seq<Dirent>) {
    |listing| <= MAX_LEN && forall i :: 0 <= i < |listing| ==> listing[i].offset == i + 1
  }

  /** The listing with the server's offset cookies in place of the provider's. */
  function WithCookies(ds: seq<Dirent>): (r: seq<Dirent>)
    requires |ds| <= MAX_LEN
    ensures |r| == |ds| && forall i :: 0 <= i < |ds| ==> r[i] == ds[i].(offset := i + 1)
  {
    seq(|ds|, i requires 0 <= i < |ds| => ds[i].(offset := i + 1))
  }

  /** What a client can ever see of a listing: unpackable entries are left out, and the first oversize one ends it. */
  function Visible(room: int, ds: seq<Dirent>): seq<Dirent> {
    if ds == [] then []
    else if !Packable(ds[0]) then Visible(room, ds[1..])
    else if MIN_ENTRY + |ds[0].name| > room then []
    else [ds[0]] + Visible(room, ds[1..])
  }

  predicate Fits(room: int, d: Dirent) { Packable(d) && MIN_ENTRY + |d.name| <= room }

  predicate AllFit(room: int, ds: seq<Dirent>) { forall i :: 0 <= i < |ds| ==> Fits(room, ds[i]) }

  // ---------------------------------------------------------------- batches and the visible listing

  /** A batch that fits in what room is left is the start of the visible listing. */
  lemma {:induction false} PackedIsVisible(left: int, room: int, ds: seq<Dirent>)
    requires left <= room
    ensures Packed(left, ds) <= Visible(room, ds)
    decreases |ds|
  {
    if ds == [] {
    } else if !Packable(ds[0]) {
      PackedIsVisible(left, room, ds[1..]);
    } else if MIN_ENTRY + |ds[0].name| <= left {
      PackedIsVisible(left - MIN_ENTRY - |ds[0].name|, room, ds[1..]);
    }
  }

  /** A reply with all the room is empty only when nothing more is visible. */
  lemma {:induction false} EmptyMeansEnd(room: int, ds: seq<Dirent>)
    requires Packed(room, ds) == []
    ensures Visible(room, ds) == []
    decreases |ds|
  {
    if ds != [] && !Packable(ds[0]) {
      EmptyMeansEnd(room, ds[1..]);
    }
  }

  /** Resuming after a visible entry's cookie sees exactly the entries after it. */
  lemma {:induction false} ResumeAfter(room: int, listing: seq<Dirent>, from: nat, i: nat)
    requires Cookied(listing) && from <= |listing| && i < |Visible(room, listing[from..])|
    ensures var e := Visible(room, listing[from..])[i];
            && from < e.offset <= |listing|
            && Visible(room, listing[e.offset..]) == Visible(room, listing[from..])[i + 1..]
    decreases |listing| - from
  {
    var ds := listing[from..];
    assert ds[1..] == listing[from + 1..];
    if !Packable(ds[0]) {
      ResumeAfter(room, listing, from + 1, i);
    } else if i > 0 {
      ResumeAfter(room, listing, from + 1, i - 1);
    }
  }

  /** The whole listing is visible exactly when every entry fits in a reply of its own. */
  lemma {:induction false} VisibleIffAllFit(room: int, ds: seq<Dirent>)
    ensures Visible(room, ds) == ds <==> AllFit(room, ds)
    ensures |Visible(room, ds)| <= |ds|
    decreases |ds|
  {
    if ds != [] {
      VisibleIffAllFit(room, ds[1..]);
      assert ds == [ds[0]] + ds[1..];
      if AllFit(room, ds) {
        assert Fits(room, ds[0]);
        assert AllFit(room, ds[1..]);
      }
    }
  }

  // ---------------------------------------------------------------- the server's fid

  class DirFid {
    var provider: Result<seq<Dirent>, nat>   // what the node's Readdir returns
    var dirCache: seq<Dirent>
    var dirCached: bool
    const msize: U32

    ghost predicate Valid()
      reads this
    {
      && msize >= MIN_MSIZE
      && (provider.Ok? ==> |provider.value| <= MAX_LEN)
      && Cookied(dirCache)
    }

    constructor (msize: U32, provider: Result<seq<Dirent>, nat>)
      requires msize >= MIN_MSIZE && (provider.Ok? ==> |provider.value| <= MAX_LEN)
      ensures Valid() && this.msize == msize && this.provider == provider && !dirCached
    {
      this.msize, this.provider := msize, provider;
      dirCache, dirCached := [], false;
    }

    /** The listing a request at the offset is served from. */
    ghost function Listing(offset: U64): Result<seq<Dirent>, nat>
      requires Valid()
      reads this
    {
      if offset == 0 || !dirCached then
        if provider.Ok? then Ok(WithCookies(provider.value)) else Err(provider.error)
      else Ok(dirCache)
    }

    method AssignCookies(ds: seq<Dirent>) returns (r: seq<Dirent>)
      requires |ds| <= MAX_LEN
      ensures r == WithCookies(ds)
    {
      r := ds;
      for i := 0 to |ds|
        invariant |r| == |ds|
        invariant forall j :: 0 <= j < i ==> r[j] == ds[j].(offset := j + 1)
        invariant forall j :: i <= j < |ds| ==> r[j] == ds[j]
      {
        r := r[i := r[i].(offset := i + 1)];
      }
    }

    method Readdir(offset: U64, count: U32) returns (r: Result<seq<Byte>, nat>)
      requires Valid()
      modifies `dirCache, `dirCached
      ensures Valid()
      ensures match old(Listing(offset))
              case Err(e) => r == Err(e) && !dirCached
              case Ok(listing) =>
                && dirCached && dirCache == listing
                && r == Ok(EncodeAll(Packed(Clamp(msize, count), listing[Min(offset, |listing|)..])))
    {
      if offset == 0 || !dirCached {
        dirCache, dirCached := [], false;
        if provider.Err? {
          return Err(provider.error);
        }
        dirCache := AssignCookies(provider.value);
        dirCached := true;
      }
      var start := |dirCache|;
      if offset < start {
        start := offset;
      }
      var buf := new Byte[Clamp(msize, count)];
      var n, packed := EncodeDirentsInto(buf, dirCache[start..]);
      r := Ok(buf[..n]);
    }
  }

  // ---------------------------------------------------------------- the client's file

  datatype ReadDirError = Remote(errno: nat) | Malformed | Stuck

  datatype Outcome = More | Done | Failed(error: ReadDirError)

  /** At most n entries, or all of them when n is not positive. */
  function Take(n: int, ds: seq<Dirent>): seq<Dirent> {
    if 0 < n < |ds| then ds[..n] else ds
  }

  class DirFile {
    var readdirOffset: U64
    const msize: U32
    const iounit: U32

    constructor (msize: U32, iounit: U32)
      ensures readdirOffset == 0 && this.msize == msize && this.iounit == iounit
    {
      this.msize, this.iounit := msize, iounit;
      readdirOffset := 0;
    }

    /** Past the start, the server holds the listing that the cursor points into. */
    ghost predicate Synced(server: DirFid)
      reads this, server
    {
      && server.Valid() && server.msize == msize
      && (readdirOffset > 0 ==> server.dirCached && readdirOffset <= |server.dirCache|)
    }

    ghost function RoomHere(): int
      requires msize >= MIN_MSIZE
    {
      Clamp(msize, MaxChunk(msize, iounit))
    }

    /** What is still to be read: the visible entries past the cursor. */
    ghost function Rest(server: DirFid): Result<seq<Dirent>, nat>
      requires Synced(server)
      reads this, server
    {
      match server.Listing(readdirOffset)
      case Err(e) => Err(e)
      case Ok(listing) => Ok(Visible(RoomHere(), listing[readdirOffset..]))
    }

    /** Consumes one batch, stopping at n entries; the cursor follows the last entry taken. */
    method Consume(n: int, had: seq<Dirent>, batch: seq<Dirent>) returns (entries: seq<Dirent>, full: bool)
      requires n > 0 ==> |had| < n
      requires batch != []
      modifies `readdirOffset
      ensures entries == Take(n, had + batch) && |entries| > |had|
      ensures full == (n > 0 && |had| + |batch| >= n)
      ensures readdirOffset == batch[|entries| - |had| - 1].offset
    {
      entries, full := had, false;
      for i := 0 to |batch|
        invariant entries == had + batch[..i] && (n > 0 ==> |entries| < n)
        invariant i > 0 ==> readdirOffset == batch[i - 1].offset
      {
        entries := entries + [batch[i]];
        readdirOffset := batch[i].offset;
        assert batch[..i + 1] == batch[..i] + [batch[i]];
        if n > 0 && |entries| >= n {
          full := true;
          assert entries == (had + batch)[..n];
          return;
        }
      }
      assert entries == had + batch;
    }

    /** One round trip: the next entries past the cursor, none of them only at the end. */
    method Fetch(server: DirFid) returns (r: Result<seq<Dirent>, ReadDirError>)
      requires Synced(server)
      modifies server`dirCache, server`dirCached
      ensures Synced(server)
      ensures old(Rest(server)).Err? ==> r == Err(Remote(old(Rest(server)).error)) && Rest(server) == old(Rest(server))
      ensures old(Rest(server)).Ok? ==>
                && r.Ok? && r.value <= old(Rest(server)).value && Rest(server) == old(Rest(server))
                && (r.value == [] ==> old(Rest(server)).value == [])
                && server.dirCached && old(server.Listing(readdirOffset)) == Ok(server.dirCache)
    {
      ghost var listing := server.Listing(readdirOffset);
      var reply := server.Readdir(readdirOffset, MaxChunk(msize, iounit));
      if reply.Err? {
        return Err(Remote(reply.error));
      }
      ghost var rest := listing.value[readdirOffset..];
      ghost var batch := Packed(RoomHere(), rest);
      PackedIsPackable(RoomHere(), rest);
      DirentsRoundTrip(batch);
      PackedIsVisible(RoomHere(), RoomHere(), rest);
      if |reply.value| == 0 {
        EmptyMeansEnd(RoomHere(), rest);
        return Ok([]);
      }
      var parsed, ok := ParseDirents(reply.value);
      if !ok {
        return Err(Malformed);
      }
      return Ok(parsed);
    }

    /** The entries already taken are the start of `all`, and the rest of it is still to be read. */
    ghost predicate Progress(server: DirFid, had: seq<Dirent>, all: Result<seq<Dirent>, nat>)
      requires Synced(server)
      reads this, server
    {
      if all.Err? then had == [] && Rest(server) == all
      else had <= all.value && Rest(server) == Ok(all.value[|had|..])
    }

    /** One turn of the loop. */
    method Turn(n: int, had: seq<Dirent>, server: DirFid, ghost all: Result<seq<Dirent>, nat>)
      returns (entries: seq<Dirent>, outcome: Outcome)
      requires Synced(server) && Progress(server, had, all) && (n > 0 ==> |had| < n)
      modifies `readdirOffset, server`dirCache, server`dirCached
      ensures Synced(server)
      ensures all.Err? ==> entries == [] && outcome == Failed(Remote(all.error)) && Rest(server) == all
      ensures all.Ok? ==>
                && Progress(server, entries, all)
                && !outcome.Failed?
                && (outcome.More? ==> (n > 0 ==> |entries| < n) && readdirOffset > old(readdirOffset))
                && (outcome.Done? ==> entries == Take(n, all.value))
    {
      var reqOffset := readdirOffset;
      ghost var rest := Rest(server);
      var r := Fetch(server);
      if r.Err? {
        return had, Failed(r.error);
      }
      var batch := r.value;
      if |batch| == 0 {
        return had, Done;
      }
      var full;
      entries, full := Consume(n, had, batch);
      Advanced(server, reqOffset, rest, had, batch, entries, all.value);
      if full {
        return entries, Done;
      }
      if readdirOffset <= reqOffset {
        return entries, Failed(Stuck);
      }
      return entries, More;
    }

    /** Up to n of the entries not yet read, or all of them when n <= 0. */
    method ReadDir(n: int, server: DirFid) returns (entries: seq<Dirent>, err: Option<ReadDirError>)
      requires Synced(server)
      modifies `readdirOffset, server`dirCache, server`dirCached
      ensures Synced(server)
      ensures old(Rest(server)).Err? ==>
                entries == [] && err == Some(Remote(old(Rest(server)).error)) && Rest(server) == old(Rest(server))
      ensures old(Rest(server)).Ok? ==>
                && err == None && entries == Take(n, old(Rest(server)).value)
                && Rest(server) == Ok(old(Rest(server)).value[|entries|..])
    {
      entries, err := [], None;
      ghost var all := Rest(server);
      while true
        invariant Synced(server) && Progress(server, entries, all) && (n > 0 ==> |entries| < n)
        decreases UINT64_MAX - readdirOffset
      {
        var outcome;
        entries, outcome := Turn(n, entries, server, all);
        match outcome
        case Failed(e) => return entries, Some(e);
        case Done => return entries, None;
        case More =>
      }
    }

    /** Where the cursor stands after taking some of a batch. */
    lemma Advanced(server: DirFid, from: U64, rest: Result<seq<Dirent>, nat>, had: seq<Dirent>, batch: seq<Dirent>,
                   entries: seq<Dirent>, all: seq<Dirent>)
      requires server.Valid() && server.msize == msize && server.dirCached && from <= |server.dirCache|
      requires rest == Ok(Visible(RoomHere(), server.dirCache[from..])) && batch <= rest.value
      requires had <= all && rest.value == all[|had|..]
      requires |had| < |entries| <= |had| + |batch| && entries == (had + batch)[..|entries|]
      requires readdirOffset == batch[|entries| - |had| - 1].offset
      ensures from < readdirOffset && Synced(server)
      ensures entries <= all && Rest(server) == Ok(all[|entries|..])
    {
      var i := |entries| - |had| - 1;
      assert batch[i] == rest.value[i];
      ResumeAfter(RoomHere(), server.dirCache, from, i);
      assert all == had + rest.value;
      assert entries == all[..|entries|];
      assert rest.value[i + 1..] == all[|entries|..];
    }
  }

  // ---------------------------------------------------------------- a sequence of calls

  /** What successive calls return, each taking from what the one before left. */
  function Pages(ns: seq<int>, rest: seq<Dirent>): seq<seq<Dirent>> {
    if ns == [] then []
    else
      var page := Take(ns[0], rest);
      [page] + Pages(ns[1..], rest[|page|..])
  }

  function Flat(pages: seq<seq<Dirent>>): seq<Dirent> {
    if pages == [] then [] else pages[0] + Flat(pages[1..])
  }

  lemma NextPage(ns: seq<int>, i: nat, pages: seq<seq<Dirent>>, rest: seq<Dirent>)
    requires i < |ns|
    ensures var page := Take(ns[i], rest);
            pages + Pages(ns[i..], rest) == (pages + [page]) + Pages(ns[i + 1..], rest[|page|..])
  {
    assert ns[i..][0] == ns[i] && ns[i..][1..] == ns[i + 1..];
  }

  /** The pages joined are a prefix of what there was to read, and all of it once a call asked for all. */
  lemma {:induction false} PagesJoin(ns: seq<int>, rest: seq<Dirent>)
    ensures Flat(Pages(ns, rest)) <= rest
    ensures (exists i :: 0 <= i < |ns| && ns[i] <= 0) ==> Flat(Pages(ns, rest)) == rest
  {
    if ns != [] {
      var page := Take(ns[0], rest);
      var pages := Pages(ns[1..], rest[|page|..]);
      PagesJoin(ns[1..], rest[|page|..]);
      assert ([page] + pages)[1..] == pages;
      assert rest == page + rest[|page|..];
      if i :| 0 <= i < |ns| && ns[i] <= 0 && i > 0 {
        assert ns[1..][i - 1] <= 0;
      }
    }
  }

  /**
   Any sequence of ReadDir calls from the start returns the listing in order, losing and repeating
   nothing; a call with n <= 0 completes it. This is so for the whole listing exactly when every entry
   fits in a reply of its own.
   */
  lemma ListingIsReadInOrder(room: int, listing: seq<Dirent>, ns: seq<int>)
    requires |listing| <= MAX_LEN
    ensures var cookied := WithCookies(listing);
            var read := Flat(Pages(ns, Visible(room, cookied)));
            && read <= Visible(room, cookied)
            && (AllFit(room, listing) ==> read <= cookied)
            && ((exists i :: 0 <= i < |ns| && ns[i] <= 0) ==> (read == cookied <==> AllFit(room, listing)))
  {
    var cookied := WithCookies(listing);
    PagesJoin(ns, Visible(room, cookied));
    VisibleIffAllFit(room, cookied);
    forall i | 0 <= i < |listing| ensures Fits(room, cookied[i]) == Fits(room, listing[i]) {}
    assert AllFit(room, cookied) <==> AllFit(room, listing);
  }

  /**
   Calls that ask for ns[0], ns[1], … entries until one fails. On a file just opened their pages joined are the
   listing in order, and all of it once a call asked for all, exactly when every entry fits a reply of its own.
   */
  method ReadPages(file: DirFile, server: DirFid, ns: seq<int>)
    returns (pages: seq<seq<Dirent>>, err: Option<ReadDirError>)
    requires file.Synced(server)
    modifies file`readdirOffset, server`dirCache, server`dirCached
    ensures old(file.Rest(server)).Err? ==>
              pages == [] && err == if ns == [] then None else Some(Remote(old(file.Rest(server)).error))
    ensures old(file.Rest(server)).Ok? ==> pages == Pages(ns, old(file.Rest(server)).value) && err == None
    ensures old(file.readdirOffset) == 0 && server.provider.Ok? ==>
              var listing := WithCookies(server.provider.value);
              && Flat(pages) <= Visible(file.RoomHere(), listing)
              && (AllFit(file.RoomHere(), server.provider.value) ==> Flat(pages) <= listing)
              && ((exists i :: 0 <= i < |ns| && ns[i] <= 0) ==>
                  (Flat(pages) == listing <==> AllFit(file.RoomHere(), server.provider.value)))
  {
    pages, err := [], None;
    ghost var first := file.Rest(server);
    ghost var rest := if first.Ok? then first.value else [];
    ghost var all := Pages(ns, rest);
    assert ns[0..] == ns && [] + all == all;
    for i := 0 to |ns|
      invariant file.Synced(server)
      invariant if first.Ok? then file.Rest(server) == Ok(rest) else file.Rest(server) == first && i == 0
      invariant pages + Pages(ns[i..], rest) == all && |pages| == i
    {
      var page, e := file.ReadDir(ns[i], server);
      if e.Some? {
        return pages, e;
      }
      NextPage(ns, i, pages, rest);
      pages := pages + [page];
      rest := rest[|page|..];
    }
    assert ns[|ns|..] == [] && pages + [] == pages;
    if old(file.readdirOffset) == 0 && server.provider.Ok? {
      ListingIsReadInOrder(file.RoomHere(), server.provider.value, ns);
      assert WithCookies(server.provider.value)[0..] == WithCookies(server.provider.value);
    }
  }
}
