/**
 * What the move loop does: moving every listed entry of `src` to its route succeeds
 * exactly when each route is a directory that does not yet hold the name; afterwards each
 * entry sits, with its whole subtree, at `route/name`, `src` is empty, and nothing apart
 * from these places changed.
 */
module MoveFacts {
  import opened FileTree
  import opened FsOps
  import opened Layout
  import opened Steps

  /**
   * The routes of a move loop: `dst` lies apart from `src`; the optional WBPP route lies
   * above `dst` but not on its way towards it, and its `WBPP` entry is not `src` or above it.
   */
  ghost predicate RoutesApart(src: Path, dst: Path, special: Option<Path>)
  {
    && Disjoint(src, dst)
    && (special.Some? ==>
          special.value < dst && dst[|special.value|] != Wbpp && !(special.value + [Wbpp] <= src))
  }

  function Dest(dst: Path, special: Option<Path>, e: string): Path
  {
    Route(dst, special, e) + [e]
  }

  function Elements(xs: seq<string>): set<string>
  {
    set x | x in xs
  }

  /** Every entry can be moved: its route is a directory without an entry of that name. */
  ghost predicate CanMoveAll(t: Node, dst: Path, special: Option<Path>, ns: set<string>)
  {
    forall e :: e in ns ==> IsDirAt(t, Route(dst, special, e)) && e !in Names(t, Route(dst, special, e))
  }

  /** A folder whose listing the moves change: the source, a route, or a folder above them. */
  ghost predicate OnRoutes(src: Path, dst: Path, special: Option<Path>, q: Path)
  {
    q <= src || q <= dst || (special.Some? && q <= special.value)
  }

  /** The names that arrive in folder `q`. */
  function Arrived(dst: Path, special: Option<Path>, ns: set<string>, q: Path): set<string>
  {
    set e | e in ns && Route(dst, special, e) == q
  }

  /** `q` is apart from every moved entry, both where it was and where it goes. */
  ghost predicate Untouched(src: Path, dst: Path, special: Option<Path>, ns: set<string>, q: Path)
  {
    forall e :: e in ns ==> Disjoint(q, src + [e]) && Disjoint(q, Dest(dst, special, e))
  }

  /** The paths one move involves lie apart as a move needs them to. */
  lemma RoutePlaces(src: Path, dst: Path, special: Option<Path>, e: string, e2: string)
    requires RoutesApart(src, dst, special)
    ensures !(src + [e] <= Route(dst, special, e)) && src != Route(dst, special, e)
    ensures Disjoint(src + [e], Dest(dst, special, e2))
    ensures e != e2 ==> Disjoint(Dest(dst, special, e), Dest(dst, special, e2))
    ensures e != e2 ==> Disjoint(src + [e], src + [e2])
  {
    var se := src + [e];
    assert se[|src|] == e;
    DisjointBelow(src, dst, se, dst);
    DisjointBelow(src, dst, se, dst + [e2]);
    if special.Some? {
      var w := special.value;
      if se <= w || src == w {
        assert false;
      }
      var wb := w + [Wbpp];
      if se == wb {
        assert false;
      }
      if se <= wb {
        assert false;
      }
      if wb <= se {
        assert false;
      }
      assert (dst + [e2])[|w|] == dst[|w|];
      DifferAt(wb, dst + [e2], |w|);
      assert (dst + [e])[|w|] == dst[|w|];
      DifferAt(wb, dst + [e], |w|);
    }
    if e != e2 {
      DifferAt(se, src + [e2], |src|);
      var r1 := Route(dst, special, e);
      var r2 := Route(dst, special, e2);
      if r1 == r2 {
        DifferAt(r1 + [e], r2 + [e2], |r1|);
      }
    }
  }

  /** A folder below `dst` yet not at or below the WBPP route lies apart from `WBPP`'s new place. */
  lemma BetweenRoutes(w: Path, dst: Path, q: Path)
    requires w < dst && dst[|w|] != Wbpp && q <= dst && !(q <= w)
    ensures Disjoint(q, w + [Wbpp])
  {
    PrefixesOfOne(q, w, dst);
    assert q[|w|] == dst[|w|];
    DifferAt(q, w + [Wbpp], |w|);
  }

  /** What one move of the loop does, path by path. */
  lemma MoveStep(t: Node, src: Path, dst: Path, special: Option<Path>, e: string, q: Path)
    requires RoutesApart(src, dst, special)
    requires Move(t, src + [e], Route(dst, special, e)).Ok?
    ensures var t' := Move(t, src + [e], Route(dst, special, e)).value;
      && Get(t', Dest(dst, special, e)) == Get(t, src + [e])
      && (Disjoint(q, src + [e]) && Disjoint(q, Dest(dst, special, e)) ==> Get(t', q) == Get(t, q))
      && (OnRoutes(src, dst, special, q) ==>
            (IsDirAt(t', q) <==> IsDirAt(t, q)) &&
            Names(t', q) == (Names(t, q) - (if q == src then {e} else {}))
                            + (if q == Route(dst, special, e) then {e} else {}))
  {
    var se := src + [e];
    var r := Route(dst, special, e);
    RoutePlaces(src, dst, special, e, e);
    assert Last(se) == e && Parent(se) == src;
    MoveEffect(t, se, r, q);
    if OnRoutes(src, dst, special, q) {
      if q <= src {
        AncestorIsDir(t, q, se);
      } else if q <= r {
        if q < r { AncestorIsDir(t, q, r); }
      } else {
        // q lies on the other route, away from this move
        if special.Some? && r == special.value {
          BetweenRoutes(special.value, dst, q);
        } else {
          assert false;
        }
        if q <= se && q != se {
          assert false;
        }
        if se <= q || q <= se {
          assert false;
        }
      }
    }
  }

  /** The move loop succeeds exactly when every entry can be moved. */
  lemma {:induction false} MoveAllSucceeds(t: Node, src: Path, dst: Path, special: Option<Path>, names: seq<string>)
    requires RoutesApart(src, dst, special) && IsDirAt(t, src) && Distinct(names)
    requires forall e :: e in names ==> e in Names(t, src)
    ensures MoveAll(t, src, dst, special, names).ok <==> CanMoveAll(t, dst, special, Elements(names))
    decreases |names|
  {
    if names != [] {
      var e := names[0];
      var se := src + [e];
      var r := Route(dst, special, e);
      RoutePlaces(src, dst, special, e, e);
      assert Last(se) == e;
      ChildIsListed(t, src, e);
      var rest := names[1..];
      assert Elements(names) == {e} + Elements(rest);
      if Move(t, se, r).Ok? {
        var t' := Move(t, se, r).value;
        RestListed(t, src, dst, special, names);
        MoveAllSucceeds(t', src, dst, special, rest);
        RoutesKept(t, src, dst, special, names);
      }
    }
  }

  /** After the first move, the routes of the other entries are as they were for those entries. */
  lemma RoutesKept(t: Node, src: Path, dst: Path, special: Option<Path>, names: seq<string>)
    requires RoutesApart(src, dst, special) && names != [] && Distinct(names)
    requires Move(t, src + [names[0]], Route(dst, special, names[0])).Ok?
    ensures var t' := Move(t, src + [names[0]], Route(dst, special, names[0])).value;
      forall e2 :: e2 in names[1..] ==>
        && IsDirAt(t', Route(dst, special, e2)) == IsDirAt(t, Route(dst, special, e2))
        && (e2 in Names(t', Route(dst, special, e2))) == (e2 in Names(t, Route(dst, special, e2)))
  {
    var e := names[0];
    var t' := Move(t, src + [e], Route(dst, special, e)).value;
    forall e2 | e2 in names[1..]
      ensures IsDirAt(t', Route(dst, special, e2)) == IsDirAt(t, Route(dst, special, e2))
      ensures (e2 in Names(t', Route(dst, special, e2))) == (e2 in Names(t, Route(dst, special, e2)))
    {
      var k :| 0 <= k < |names[1..]| && names[1..][k] == e2;
      assert names[k + 1] == e2;
      assert e2 != e;
      MoveStep(t, src, dst, special, e, Route(dst, special, e2));
      RoutePlaces(src, dst, special, e2, e2);
    }
  }

  /** The entries of `src` that the loop has not reached yet, at the start of its remaining part. */
  lemma RestListed(t: Node, src: Path, dst: Path, special: Option<Path>, names: seq<string>)
    requires RoutesApart(src, dst, special) && names != [] && Distinct(names)
    requires forall e :: e in names ==> e in Names(t, src)
    requires Move(t, src + [names[0]], Route(dst, special, names[0])).Ok?
    ensures var t' := Move(t, src + [names[0]], Route(dst, special, names[0])).value;
      && IsDirAt(t', src) && Distinct(names[1..])
      && (forall e :: e in names[1..] ==> e in Names(t', src))
      && Elements(names) == {names[0]} + Elements(names[1..])
      && names[0] !in Elements(names[1..])
  {
    var t' := Move(t, src + [names[0]], Route(dst, special, names[0])).value;
    MoveStep(t, src, dst, special, names[0], src);
    forall e2 | e2 in names[1..] ensures e2 in Names(t', src) && e2 != names[0] {
      var k :| 0 <= k < |names[1..]| && names[1..][k] == e2;
      assert names[k + 1] == e2;
    }
    assert Elements(names) == {names[0]} + Elements(names[1..]);
  }

  /** Outside the moved entries' old and new places, the tree after the loop is the tree before. */
  lemma {:induction false} MoveAllFrame(t: Node, src: Path, dst: Path, special: Option<Path>, names: seq<string>, q: Path)
    requires RoutesApart(src, dst, special) && IsDirAt(t, src) && Distinct(names)
    requires forall e :: e in names ==> e in Names(t, src)
    requires MoveAll(t, src, dst, special, names).ok
    requires Untouched(src, dst, special, Elements(names), q)
    ensures Get(MoveAll(t, src, dst, special, names).tree, q) == Get(t, q)
    decreases |names|
  {
    if names != [] {
      var e := names[0];
      var t' := Move(t, src + [e], Route(dst, special, e)).value;
      RestListed(t, src, dst, special, names);
      MoveStep(t, src, dst, special, e, q);
      MoveAllFrame(t', src, dst, special, names[1..], q);
    }
  }

  /** After the loop `src` lists nothing, each route lists its arrivals too, and no folder on the way changed kind. */
  lemma {:induction false} MoveAllListings(t: Node, src: Path, dst: Path, special: Option<Path>, names: seq<string>, q: Path)
    requires RoutesApart(src, dst, special) && IsDirAt(t, src) && Distinct(names)
    requires forall e :: e in names ==> e in Names(t, src)
    requires MoveAll(t, src, dst, special, names).ok
    requires OnRoutes(src, dst, special, q)
    ensures var r := MoveAll(t, src, dst, special, names).tree;
      && (IsDirAt(r, q) <==> IsDirAt(t, q))
      && Names(r, q) == (Names(t, q) - (if q == src then Elements(names) else {}))
                        + Arrived(dst, special, Elements(names), q)
    decreases |names|
  {
    if names != [] {
      var e := names[0];
      var rt := Route(dst, special, e);
      var t' := Move(t, src + [e], rt).value;
      var rest := names[1..];
      RestListed(t, src, dst, special, names);
      MoveStep(t, src, dst, special, e, q);
      MoveAllListings(t', src, dst, special, rest, q);
      RoutePlaces(src, dst, special, e, e);
      var r := MoveAll(t, src, dst, special, names).tree;
      ArrivedSplit(dst, special, names, q);
      ListingStep(Names(t, q), Names(t', q), Names(r, q), e, Elements(rest), Elements(names),
        Arrived(dst, special, Elements(rest), q), Arrived(dst, special, Elements(names), q), q == src, q == rt);
    }
  }

  /** How the listing of one folder on the routes changes over one move and the rest of the loop. */
  lemma ListingStep(n: set<string>, n1: set<string>, n2: set<string>, e: string, rest: set<string>, all: set<string>,
                    arrived1: set<string>, arrived: set<string>, isSrc: bool, isRoute: bool)
    requires all == {e} + rest && !(isSrc && isRoute)
    requires n1 == (n - (if isSrc then {e} else {})) + (if isRoute then {e} else {})
    requires n2 == (n1 - (if isSrc then rest else {})) + arrived1
    requires arrived == arrived1 + (if isRoute then {e} else {})
    ensures n2 == (n - (if isSrc then all else {})) + arrived
  {
  }

  /** The arrivals of a listing are those of its first entry and of the rest. */
  lemma ArrivedSplit(dst: Path, special: Option<Path>, names: seq<string>, q: Path)
    requires names != [] && Elements(names) == {names[0]} + Elements(names[1..])
    ensures Arrived(dst, special, Elements(names), q) ==
      Arrived(dst, special, Elements(names[1..]), q) + (if q == Route(dst, special, names[0]) then {names[0]} else {})
  {
  }

  /** After a successful move loop every entry sits at its destination with its whole subtree. */
  lemma {:induction false} MoveAllPlaces(t: Node, src: Path, dst: Path, special: Option<Path>, names: seq<string>, e0: string)
    requires RoutesApart(src, dst, special) && IsDirAt(t, src) && Distinct(names)
    requires forall e :: e in names ==> e in Names(t, src)
    requires MoveAll(t, src, dst, special, names).ok && e0 in names
    ensures Get(MoveAll(t, src, dst, special, names).tree, Dest(dst, special, e0)) == Get(t, src + [e0])
    decreases |names|
  {
    var e := names[0];
    var se := src + [e];
    var rt := Route(dst, special, e);
    var t' := Move(t, se, rt).value;
    var rest := names[1..];
    RestListed(t, src, dst, special, names);
    if e0 == e {
      MoveStep(t, src, dst, special, e, Dest(dst, special, e));
      forall e2 | e2 in Elements(rest)
        ensures Disjoint(Dest(dst, special, e), src + [e2])
        ensures Disjoint(Dest(dst, special, e), Dest(dst, special, e2))
      {
        RoutePlaces(src, dst, special, e2, e);
        RoutePlaces(src, dst, special, e, e2);
      }
      MoveAllFrame(t', src, dst, special, rest, Dest(dst, special, e));
    } else {
      MoveAllPlaces(t', src, dst, special, rest, e0);
      RoutePlaces(src, dst, special, e0, e);
      MoveStep(t, src, dst, special, e, src + [e0]);
    }
  }

  /** The loop logs one line per entry, in listing order, before the move; all of them informational. */
  lemma {:induction false} MoveAllLog(t: Node, src: Path, dst: Path, special: Option<Path>, names: seq<string>)
    ensures var o := MoveAll(t, src, dst, special, names);
      AllInfo(o.events) && NoSkips(o.events) && |o.events| <= |names|
    ensures var o := MoveAll(t, src, dst, special, names);
      o.ok ==> |o.events| == |names| &&
               forall i :: 0 <= i < |names| ==> o.events[i] == MoveEvent(src, dst, special, names[i])
    decreases |names|
  {
    if names != [] {
      var e := names[0];
      match Move(t, src + [e], Route(dst, special, e))
      case Err(_) =>
      case Ok(t') =>
        MoveAllLog(t', src, dst, special, names[1..]);
        var o := MoveAll(t', src, dst, special, names[1..]);
        assert MoveAll(t, src, dst, special, names).events == [MoveEvent(src, dst, special, e)] + o.events;
        NoSkipsAppend([MoveEvent(src, dst, special, e)], o.events);
    }
  }

  /** A listing from a valid arrangement names each entry of the folder once. */
  lemma ListingOf(arr: Arrangement, t: Node, p: Path)
    requires Lists(arr)
    ensures Distinct(ListDir(arr, t, p)) && Elements(ListDir(arr, t, p)) == Names(t, p)
    ensures forall e :: e in ListDir(arr, t, p) ==> e in Names(t, p)
  {
    assert IsListing(arr(p, Names(t, p)), Names(t, p));
  }

  /** Listing `src` and moving what it holds succeeds exactly when `src` is a folder all of whose entries can be moved. */
  lemma MoveListedSucceeds(arr: Arrangement, t: Node, src: Path, dst: Path, special: Option<Path>)
    requires Lists(arr) && RoutesApart(src, dst, special)
    ensures MoveListed(arr, t, src, dst, special).ok <==> IsDirAt(t, src) && CanMoveAll(t, dst, special, Names(t, src))
  {
    if IsDirAt(t, src) {
      ListingOf(arr, t, src);
      MoveAllSucceeds(t, src, dst, special, ListDir(arr, t, src));
    }
  }

  /** The tree after listing `src` and moving every entry it held. */
  lemma MoveListedEffect(arr: Arrangement, t: Node, src: Path, dst: Path, special: Option<Path>, q: Path)
    requires Lists(arr) && RoutesApart(src, dst, special) && MoveListed(arr, t, src, dst, special).ok
    ensures IsDirAt(t, src)
    ensures var r := MoveListed(arr, t, src, dst, special).tree;
      && (OnRoutes(src, dst, special, q) ==>
            (IsDirAt(r, q) <==> IsDirAt(t, q)) &&
            Names(r, q) == (Names(t, q) - (if q == src then Names(t, src) else {}))
                           + Arrived(dst, special, Names(t, src), q))
      && (Untouched(src, dst, special, Names(t, src), q) ==> Get(r, q) == Get(t, q))
      && (forall e :: e in Names(t, src) ==> Get(r, Dest(dst, special, e)) == Get(t, src + [e]))
  {
    var names := ListDir(arr, t, src);
    ListingOf(arr, t, src);
    if OnRoutes(src, dst, special, q) {
      MoveAllListings(t, src, dst, special, names, q);
    }
    if Untouched(src, dst, special, Names(t, src), q) {
      MoveAllFrame(t, src, dst, special, names, q);
    }
    forall e | e in Names(t, src)
      ensures Get(MoveAll(t, src, dst, special, names).tree, Dest(dst, special, e)) == Get(t, src + [e])
    {
      MoveAllPlaces(t, src, dst, special, names, e);
    }
  }

  /** The listed moves log only informational lines. */
  lemma MoveListedLog(arr: Arrangement, t: Node, src: Path, dst: Path, special: Option<Path>)
    ensures AllInfo(MoveListed(arr, t, src, dst, special).events)
    ensures NoSkips(MoveListed(arr, t, src, dst, special).events)
  {
    if IsDirAt(t, src) {
      MoveAllLog(t, src, dst, special, ListDir(arr, t, src));
    }
  }

  /** Far from the source and from every route, a path is untouched by the moves. */
  lemma FarIsUntouched(src: Path, dst: Path, special: Option<Path>, ns: set<string>, q: Path)
    requires RoutesApart(src, dst, special) && Disjoint(q, src) && Disjoint(q, dst)
    requires special.Some? ==> Disjoint(q, special.value)
    ensures Untouched(src, dst, special, ns, q)
  {
    forall e | e in ns ensures Disjoint(q, src + [e]) && Disjoint(q, Dest(dst, special, e)) {
      DisjointBelow(q, src, q, src + [e]);
      if special.Some? && e == Wbpp {
        DisjointBelow(q, special.value, q, Dest(dst, special, e));
      } else {
        DisjointBelow(q, dst, q, Dest(dst, special, e));
      }
    }
  }

  /** Where the names arrive: all of them in `dst` when there is no WBPP route, else all but `WBPP`. */
  lemma ArrivedAt(dst: Path, special: Option<Path>, ns: set<string>, q: Path)
    requires special.Some? ==> special.value != dst
    ensures special.None? ==> Arrived(dst, special, ns, dst) == ns
    ensures special.Some? ==> Arrived(dst, special, ns, dst) == ns - {Wbpp}
    ensures special.Some? ==> Arrived(dst, special, ns, special.value) == ns * {Wbpp}
    ensures q != dst && (special.Some? ==> q != special.value) ==> Arrived(dst, special, ns, q) == {}
  {
  }

  /** A folder on the routes other than `src`: still of its kind, and listing its arrivals too. */
  lemma MoveListedAt(arr: Arrangement, t: Node, src: Path, dst: Path, special: Option<Path>, q: Path)
    requires Lists(arr) && RoutesApart(src, dst, special) && MoveListed(arr, t, src, dst, special).ok
    requires OnRoutes(src, dst, special, q) && q != src
    ensures IsDirAt(MoveListed(arr, t, src, dst, special).tree, q) == IsDirAt(t, q)
    ensures Names(MoveListed(arr, t, src, dst, special).tree, q) ==
              Names(t, q) + Arrived(dst, special, Names(t, src), q)
  {
    MoveListedEffect(arr, t, src, dst, special, q);
  }

  /** A folder on the routes that receives nothing is just as it was. */
  lemma MoveListedPassing(arr: Arrangement, t: Node, src: Path, dst: Path, special: Option<Path>, q: Path)
    requires Lists(arr) && RoutesApart(src, dst, special) && MoveListed(arr, t, src, dst, special).ok
    requires OnRoutes(src, dst, special, q) && q != src && q != dst && (special.Some? ==> q != special.value)
    ensures IsDirAt(MoveListed(arr, t, src, dst, special).tree, q) == IsDirAt(t, q)
    ensures Names(MoveListed(arr, t, src, dst, special).tree, q) == Names(t, q)
  {
    MoveListedEffect(arr, t, src, dst, special, q);
    assert Arrived(dst, special, Names(t, src), q) == {};
  }

  /** After the loop the source folder is the empty folder. */
  lemma MoveListedEmpties(arr: Arrangement, t: Node, src: Path, dst: Path, special: Option<Path>)
    requires Lists(arr) && RoutesApart(src, dst, special) && MoveListed(arr, t, src, dst, special).ok
    ensures Get(MoveListed(arr, t, src, dst, special).tree, src) == Some(Dir(map[]))
  {
    var r := MoveListed(arr, t, src, dst, special).tree;
    MoveListedEffect(arr, t, src, dst, special, src);
    RoutePlaces(src, dst, special, "", "");
    assert Arrived(dst, special, Names(t, src), src) == {};
    EmptyDir(r, src);
  }
}
