/** An in-memory directory tree and path-addressed lookup and update on it. */
module FileTree {

  datatype Option<T> = None | Some(value: T)

  /** A directory entry: a plain file, or a directory holding named entries. */
  datatype Node = File | Dir(children: map<string, Node>)

  /** A path is the list of names from the top of the tree downwards. */
  type Path = seq<string>

  /** The entry found at `p`, if any. */
  function Get(t: Node, p: Path): Option<Node>
    decreases |p|
  {
    if p == [] then Some(t)
    else match t
      case File => None
      case Dir(m) => if p[0] in m then Get(m[p[0]], p[1..]) else None
  }

  /** Continue a lookup from a node already found. */
  function GetFrom(n: Option<Node>, r: Path): Option<Node>
  {
    match n
    case None => None
    case Some(x) => Get(x, r)
  }

  predicate IsDirAt(t: Node, p: Path)
  {
    Get(t, p).Some? && Get(t, p).value.Dir?
  }

  /** The names `os.listdir` reports at `p` (none when `p` is not a directory). */
  function Names(t: Node, p: Path): set<string>
  {
    if IsDirAt(t, p) then Get(t, p).value.children.Keys else {}
  }

  function Parent(p: Path): Path
    requires p != []
  {
    p[..|p| - 1]
  }

  function Last(p: Path): string
    requires p != []
  {
    p[|p| - 1]
  }

  /** Neither path lies inside the other, so updating one leaves the other alone. */
  predicate Disjoint(p: Path, q: Path)
  {
    !(p <= q) && !(q <= p)
  }

  /** Replace the entry at `p` by `v` (remove it when `v` is None); the parent must be a directory. */
  function Put(t: Node, p: Path, v: Option<Node>): Node
    requires p != [] && IsDirAt(t, Parent(p))
    decreases |p|
  {
    var m := t.children;
    if |p| == 1 then
      Dir(if v.Some? then m[p[0] := v.value] else m - {p[0]})
    else
      assert Parent(p)[0] == p[0] && Parent(p)[1..] == Parent(p[1..]);
      Dir(m[p[0] := Put(m[p[0]], p[1..], v)])
  }

  lemma {:induction false} GetAppend(t: Node, p: Path, r: Path)
    ensures Get(t, p + r) == GetFrom(Get(t, p), r)
    decreases |p|
  {
    if p == [] {
      assert p + r == r;
    } else {
      assert (p + r)[0] == p[0] && (p + r)[1..] == p[1..] + r;
      match t
      case File =>
      case Dir(m) =>
        if p[0] in m {
          GetAppend(m[p[0]], p[1..], r);
        }
    }
  }

  /** Anything below a missing entry is missing too. */
  lemma GetBelowMissing(t: Node, p: Path, q: Path)
    requires p <= q && Get(t, p).None?
    ensures Get(t, q).None?
  {
    assert q == p + q[|p|..];
    GetAppend(t, p, q[|p|..]);
  }

  /** Anything that exists has a directory as its parent. */
  lemma ParentIsDir(t: Node, p: Path)
    requires p != [] && Get(t, p).Some?
    ensures IsDirAt(t, Parent(p))
  {
    assert p == Parent(p) + [Last(p)];
    GetAppend(t, Parent(p), [Last(p)]);
  }

  /** Every prefix of an existing path is a directory. */
  lemma AncestorIsDir(t: Node, q: Path, p: Path)
    requires q < p && Get(t, p).Some?
    ensures IsDirAt(t, q)
  {
    assert p == q + p[|q|..];
    GetAppend(t, q, p[|q|..]);
  }

  /** A child exists exactly when its name is listed in its parent. */
  lemma ChildIsListed(t: Node, p: Path, n: string)
    ensures Get(t, p + [n]).Some? <==> n in Names(t, p)
  {
    GetAppend(t, p, [n]);
    if IsDirAt(t, p) {
      var m := Get(t, p).value.children;
      assert [n][0] == n && [n][1..] == [];
      assert Get(Dir(m), [n]) == if n in m then Some(m[n]) else None;
    }
  }

  /** What `Put` does at a path at or below the updated one. */
  lemma {:induction false} GetPutBelow(t: Node, p: Path, v: Option<Node>, q: Path)
    requires p != [] && IsDirAt(t, Parent(p)) && p <= q
    ensures Get(Put(t, p, v), q) == GetFrom(v, q[|p|..])
    decreases |p|
  {
    var m := t.children;
    if |p| == 1 {
      assert q[1..] == q[|p|..];
    } else {
      assert Parent(p)[0] == p[0] && Parent(p)[1..] == Parent(p[1..]);
      assert p[1..] <= q[1..] && q[|p|..] == q[1..][|p[1..]|..];
      GetPutBelow(m[p[0]], p[1..], v, q[1..]);
    }
  }

  /** `Put` leaves every path disjoint from the updated one as it was. */
  lemma {:induction false} GetPutDisjoint(t: Node, p: Path, v: Option<Node>, q: Path)
    requires p != [] && IsDirAt(t, Parent(p)) && Disjoint(p, q)
    ensures Get(Put(t, p, v), q) == Get(t, q)
    decreases |p|
  {
    var m := t.children;
    if |p| > 1 && q[0] == p[0] {
      assert Parent(p)[0] == p[0] && Parent(p)[1..] == Parent(p[1..]);
      assert Disjoint(p[1..], q[1..]);
      GetPutDisjoint(m[p[0]], p[1..], v, q[1..]);
    }
  }

  /** Above the updated path `Put` keeps directories, and only the parent's names change. */
  lemma {:induction false} GetPutAbove(t: Node, p: Path, v: Option<Node>, q: Path)
    requires p != [] && IsDirAt(t, Parent(p)) && q < p
    ensures IsDirAt(t, q) && IsDirAt(Put(t, p, v), q)
    ensures Names(Put(t, p, v), q) ==
      if q != Parent(p) then Names(t, q)
      else if v.Some? then Names(t, q) + {Last(p)}
      else Names(t, q) - {Last(p)}
    decreases |p|
  {
    var m := t.children;
    if q == [] {
      assert IsDirAt(t, q);
      assert IsDirAt(Put(t, p, v), q);
    } else {
      assert |p| > 1;
      assert Parent(p)[0] == p[0] && Parent(p)[1..] == Parent(p[1..]);
      assert p[0] == q[0] && q[1..] < p[1..];
      assert q == Parent(p) <==> q[1..] == Parent(p[1..]);
      GetPutAbove(m[p[0]], p[1..], v, q[1..]);
    }
  }

  /** A directory that lists nothing is the empty directory. */
  lemma EmptyDir(t: Node, p: Path)
    requires IsDirAt(t, p) && Names(t, p) == {}
    ensures Get(t, p) == Some(Dir(map[]))
  {
    var m := Get(t, p).value.children;
    assert m.Keys == {};
    assert m == map[];
  }

  /** Two trees that agree at `p` agree everywhere below it. */
  lemma SameBelow(t: Node, t': Node, p: Path, q: Path)
    requires Get(t', p) == Get(t, p) && p <= q
    ensures Get(t', q) == Get(t, q)
  {
    assert q == p + q[|p|..];
    GetAppend(t, p, q[|p|..]);
    GetAppend(t', p, q[|p|..]);
  }
}
