/**
 * The three filesystem calls the reorganiser makes, as operations on a tree:
 * `os.makedirs(path, exist_ok=True)`, `shutil.move(src, existing_dir)` and `os.rmdir(path)`.
 * Each either yields the new tree or fails; every failure is fatal to the script.
 */
module FsOps {
  import opened FileTree

  datatype FsError = FileInTheWay | NotFound | NotADirectory | AlreadyExists | IntoItself | NotEmpty

  datatype Result<T> = Ok(value: T) | Err(error: FsError)

  /** Neither `p` itself nor any directory on the way to it is a plain file. */
  predicate NoFileOnPath(t: Node, p: Path)
  {
    forall i :: 0 <= i <= |p| ==> Get(t, p[..i]) != Some(File)
  }

  lemma NoFileOnPathStep(m: map<string, Node>, p: Path)
    requires p != []
    ensures NoFileOnPath(Dir(m), p) <==>
      (p[0] !in m || (m[p[0]] != File && NoFileOnPath(m[p[0]], p[1..])))
  {
    var t := Dir(m);
    forall i | 1 <= i <= |p|
      ensures Get(t, p[..i]) == if p[0] in m then Get(m[p[0]], p[1..][..i - 1]) else None
    {
      assert p[..i][0] == p[0] && p[..i][1..] == p[1..][..i - 1];
    }
    if p[0] !in m {
      forall i | 0 <= i <= |p| ensures Get(t, p[..i]) != Some(File) {
        if i > 0 { assert Get(t, p[..i]) == None; }
      }
    } else {
      if NoFileOnPath(t, p) {
        assert Get(t, p[..1]) != Some(File);
        assert p[1..][..0] == [];
        forall j | 0 <= j <= |p[1..]|
          ensures Get(m[p[0]], p[1..][..j]) != Some(File)
        {
          assert Get(t, p[..j + 1]) != Some(File);
        }
      }
      if m[p[0]] != File && NoFileOnPath(m[p[0]], p[1..]) {
        forall i | 0 <= i <= |p|
          ensures Get(t, p[..i]) != Some(File)
        {
          if i > 0 {
            assert Get(m[p[0]], p[1..][..i - 1]) != Some(File);
          } else {
            assert p[..i] == [];
          }
        }
      }
    }
  }

  /** Whether a file stands on the way to `p` depends only on the tree below `p`'s first step past a folder `a`. */
  lemma NoFileOnPathKept(t: Node, t': Node, a: Path, p: Path)
    requires a < p && IsDirAt(t, a) && IsDirAt(t', a)
    requires Get(t', p[..|a| + 1]) == Get(t, p[..|a| + 1])
    ensures NoFileOnPath(t', p) == NoFileOnPath(t, p)
  {
    forall i | 0 <= i <= |p| ensures Get(t', p[..i]) == Get(t, p[..i]) || (IsDirAt(t, p[..i]) && IsDirAt(t', p[..i])) {
      if i <= |a| {
        if i < |a| {
          AncestorIsDir(t, p[..i], a);
          AncestorIsDir(t', p[..i], a);
        } else {
          assert p[..i] == a;
        }
      } else {
        SameBelow(t, t', p[..|a| + 1], p[..i]);
      }
    }
  }

  /**
   * `os.makedirs(p, exist_ok=True)`: create every missing directory on the way to `p`.
   * It fails exactly when a plain file stands in the way (or at `p` itself).
   */
  function MakeDirs(t: Node, p: Path): (r: Result<Node>)
    ensures r.Ok? <==> NoFileOnPath(t, p)
    decreases |p|
  {
    match t
    case File =>
      assert Get(t, p[..0]) == Some(File);
      Err(FileInTheWay)
    case Dir(m) =>
      if p == [] then Ok(t)
      else
        NoFileOnPathStep(m, p);
        var sub := if p[0] in m then m[p[0]] else Dir(map[]);
        assert p[0] !in m ==> NoFileOnPath(sub, p[1..]) by {
          if p[0] !in m {
            forall i | 0 <= i <= |p[1..]| ensures Get(sub, p[1..][..i]) != Some(File) { }
          }
        }
        match MakeDirs(sub, p[1..])
        case Err(e) => Err(e)
        case Ok(s) => Ok(Dir(m[p[0] := s]))
  }

  /** After `MakeDirs`: `p` is a directory (the old one if it existed), only the directories above it gained names, nothing else changed. */
  lemma {:induction false} MakeDirsEffect(t: Node, p: Path, q: Path)
    requires MakeDirs(t, p).Ok?
    ensures Get(MakeDirs(t, p).value, p) == Some(if IsDirAt(t, p) then Get(t, p).value else Dir(map[]))
    ensures !(q <= p) ==> Get(MakeDirs(t, p).value, q) == Get(t, q)
    ensures q < p ==> IsDirAt(MakeDirs(t, p).value, q) &&
                      Names(MakeDirs(t, p).value, q) == Names(t, q) + {p[|q|]}
    decreases |p|
  {
    var r := MakeDirs(t, p).value;
    var m := t.children;
    if p != [] {
      var sub := if p[0] in m then m[p[0]] else Dir(map[]);
      var s := MakeDirs(sub, p[1..]).value;
      assert r == Dir(m[p[0] := s]);
      var q' := if q != [] && q[0] == p[0] then q[1..] else [];
      MakeDirsEffect(sub, p[1..], q');
      assert Get(r, p) == Get(s, p[1..]);
      assert p[0] in m ==> Get(t, p) == Get(sub, p[1..]);
      if p[0] !in m {
        assert Get(t, p) == None;
        assert !IsDirAt(sub, p[1..]) ==> p[1..] != [];
      }
      if q != [] && q[0] == p[0] {
        assert Get(r, q) == Get(s, q[1..]);
        if p[0] !in m {
          assert Get(t, q) == None;
          if !(q <= p) {
            assert q[1..] != [];
          }
        } else {
          assert Get(t, q) == Get(sub, q[1..]);
        }
        assert q < p ==> q[1..] < p[1..] && p[|q|] == p[1..][|q[1..]|];
        assert !(q <= p) ==> !(q[1..] <= p[1..]);
      }
      if q == [] {
        assert Names(r, q) == m.Keys + {p[0]};
      }
    }
  }

  /** After `MakeDirs`, a folder on the way to `p` lists one more name and a folder elsewhere lists what it did. */
  lemma MakeDirsAt(t: Node, p: Path, q: Path)
    requires MakeDirs(t, p).Ok? && (q < p || (!(q <= p) && IsDirAt(t, q)))
    ensures IsDirAt(MakeDirs(t, p).value, q)
    ensures Names(MakeDirs(t, p).value, q) == Names(t, q) + (if q < p then {p[|q|]} else {})
  {
    MakeDirsEffect(t, p, q);
  }

  /** What `shutil.move(src, dst)` demands when `dst` is meant to be an existing directory. */
  predicate MoveAllowed(t: Node, src: Path, dst: Path)
  {
    && IsDirAt(t, dst)
    && (src == dst ||
        (src != [] && Get(t, src).Some? && Last(src) !in Names(t, dst) && !(src <= dst)))
  }

  /**
   * `shutil.move(src, dst)` with `dst` a directory: the entry at `src` is reattached under
   * its own name inside `dst`. Moving a directory onto itself does nothing; a name already
   * taken in `dst`, a missing source and a move into the source's own subtree fail. When `dst`
   * does not exist, `shutil.move` would rename `src` to it instead; `move_files` never meets
   * that case, because each destination is created by `os.makedirs` just before its loop (the
   * flat target, the light folder and `<input>/<target>` above it), so here it is an error.
   */
  function Move(t: Node, src: Path, dst: Path): (r: Result<Node>)
    ensures r.Ok? <==> MoveAllowed(t, src, dst)
  {
    if !IsDirAt(t, dst) then Err(NotADirectory)
    else if src == dst then Ok(t)
    else if src == [] || Get(t, src).None? then Err(NotFound)
    else if Last(src) in Names(t, dst) then Err(AlreadyExists)
    else if src <= dst then Err(IntoItself)
    else
      ParentIsDir(t, src);
      var detached := Put(t, src, None);
      assert IsDirAt(detached, dst) by {
        if dst < src {
          GetPutAbove(t, src, None, dst);
        } else {
          GetPutDisjoint(t, src, None, dst);
        }
      }
      assert Parent(dst + [Last(src)]) == dst;
      Ok(Put(detached, dst + [Last(src)], Get(t, src)))
  }

  /**
   * After a real move: the entry now sits at `dst + [name]` with its whole subtree, nothing
   * is left at or below `src`, paths unrelated to both places are untouched, and above
   * them only the source's parent lost the name and `dst` gained it.
   */
  lemma MoveEffect(t: Node, src: Path, dst: Path, q: Path)
    requires Move(t, src, dst).Ok? && src != dst
    ensures src != [] && Disjoint(src, dst + [Last(src)])
    ensures Get(Move(t, src, dst).value, dst + [Last(src)]) == Get(t, src)
    ensures src <= q ==> Get(Move(t, src, dst).value, q).None?
    ensures Disjoint(q, src) && Disjoint(q, dst + [Last(src)]) ==>
              Get(Move(t, src, dst).value, q) == Get(t, q)
    ensures q < src || q <= dst ==>
              IsDirAt(Move(t, src, dst).value, q) &&
              Names(Move(t, src, dst).value, q) ==
                (Names(t, q) - (if q == Parent(src) then {Last(src)} else {}))
                + (if q == dst then {Last(src)} else {})
  {
    var n := Last(src);
    var d := dst + [n];
    var r := Move(t, src, dst).value;
    ParentIsDir(t, src);
    var detached := Put(t, src, None);
    assert Parent(d) == dst;
    if d <= src {
      if d == src {
        assert Parent(src) == dst;
        ChildIsListed(t, dst, n);
      } else {
        AncestorIsDir(t, d, src);
        assert Get(t, d).Some?;
        ChildIsListed(t, dst, n);
      }
      assert false;
    }
    assert !(src <= d);
    assert IsDirAt(detached, dst) by {
      if dst < src { GetPutAbove(t, src, None, dst); } else { GetPutDisjoint(t, src, None, dst); }
    }
    assert r == Put(detached, d, Get(t, src));
    GetPutBelow(detached, d, Get(t, src), d);
    assert d[|d|..] == [];
    if src <= q {
      GetPutBelow(t, src, None, q);
      if d <= q {
        assert false;
      } else if q < d {
        assert false;
      } else {
        GetPutDisjoint(detached, d, Get(t, src), q);
      }
    }
    if Disjoint(q, src) && Disjoint(q, d) {
      GetPutDisjoint(t, src, None, q);
      GetPutDisjoint(detached, d, Get(t, src), q);
    }
    if q < src || q <= dst {
      if q < src {
        GetPutAbove(t, src, None, q);
      } else if Disjoint(q, src) {
        GetPutDisjoint(t, src, None, q);
        if q < dst { AncestorIsDir(t, q, dst); }
      } else {
        assert false;
      }
      if q < d {
        GetPutAbove(detached, d, Get(t, src), q);
      } else {
        assert Disjoint(q, d);
        GetPutDisjoint(detached, d, Get(t, src), q);
      }
      if q == Parent(src) && q == dst {
        ChildIsListed(t, dst, n);
        assert false;
      }
    }
  }

  /** `os.rmdir(p)`: only an existing empty directory can be removed. */
  function RemoveDir(t: Node, p: Path): (r: Result<Node>)
    ensures r.Ok? <==> p != [] && Get(t, p) == Some(Dir(map[]))
  {
    if p == [] then Err(NotFound)
    else match Get(t, p)
      case None => Err(NotFound)
      case Some(File) => Err(NotADirectory)
      case Some(Dir(m)) =>
        if m != map[] then Err(NotEmpty)
        else
          ParentIsDir(t, p);
          Ok(Put(t, p, None))
  }

  /** After `RemoveDir`: nothing at or below `p`, its parent lost the name, all else unchanged. */
  lemma RemoveDirEffect(t: Node, p: Path, q: Path)
    requires RemoveDir(t, p).Ok?
    ensures p <= q ==> Get(RemoveDir(t, p).value, q).None?
    ensures Disjoint(q, p) ==> Get(RemoveDir(t, p).value, q) == Get(t, q)
    ensures q < p ==> IsDirAt(RemoveDir(t, p).value, q) &&
                      Names(RemoveDir(t, p).value, q) ==
                        Names(t, q) - (if q == Parent(p) then {Last(p)} else {})
  {
    ParentIsDir(t, p);
    if p <= q { GetPutBelow(t, p, None, q); }
    if Disjoint(q, p) { GetPutDisjoint(t, p, None, q); }
    if q < p { GetPutAbove(t, p, None, q); }
  }

  /** After `RemoveDir`, a folder above `p` or apart from it is still a folder, and only the parent lost a name. */
  lemma RemoveDirAt(t: Node, p: Path, q: Path)
    requires RemoveDir(t, p).Ok? && (q < p || (Disjoint(q, p) && IsDirAt(t, q)))
    ensures IsDirAt(RemoveDir(t, p).value, q)
    ensures q == Parent(p) ==> Names(RemoveDir(t, p).value, q) == Names(t, q) - {Last(p)}
    ensures q != Parent(p) ==> Names(RemoveDir(t, p).value, q) == Names(t, q)
  {
    RemoveDirEffect(t, p, q);
  }
}
