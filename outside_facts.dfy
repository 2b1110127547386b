/**
 * What the steps for one date folder `d` can do to the folders around it: they create
 * folders, move entries out of `d/FLAT` and `d/LIGHT` and remove folders there and `d`
 * itself when it is left empty, so a folder that is neither `d` nor inside its FLAT or LIGHT
 * is still a folder afterwards, whether the steps complete or stop.
 */
module OutsideFacts {
  import opened FileTree
  import opened FsOps
  import opened Layout
  import opened Steps

  /** `q` is neither `d` nor inside `d/FLAT` or `d/LIGHT`. */
  predicate Outside(d: Path, q: Path)
  {
    !(d <= q) || (|d| < |q| && q[|d|] != Flat && q[|d|] != Light)
  }

  /** `os.makedirs` never turns a folder into anything else. */
  lemma MakeDirsKeepsDir(t: Node, p: Path, q: Path)
    requires MakeDirs(t, p).Ok? && IsDirAt(t, q)
    ensures IsDirAt(MakeDirs(t, p).value, q)
  {
    MakeDirsEffect(t, p, q);
    if q == p {
      assert Get(MakeDirs(t, p).value, q) == Get(t, q);
    }
  }

  /** `shutil.move` keeps every folder that is not the moved entry or inside it. */
  lemma MoveKeepsDir(t: Node, src: Path, dst: Path, q: Path)
    requires Move(t, src, dst).Ok? && !(src <= q) && IsDirAt(t, q)
    ensures IsDirAt(Move(t, src, dst).value, q)
  {
    if src != dst {
      var n := Last(src);
      MoveEffect(t, src, dst, q);
      if dst + [n] <= q {
        // the new place was free before the move, so nothing existed at or below it
        ChildIsListed(t, dst, n);
        GetBelowMissing(t, dst + [n], q);
        assert false;
      }
    }
  }

  /** `os.rmdir` keeps every folder that is not the removed one or inside it. */
  lemma RemoveKeepsDir(t: Node, p: Path, q: Path)
    requires RemoveDir(t, p).Ok? && !(p <= q) && IsDirAt(t, q)
    ensures IsDirAt(RemoveDir(t, p).value, q)
  {
    RemoveDirEffect(t, p, q);
  }

  lemma RemoveStepKeepsDir(t: Node, p: Path, e: Event, q: Path)
    requires !(p <= q) && IsDirAt(t, q)
    ensures IsDirAt(RemoveStep(t, p, e).tree, q)
  {
    if RemoveDir(t, p).Ok? {
      RemoveKeepsDir(t, p, q);
    }
  }

  /** Emptying `src` keeps every folder outside `src`. */
  lemma {:induction false} MoveAllKeepsDir(t: Node, src: Path, dst: Path, special: Option<Path>,
                                           names: seq<string>, q: Path)
    requires !(src <= q) && IsDirAt(t, q)
    ensures IsDirAt(MoveAll(t, src, dst, special, names).tree, q)
    decreases |names|
  {
    if names != [] {
      var e := names[0];
      var m := Move(t, src + [e], Route(dst, special, e));
      if m.Ok? {
        MoveKeepsDir(t, src + [e], Route(dst, special, e), q);
        MoveAllKeepsDir(m.value, src, dst, special, names[1..], q);
      }
    }
  }

  lemma MoveListedKeepsDir(arr: Arrangement, t: Node, src: Path, dst: Path, special: Option<Path>, q: Path)
    requires !(src <= q) && IsDirAt(t, q)
    ensures IsDirAt(MoveListed(arr, t, src, dst, special).tree, q)
  {
    if IsDirAt(t, src) {
      MoveAllKeepsDir(t, src, dst, special, ListDir(arr, t, src), q);
    }
  }

  /** The FLAT branch of `d` keeps every folder outside `d/FLAT`. */
  lemma FlatKeepsDir(arr: Arrangement, t: Node, root: Path, d: Path, q: Path)
    requires Outside(d, q) && IsDirAt(t, q)
    ensures IsDirAt(FlatOutcome(arr, t, root, d).tree, q)
  {
    var f := FlatFolder(d);
    var fw := WizardFolder(d);
    var target := FlatTarget(root, Basename(d));
    assert !(f <= q) && !(fw <= q);
    var mk := MakeDirs(t, target);
    if mk.Ok? {
      var t1 := mk.value;
      MakeDirsKeepsDir(t, target, q);
      var wizard := Get(t1, fw).Some?;
      var source := if wizard then fw else f;
      var moved :=
        if Get(t1, source).None? then Outcome(true, t1, [SourceNotFound(source)])
        else MoveListed(arr, t1, source, target, None);
      if Get(t1, source).Some? {
        MoveListedKeepsDir(arr, t1, source, target, None, q);
      }
      var gone := if wizard then RemoveStep(moved.tree, fw, Removing(fw)) else Outcome(true, moved.tree, []);
      if wizard {
        RemoveStepKeepsDir(moved.tree, fw, Removing(fw), q);
      }
      var wizardGone := Chain(moved, gone);
      RemoveStepKeepsDir(wizardGone.tree, f, RemovingFlat(f), q);
    }
  }

  /** One target folder of `d` keeps every folder outside it. */
  lemma TargetKeepsDir(arr: Arrangement, t: Node, root: Path, d: Path, s: string, q: Path)
    requires Outside(d, q) && IsDirAt(t, q)
    ensures IsDirAt(TargetOutcome(arr, t, root, d, s).tree, q)
  {
    var p := TargetFolder(d, s);
    var lt := LightTarget(root, s, Basename(d));
    assert !(p <= q);
    var mk := MakeDirs(t, lt);
    if mk.Ok? {
      MakeDirsKeepsDir(t, lt, q);
      var moved := MoveListed(arr, mk.value, p, lt, Some(TargetDir(root, s)));
      MoveListedKeepsDir(arr, mk.value, p, lt, Some(TargetDir(root, s)), q);
      RemoveStepKeepsDir(moved.tree, p, Removing(p), q);
    }
  }

  lemma {:induction false} TargetsKeepDir(arr: Arrangement, t: Node, root: Path, d: Path, subs: seq<string>, q: Path)
    requires Outside(d, q) && IsDirAt(t, q)
    ensures IsDirAt(TargetsOutcome(arr, t, root, d, subs).tree, q)
    decreases |subs|
  {
    if subs != [] {
      if IsDirAt(t, TargetFolder(d, subs[0])) {
        var o := TargetOutcome(arr, t, root, d, subs[0]);
        TargetKeepsDir(arr, t, root, d, subs[0], q);
        TargetsKeepDir(arr, o.tree, root, d, subs[1..], q);
      } else {
        TargetsKeepDir(arr, t, root, d, subs[1..], q);
      }
    }
  }

  /** The LIGHT branch of `d` keeps every folder outside `d/LIGHT`. */
  lemma LightKeepsDir(arr: Arrangement, t: Node, root: Path, d: Path, q: Path)
    requires Outside(d, q) && IsDirAt(t, q)
    ensures IsDirAt(LightOutcome(arr, t, root, d).tree, q)
  {
    var l := LightFolder(d);
    if IsDirAt(t, l) {
      var o := TargetsOutcome(arr, t, root, d, ListDir(arr, t, l));
      TargetsKeepDir(arr, t, root, d, ListDir(arr, t, l), q);
      assert !(l <= q);
      RemoveStepKeepsDir(o.tree, l, RemovingLight(l), q);
    }
  }

  lemma {:induction false} ChildrenKeepDir(arr: Arrangement, t: Node, root: Path, d: Path, dirs: seq<string>, q: Path)
    requires Outside(d, q) && IsDirAt(t, q)
    ensures IsDirAt(ChildrenOutcome(arr, t, root, d, dirs).tree, q)
    decreases |dirs|
  {
    if dirs != [] {
      var o := ChildOutcome(arr, t, root, d, dirs[0]);
      if dirs[0] == Flat {
        FlatKeepsDir(arr, t, root, d, q);
      } else if dirs[0] == Light {
        LightKeepsDir(arr, t, root, d, q);
      }
      ChildrenKeepDir(arr, o.tree, root, d, dirs[1..], q);
    }
  }

  /**
   * Everything the program does for date folder `d` keeps a folder: every folder outside
   * `d` and every folder inside `d` but not inside its FLAT or LIGHT (which also keeps `d`
   * from being removed).
   */
  lemma DateFolderKeepsDir(arr: Arrangement, t: Node, root: Path, d: Path,
                           dirs: seq<string>, files: seq<string>, q: Path)
    requires Outside(d, q) && IsDirAt(t, q)
    ensures IsDirAt(DateFolderOutcome(arr, t, root, d, dirs, files).tree, q)
  {
    var o := ChildrenOutcome(arr, t, root, d, dirs);
    ChildrenKeepDir(arr, t, root, d, dirs, q);
    if o.ok && IsDirAt(o.tree, d) && Names(o.tree, d) == {} {
      if d <= q {
        var c := d + [q[|d|]];
        if c == q {
          ChildIsListed(o.tree, d, q[|d|]);
        } else {
          assert c < q;
          AncestorIsDir(o.tree, c, q);
          ChildIsListed(o.tree, d, q[|d|]);
        }
        assert false;
      }
      RemoveStepKeepsDir(o.tree, d, Removing(d), q);
    }
  }
}
