/**
 * What the FLAT branch (lines 42-66) does to one date folder `d`: its flats, taken from
 * `FLAT/FlatWizard` when that exists and from `FLAT` otherwise, end up in
 * `<input>/_FlatWizard/DATE_<date>/FLAT`, and `FLAT` is gone.
 */
module FlatFacts {
  import opened FileTree
  import opened FsOps
  import opened Layout
  import opened Steps
  import opened MoveFacts

  /** The folder whose entries the branch moves: `FLAT/FlatWizard` if it exists, else `FLAT`. */
  function FlatSource(t: Node, d: Path): Path
  {
    if Get(t, WizardFolder(d)).Some? then WizardFolder(d) else FlatFolder(d)
  }

  /**
   * The branch can run to the end: the target can be created, the source is a folder whose
   * names are all new to the target, and when FlatWizard is used it is all that FLAT holds.
   */
  ghost predicate FlatReady(t: Node, root: Path, d: Path)
  {
    var src := FlatSource(t, d);
    var target := FlatTarget(root, Basename(d));
    && NoFileOnPath(t, target)
    && IsDirAt(t, src)
    && Names(t, src) !! Names(t, target)
    && (src == WizardFolder(d) ==> Names(t, FlatFolder(d)) == {FlatWizard})
  }

  /** The tree once `os.makedirs` has created the flat target. */
  ghost function FlatMadeTree(t: Node, root: Path, d: Path): Node
  {
    match MakeDirs(t, FlatTarget(root, Basename(d)))
    case Ok(t1) => t1
    case Err(_) => t
  }

  /** The tree once the flats are moved into the target. */
  ghost function FlatMovedTree(arr: Arrangement, t: Node, root: Path, d: Path): Node
  {
    MoveListed(arr, FlatMadeTree(t, root, d), FlatSource(t, d), FlatTarget(root, Basename(d)), None).tree
  }

  /** The tree once `FlatWizard`, if it was used, is removed. */
  ghost function FlatClearedTree(arr: Arrangement, t: Node, root: Path, d: Path): Node
  {
    var t2 := FlatMovedTree(arr, t, root, d);
    if FlatSource(t, d) != WizardFolder(d) then t2
    else match RemoveDir(t2, WizardFolder(d))
      case Ok(t3) => t3
      case Err(_) => t2
  }

  /** The tree after `os.makedirs` of the flat target, as seen from the rest of the branch. */
  lemma FlatMade(t: Node, root: Path, d: Path)
    requires DateChain(root, d) && MakeDirs(t, FlatTarget(root, Basename(d))).Ok?
    ensures MakeDirs(t, FlatTarget(root, Basename(d))) == Ok(FlatMadeTree(t, root, d))
    ensures IsDirAt(FlatMadeTree(t, root, d), FlatTarget(root, Basename(d)))
    ensures Names(FlatMadeTree(t, root, d), FlatTarget(root, Basename(d))) == Names(t, FlatTarget(root, Basename(d)))
    ensures forall q :: !(q <= FlatTarget(root, Basename(d))) ==> Get(FlatMadeTree(t, root, d), q) == Get(t, q)
    ensures forall q :: FlatFolder(d) <= q ==> Get(FlatMadeTree(t, root, d), q) == Get(t, q)
    ensures FlatSource(FlatMadeTree(t, root, d), d) == FlatSource(t, d)
  {
    var target := FlatTarget(root, Basename(d));
    var t1 := FlatMadeTree(t, root, d);
    MakeDirsEffect(t, target, target);
    forall q | !(q <= target) ensures Get(t1, q) == Get(t, q) {
      MakeDirsEffect(t, target, q);
    }
    FlatRoutesApart(root, d);
    forall q | FlatFolder(d) <= q ensures Get(t1, q) == Get(t, q) {
      DisjointBelow(FlatFolder(d), target, q, target);
    }
    assert FlatFolder(d) <= WizardFolder(d);
  }

  /** The calls of a branch that ran to the end, and the trees between them. */
  lemma FlatStages(arr: Arrangement, t: Node, root: Path, d: Path)
    requires DateChain(root, d) && FlatOutcome(arr, t, root, d).ok
    ensures MakeDirs(t, FlatTarget(root, Basename(d))).Ok?
    ensures Get(t, FlatSource(t, d)).Some?
    ensures MoveListed(arr, FlatMadeTree(t, root, d), FlatSource(t, d), FlatTarget(root, Basename(d)), None).ok
    ensures FlatSource(t, d) == WizardFolder(d) ==>
      RemoveDir(FlatMovedTree(arr, t, root, d), WizardFolder(d)) == Ok(FlatClearedTree(arr, t, root, d))
    ensures FlatSource(t, d) != WizardFolder(d) ==> FlatClearedTree(arr, t, root, d) == FlatMovedTree(arr, t, root, d)
    ensures RemoveDir(FlatClearedTree(arr, t, root, d), FlatFolder(d)) == Ok(FlatOutcome(arr, t, root, d).tree)
  {
    var f, fw, target := FlatFolder(d), WizardFolder(d), FlatTarget(root, Basename(d));
    assert MakeDirs(t, target).Ok?;
    FlatMade(t, root, d);
    var t1 := FlatMadeTree(t, root, d);
    var src := FlatSource(t, d);
    if Get(t1, src).None? {
      assert false;
    }
    assert Get(t1, src) == Get(t, src);
    var moved := MoveListed(arr, t1, src, target, None);
    assert moved.ok;
    if src == fw {
      assert RemoveDir(moved.tree, fw).Ok?;
    }
    assert RemoveDir(FlatClearedTree(arr, t, root, d), f).Ok?;
  }

  /** Moving into an existing folder: every name can go there exactly when it holds none of them yet. */
  lemma CanMoveInto(t: Node, dst: Path, ns: set<string>)
    requires IsDirAt(t, dst)
    ensures CanMoveAll(t, dst, None, ns) <==> ns !! Names(t, dst)
  {
    if !(ns !! Names(t, dst)) {
      var e :| e in ns && e in Names(t, dst);
      assert Route(dst, None, e) == dst;
    }
  }

  /** A name of a set is its only name exactly when removing it leaves nothing. */
  lemma OnlyName(s: set<string>, x: string)
    requires x in s
    ensures s - {x} == {} <==> s == {x}
  {
    if s - {x} == {} {
      forall y | y in s ensures y == x {
        assert y !in s - {x};
      }
    }
  }

  /** Once the flats are moved, the branch completes exactly when FLAT is left empty. */
  lemma FlatRemovals(arr: Arrangement, t: Node, root: Path, d: Path)
    requires Lists(arr) && DateChain(root, d) && MakeDirs(t, FlatTarget(root, Basename(d))).Ok?
    requires Get(t, FlatSource(t, d)).Some?
    requires MoveListed(arr, FlatMadeTree(t, root, d), FlatSource(t, d), FlatTarget(root, Basename(d)), None).ok
    ensures FlatOutcome(arr, t, root, d).ok <==>
      (FlatSource(t, d) == WizardFolder(d) ==> Names(t, FlatFolder(d)) == {FlatWizard})
  {
    var f, fw, target := FlatFolder(d), WizardFolder(d), FlatTarget(root, Basename(d));
    FlatMade(t, root, d);
    var t1 := FlatMadeTree(t, root, d);
    var src := FlatSource(t, d);
    FlatRoutesApart(root, d);
    DisjointBelow(f, target, src, target);
    assert Get(t1, src) == Get(t, src);
    MoveListedEmpties(arr, t1, src, target, None);
    if src == fw {
      FlatWizardRemoved(arr, t, root, d);
    }
  }

  /** FlatWizard, once emptied, can be removed, and then FLAT lists what it did except FlatWizard. */
  lemma FlatWizardCleared(arr: Arrangement, t: Node, root: Path, d: Path)
    requires Lists(arr) && DateChain(root, d) && MakeDirs(t, FlatTarget(root, Basename(d))).Ok?
    requires FlatSource(t, d) == WizardFolder(d)
    requires MoveListed(arr, FlatMadeTree(t, root, d), FlatSource(t, d), FlatTarget(root, Basename(d)), None).ok
    ensures RemoveDir(FlatMovedTree(arr, t, root, d), WizardFolder(d)).Ok?
    ensures FlatWizard in Names(t, FlatFolder(d))
    ensures IsDirAt(FlatClearedTree(arr, t, root, d), FlatFolder(d))
    ensures Names(FlatClearedTree(arr, t, root, d), FlatFolder(d)) == Names(t, FlatFolder(d)) - {FlatWizard}
  {
    var f, fw, target := FlatFolder(d), WizardFolder(d), FlatTarget(root, Basename(d));
    FlatMade(t, root, d);
    var t1 := FlatMadeTree(t, root, d);
    var t2 := FlatMovedTree(arr, t, root, d);
    FlatRoutesApart(root, d);
    DisjointBelow(f, target, fw, target);
    assert Get(t1, fw) == Get(t, fw) && Get(t1, f) == Get(t, f);
    MoveListedEmpties(arr, t1, fw, target, None);
    MoveListedPassing(arr, t1, fw, target, None, f);
    assert Parent(fw) == f && Last(fw) == FlatWizard && fw == f + [FlatWizard];
    RemoveDirAt(t2, fw, f);
    ChildIsListed(t, f, FlatWizard);
  }

  /** With FlatWizard emptied and removed, FLAT is left empty exactly when FlatWizard was all it held. */
  lemma FlatWizardRemoved(arr: Arrangement, t: Node, root: Path, d: Path)
    requires Lists(arr) && DateChain(root, d) && MakeDirs(t, FlatTarget(root, Basename(d))).Ok?
    requires FlatSource(t, d) == WizardFolder(d)
    requires MoveListed(arr, FlatMadeTree(t, root, d), FlatSource(t, d), FlatTarget(root, Basename(d)), None).ok
    ensures RemoveDir(FlatMovedTree(arr, t, root, d), WizardFolder(d)).Ok?
    ensures RemoveDir(FlatClearedTree(arr, t, root, d), FlatFolder(d)).Ok? <==> Names(t, FlatFolder(d)) == {FlatWizard}
  {
    FlatWizardCleared(arr, t, root, d);
    var t3 := FlatClearedTree(arr, t, root, d);
    OnlyName(Names(t, FlatFolder(d)), FlatWizard);
    if Names(t3, FlatFolder(d)) == {} {
      EmptyDir(t3, FlatFolder(d));
    }
  }

  /** The FLAT branch runs to the end exactly when the folders are ready for it. */
  lemma FlatSucceeds(arr: Arrangement, t: Node, root: Path, d: Path)
    requires Lists(arr) && DateChain(root, d)
    ensures FlatOutcome(arr, t, root, d).ok <==> FlatReady(t, root, d)
  {
    var f, fw, target := FlatFolder(d), WizardFolder(d), FlatTarget(root, Basename(d));
    if MakeDirs(t, target).Ok? {
      FlatMade(t, root, d);
      var t1 := FlatMadeTree(t, root, d);
      var src := FlatSource(t, d);
      FlatRoutesApart(root, d);
      DisjointBelow(f, target, src, target);
      assert Get(t1, src) == Get(t, src) && Get(t1, f) == Get(t, f);
      if Get(t, src).Some? {
        MoveListedSucceeds(arr, t1, src, target, None);
        CanMoveInto(t1, target, Names(t1, src));
        if MoveListed(arr, t1, src, target, None).ok {
          FlatRemovals(arr, t, root, d);
        }
      }
    }
  }

  /** Away from FLAT and not on the way to the target, a path is untouched by the flat moves. */
  lemma FlatUntouched(src: Path, f: Path, target: Path, ns: set<string>, q: Path)
    requires f <= src && Disjoint(q, f) && !(q <= target) && (target < q ==> q[|target|] !in ns)
    ensures Untouched(src, target, None, ns, q)
  {
    forall e | e in ns ensures Disjoint(q, src + [e]) && Disjoint(q, Dest(target, None, e)) {
      DisjointBelow(q, f, q, src + [e]);
      OffTheWay(target, e, q);
    }
  }

  /** After the branch nothing is left at or below FLAT. */
  lemma FlatGone(arr: Arrangement, t: Node, root: Path, d: Path, q: Path)
    requires DateChain(root, d) && FlatOutcome(arr, t, root, d).ok && FlatFolder(d) <= q
    ensures Get(FlatOutcome(arr, t, root, d).tree, q).None?
  {
    FlatStages(arr, t, root, d);
    RemoveDirEffect(FlatClearedTree(arr, t, root, d), FlatFolder(d), q);
  }

  /** Away from FLAT, from the way to the target and from the entries that arrive there, nothing changed. */
  lemma FlatFrame(arr: Arrangement, t: Node, root: Path, d: Path, q: Path)
    requires Lists(arr) && DateChain(root, d) && FlatOutcome(arr, t, root, d).ok
    requires Disjoint(q, FlatFolder(d)) && !(q <= FlatTarget(root, Basename(d)))
    requires FlatTarget(root, Basename(d)) < q ==> q[|FlatTarget(root, Basename(d))|] !in Names(t, FlatSource(t, d))
    ensures Get(FlatOutcome(arr, t, root, d).tree, q) == Get(t, q)
  {
    FlatStages(arr, t, root, d);
    var f, fw, target := FlatFolder(d), WizardFolder(d), FlatTarget(root, Basename(d));
    var src := FlatSource(t, d);
    FlatMade(t, root, d);
    var t1 := FlatMadeTree(t, root, d);
    FlatRoutesApart(root, d);
    DisjointBelow(f, target, src, target);
    assert Get(t1, src) == Get(t, src) && Get(t1, q) == Get(t, q);
    FlatUntouched(src, f, target, Names(t1, src), q);
    MoveListedEffect(arr, t1, src, target, None, q);
    if src == fw {
      DisjointBelow(q, f, q, fw);
      RemoveDirEffect(FlatMovedTree(arr, t, root, d), fw, q);
    }
    RemoveDirEffect(FlatClearedTree(arr, t, root, d), f, q);
  }

  /** Away from FLAT and from `<input>/_FlatWizard`, the branch changes nothing. */
  lemma FlatFar(arr: Arrangement, t: Node, root: Path, d: Path, q: Path)
    requires Lists(arr) && DateChain(root, d) && FlatOutcome(arr, t, root, d).ok
    requires Disjoint(q, FlatFolder(d)) && Disjoint(q, root + [FlatWizardRoot])
    ensures Get(FlatOutcome(arr, t, root, d).tree, q) == Get(t, q)
  {
    var target := FlatTarget(root, Basename(d));
    assert root + [FlatWizardRoot] <= target;
    DisjointBelow(q, root + [FlatWizardRoot], q, target);
    FlatFrame(arr, t, root, d, q);
  }

  /** Whether the branch can run depends only on FLAT, `<input>/_FlatWizard` and the folders above them. */
  lemma FlatReadyKept(t: Node, t': Node, root: Path, d: Path)
    requires IsDirAt(t, root) && IsDirAt(t', root)
    requires Get(t', FlatFolder(d)) == Get(t, FlatFolder(d))
    requires Get(t', root + [FlatWizardRoot]) == Get(t, root + [FlatWizardRoot])
    ensures FlatSource(t', d) == FlatSource(t, d)
    ensures FlatReady(t', root, d) == FlatReady(t, root, d)
  {
    var f, fw, target := FlatFolder(d), WizardFolder(d), FlatTarget(root, Basename(d));
    assert target[..|root| + 1] == root + [FlatWizardRoot];
    NoFileOnPathKept(t, t', root, target);
    SameBelow(t, t', f, fw);
    SameBelow(t, t', root + [FlatWizardRoot], target);
  }

  /** After the branch the target lists what it held plus every entry of the source. */
  lemma FlatTargetListing(arr: Arrangement, t: Node, root: Path, d: Path)
    requires Lists(arr) && DateChain(root, d) && FlatOutcome(arr, t, root, d).ok
    ensures var r := FlatOutcome(arr, t, root, d).tree;
      var target := FlatTarget(root, Basename(d));
      IsDirAt(r, target) && Names(r, target) == Names(t, target) + Names(t, FlatSource(t, d))
  {
    FlatStages(arr, t, root, d);
    var f, fw, target := FlatFolder(d), WizardFolder(d), FlatTarget(root, Basename(d));
    var src := FlatSource(t, d);
    FlatMade(t, root, d);
    var t1 := FlatMadeTree(t, root, d);
    FlatRoutesApart(root, d);
    DisjointBelow(f, target, src, target);
    assert Get(t1, src) == Get(t, src);
    MoveListedAt(arr, t1, src, target, None, target);
    ArrivedAt(target, None, Names(t1, src), target);
    DisjointBelow(f, target, f, target);
    RemoveDirEffect(FlatClearedTree(arr, t, root, d), f, target);
    if src == fw {
      DisjointBelow(f, target, fw, target);
      RemoveDirEffect(FlatMovedTree(arr, t, root, d), fw, target);
    }
  }

  /** Between creating the target and removing FLAT, a folder above FLAT or above the target is unchanged. */
  lemma FlatAboveMiddle(arr: Arrangement, t: Node, root: Path, d: Path, q: Path)
    requires Lists(arr) && DateChain(root, d) && FlatOutcome(arr, t, root, d).ok
    requires q < FlatFolder(d) || q < FlatTarget(root, Basename(d))
    requires IsDirAt(FlatMadeTree(t, root, d), q)
    ensures IsDirAt(FlatClearedTree(arr, t, root, d), q)
    ensures Names(FlatClearedTree(arr, t, root, d), q) == Names(FlatMadeTree(t, root, d), q)
  {
    FlatStages(arr, t, root, d);
    var f, fw, target := FlatFolder(d), WizardFolder(d), FlatTarget(root, Basename(d));
    var src := FlatSource(t, d);
    FlatRoutesApart(root, d);
    DisjointBelow(f, target, src, target);
    MoveListedPassing(arr, FlatMadeTree(t, root, d), src, target, None, q);
    if src == fw {
      if !(q < f) {
        DisjointBelow(q, f, q, fw);
      }
      RemoveDirAt(FlatMovedTree(arr, t, root, d), fw, q);
    }
  }

  /** Above FLAT and above the target, folders stay folders, gain the new names and lose `FLAT`. */
  lemma FlatAbove(arr: Arrangement, t: Node, root: Path, d: Path, q: Path)
    requires Lists(arr) && DateChain(root, d) && FlatOutcome(arr, t, root, d).ok
    requires q < FlatFolder(d) || q < FlatTarget(root, Basename(d))
    ensures var r := FlatOutcome(arr, t, root, d).tree;
      var target := FlatTarget(root, Basename(d));
      IsDirAt(r, q) &&
      Names(r, q) == (Names(t, q) + (if q < target then {target[|q|]} else {}))
                     - (if q == d then {Flat} else {})
  {
    FlatStages(arr, t, root, d);
    var f, target := FlatFolder(d), FlatTarget(root, Basename(d));
    var src := FlatSource(t, d);
    FlatRoutesApart(root, d);
    if q < f {
      FlatMade(t, root, d);
      assert Get(FlatMadeTree(t, root, d), src) == Get(t, src);
      AncestorIsDir(t, q, src);
    }
    MakeDirsAt(t, target, q);
    FlatAboveMiddle(arr, t, root, d, q);
    assert Parent(f) == d && Last(f) == Flat;
    RemoveDirAt(FlatClearedTree(arr, t, root, d), f, q);
  }

  /** After the branch every entry of the source sits in the target with its whole subtree. */
  lemma FlatPlaces(arr: Arrangement, t: Node, root: Path, d: Path, e: string)
    requires Lists(arr) && DateChain(root, d) && FlatOutcome(arr, t, root, d).ok
    requires e in Names(t, FlatSource(t, d))
    ensures Get(FlatOutcome(arr, t, root, d).tree, FlatTarget(root, Basename(d)) + [e]) ==
            Get(t, FlatSource(t, d) + [e])
  {
    FlatStages(arr, t, root, d);
    var f, fw, target := FlatFolder(d), WizardFolder(d), FlatTarget(root, Basename(d));
    var src := FlatSource(t, d);
    FlatMade(t, root, d);
    var t1 := FlatMadeTree(t, root, d);
    FlatRoutesApart(root, d);
    DisjointBelow(f, target, src, target);
    assert Get(t1, src) == Get(t, src) && Get(t1, src + [e]) == Get(t, src + [e]);
    MoveListedEffect(arr, t1, src, target, None, target + [e]);
    DisjointBelow(f, target, f, target + [e]);
    RemoveDirEffect(FlatClearedTree(arr, t, root, d), f, target + [e]);
    if src == fw {
      DisjointBelow(f, target, fw, target + [e]);
      RemoveDirEffect(FlatMovedTree(arr, t, root, d), fw, target + [e]);
    }
  }

  /** Once the target exists and the source is found, the branch logs only informational lines. */
  lemma FlatLogFound(arr: Arrangement, t: Node, root: Path, d: Path)
    requires MakeDirs(t, FlatTarget(root, Basename(d))).Ok?
    requires Get(MakeDirs(t, FlatTarget(root, Basename(d))).value, FlatSource(MakeDirs(t, FlatTarget(root, Basename(d))).value, d)).Some?
    ensures AllInfo(FlatOutcome(arr, t, root, d).events)
  {
    var f, fw, target := FlatFolder(d), WizardFolder(d), FlatTarget(root, Basename(d));
    var t1 := MakeDirs(t, target).value;
    var src := FlatSource(t1, d);
    var moved := MoveListed(arr, t1, src, target, None);
    MoveListedLog(arr, t1, src, target, None);
    var wizardGone :=
      Chain(moved, if src == fw then RemoveStep(moved.tree, fw, Removing(fw)) else Outcome(true, moved.tree, []));
    AllInfoAppend(moved.events, if src == fw then [Removing(fw)] else []);
    AllInfoAppend(wizardGone.events, [RemovingFlat(f)]);
  }

  /**
   * The branch logs only informational lines when it runs to the end, and also whenever
   * FLAT is a folder: the "FlatWizard directory not found" error (lines 52-53) is then never
   * logged.
   */
  lemma FlatLog(arr: Arrangement, t: Node, root: Path, d: Path)
    ensures FlatOutcome(arr, t, root, d).ok ==> AllInfo(FlatOutcome(arr, t, root, d).events)
    ensures DateChain(root, d) && IsDirAt(t, FlatFolder(d)) ==> AllInfo(FlatOutcome(arr, t, root, d).events)
  {
    var f, target := FlatFolder(d), FlatTarget(root, Basename(d));
    match MakeDirs(t, target)
    case Err(_) =>
    case Ok(t1) =>
      var src := FlatSource(t1, d);
      if Get(t1, src).None? {
        assert src == f && RemoveDir(t1, f).Err?;
        if DateChain(root, d) && IsDirAt(t, f) {
          FlatMade(t, root, d);
          assert false;
        }
      } else {
        FlatLogFound(arr, t, root, d);
      }
  }

  /** The branch never writes a "skipping file" line. */
  lemma FlatNoSkips(arr: Arrangement, t: Node, root: Path, d: Path)
    ensures NoSkips(FlatOutcome(arr, t, root, d).events)
  {
    var f, fw, target := FlatFolder(d), WizardFolder(d), FlatTarget(root, Basename(d));
    match MakeDirs(t, target)
    case Err(_) =>
    case Ok(t1) =>
      var src := if Get(t1, fw).Some? then fw else f;
      var moved :=
        if Get(t1, src).None? then Outcome(true, t1, [SourceNotFound(src)]) else MoveListed(arr, t1, src, target, None);
      MoveListedLog(arr, t1, src, target, None);
      var wizardGone :=
        Chain(moved, if src == fw then RemoveStep(moved.tree, fw, Removing(fw)) else Outcome(true, moved.tree, []));
      NoSkipsAppend(moved.events, if src == fw then [Removing(fw)] else []);
      NoSkipsAppend(wizardGone.events, [RemovingFlat(f)]);
  }
}
