/**
 * What the LIGHT branch (lines 68-92) does to one date folder `d`: every target folder
 * `LIGHT/<s>` is emptied, a `WBPP` entry going to `<input>/<s>` and every other entry to
 * `<input>/<s>/DATE_<date>/LIGHT`; then the target folders and LIGHT itself are gone.
 */
module LightFacts {
  import opened FileTree
  import opened FsOps
  import opened Layout
  import opened Steps
  import opened MoveFacts

  // ---------------------------------------------------------------- one target folder (lines 74-89)

  /** The routes of one target folder's moves lie apart as the move loop needs them to. */
  lemma TargetRoutes(root: Path, d: Path, s: string)
    requires DateChain(root, d)
    ensures RoutesApart(TargetFolder(d, s), LightTarget(root, s, Basename(d)), Some(TargetDir(root, s)))
    ensures Disjoint(TargetFolder(d, s), TargetDir(root, s) + [Wbpp])
  {
    var lt := LightTarget(root, s, Basename(d));
    var w := TargetDir(root, s);
    LightRoutesApart(root, d, s);
    DateDirNameIsNotFixed(Basename(d));
    assert lt[..|w|] == w && |w| < |lt|;
    assert lt[|w|] == DateDirName(Basename(d));
  }

  /**
   * The target folder can be handled to the end: its new folder can be created, it is a
   * folder, none of its entries other than `WBPP` is already in the new folder, and a `WBPP`
   * entry is not already in `<input>/<s>`.
   */
  ghost predicate TargetReady(t: Node, root: Path, d: Path, s: string)
  {
    var p := TargetFolder(d, s);
    var lt := LightTarget(root, s, Basename(d));
    && NoFileOnPath(t, lt)
    && IsDirAt(t, p)
    && (forall e :: e in Names(t, p) && e != Wbpp ==> e !in Names(t, lt))
    && (Wbpp in Names(t, p) ==> Wbpp !in Names(t, TargetDir(root, s)))
  }

  /** The tree once `os.makedirs` has created `<input>/<s>/DATE_<date>/LIGHT`. */
  ghost function TargetMadeTree(t: Node, root: Path, d: Path, s: string): Node
  {
    match MakeDirs(t, LightTarget(root, s, Basename(d)))
    case Ok(t1) => t1
    case Err(_) => t
  }

  /** The tree once the target folder's entries are moved. */
  ghost function TargetMovedTree(arr: Arrangement, t: Node, root: Path, d: Path, s: string): Node
  {
    MoveListed(arr, TargetMadeTree(t, root, d, s), TargetFolder(d, s),
               LightTarget(root, s, Basename(d)), Some(TargetDir(root, s))).tree
  }

  /** The tree after `os.makedirs` of the new light folder, as seen from the rest of the step. */
  lemma TargetMade(t: Node, root: Path, d: Path, s: string)
    requires DateChain(root, d) && MakeDirs(t, LightTarget(root, s, Basename(d))).Ok?
    ensures MakeDirs(t, LightTarget(root, s, Basename(d))) == Ok(TargetMadeTree(t, root, d, s))
    ensures var m := TargetMadeTree(t, root, d, s);
      var lt := LightTarget(root, s, Basename(d));
      && IsDirAt(m, lt) && Names(m, lt) == Names(t, lt)
      && IsDirAt(m, TargetDir(root, s))
      && Names(m, TargetDir(root, s)) == Names(t, TargetDir(root, s)) + {DateDirName(Basename(d))}
    ensures forall q :: !(q <= LightTarget(root, s, Basename(d))) ==> Get(TargetMadeTree(t, root, d, s), q) == Get(t, q)
    ensures forall q :: TargetFolder(d, s) <= q ==> Get(TargetMadeTree(t, root, d, s), q) == Get(t, q)
  {
    var lt := LightTarget(root, s, Basename(d));
    var w := TargetDir(root, s);
    var m := TargetMadeTree(t, root, d, s);
    MakeDirsEffect(t, lt, lt);
    assert w < lt && lt[|w|] == DateDirName(Basename(d));
    MakeDirsAt(t, lt, w);
    forall q | !(q <= lt) ensures Get(m, q) == Get(t, q) {
      MakeDirsEffect(t, lt, q);
    }
    LightRoutesApart(root, d, s);
    forall q | TargetFolder(d, s) <= q ensures Get(m, q) == Get(t, q) {
      DisjointBelow(TargetFolder(d, s), lt, q, lt);
      MakeDirsEffect(t, lt, q);
    }
  }

  /** The calls of a step that ran to the end, and the trees between them. */
  lemma TargetStages(arr: Arrangement, t: Node, root: Path, d: Path, s: string)
    requires DateChain(root, d) && TargetOutcome(arr, t, root, d, s).ok
    ensures MakeDirs(t, LightTarget(root, s, Basename(d))).Ok?
    ensures MoveListed(arr, TargetMadeTree(t, root, d, s), TargetFolder(d, s),
                       LightTarget(root, s, Basename(d)), Some(TargetDir(root, s))).ok
    ensures RemoveDir(TargetMovedTree(arr, t, root, d, s), TargetFolder(d, s)) == Ok(TargetOutcome(arr, t, root, d, s).tree)
  {
    assert MakeDirs(t, LightTarget(root, s, Basename(d))).Ok?;
    TargetMade(t, root, d, s);
  }

  /** Moving with a WBPP route: every name can go exactly when its own route does not hold it yet. */
  lemma CanMoveSplit(t: Node, lt: Path, w: Path, ns: set<string>)
    requires IsDirAt(t, lt) && IsDirAt(t, w)
    ensures CanMoveAll(t, lt, Some(w), ns) <==>
      (forall e :: e in ns && e != Wbpp ==> e !in Names(t, lt)) && (Wbpp in ns ==> Wbpp !in Names(t, w))
  {
    if CanMoveAll(t, lt, Some(w), ns) {
      forall e | e in ns && e != Wbpp ensures e !in Names(t, lt) {
        assert Route(lt, Some(w), e) == lt;
      }
      if Wbpp in ns {
        assert Route(lt, Some(w), Wbpp) == w;
      }
    }
  }

  /** Once the new folder exists, the moves succeed exactly when the target folder is ready. */
  lemma TargetMovesSucceed(arr: Arrangement, t: Node, root: Path, d: Path, s: string)
    requires Lists(arr) && DateChain(root, d) && MakeDirs(t, LightTarget(root, s, Basename(d))).Ok?
    ensures MoveListed(arr, TargetMadeTree(t, root, d, s), TargetFolder(d, s),
                       LightTarget(root, s, Basename(d)), Some(TargetDir(root, s))).ok
            <==> TargetReady(t, root, d, s)
  {
    var p, lt, w := TargetFolder(d, s), LightTarget(root, s, Basename(d)), TargetDir(root, s);
    TargetMade(t, root, d, s);
    var m := TargetMadeTree(t, root, d, s);
    TargetRoutes(root, d, s);
    DateDirNameIsNotFixed(Basename(d));
    assert Get(m, p) == Get(t, p);
    MoveListedSucceeds(arr, m, p, lt, Some(w));
    CanMoveSplit(m, lt, w, Names(m, p));
  }

  /** One target folder is handled to the end exactly when it is ready for it. */
  lemma TargetSucceeds(arr: Arrangement, t: Node, root: Path, d: Path, s: string)
    requires Lists(arr) && DateChain(root, d)
    ensures TargetOutcome(arr, t, root, d, s).ok <==> TargetReady(t, root, d, s)
  {
    var p, lt, w := TargetFolder(d, s), LightTarget(root, s, Basename(d)), TargetDir(root, s);
    if MakeDirs(t, lt).Ok? {
      TargetMade(t, root, d, s);
      TargetMovesSucceed(arr, t, root, d, s);
      TargetRoutes(root, d, s);
      var m := TargetMadeTree(t, root, d, s);
      if MoveListed(arr, m, p, lt, Some(w)).ok {
        MoveListedEmpties(arr, m, p, lt, Some(w));
      }
    }
  }

  /** After the step nothing is left at or below the target folder. */
  lemma TargetGone(arr: Arrangement, t: Node, root: Path, d: Path, s: string, q: Path)
    requires DateChain(root, d) && TargetOutcome(arr, t, root, d, s).ok && TargetFolder(d, s) <= q
    ensures Get(TargetOutcome(arr, t, root, d, s).tree, q).None?
  {
    TargetStages(arr, t, root, d, s);
    RemoveDirEffect(TargetMovedTree(arr, t, root, d, s), TargetFolder(d, s), q);
  }

  /** Away from the target folder and from `<input>/<s>`, the step changes nothing. */
  lemma TargetFar(arr: Arrangement, t: Node, root: Path, d: Path, s: string, q: Path)
    requires Lists(arr) && DateChain(root, d) && TargetOutcome(arr, t, root, d, s).ok
    requires Disjoint(q, TargetFolder(d, s)) && Disjoint(q, TargetDir(root, s))
    ensures Get(TargetOutcome(arr, t, root, d, s).tree, q) == Get(t, q)
  {
    var p, lt, w := TargetFolder(d, s), LightTarget(root, s, Basename(d)), TargetDir(root, s);
    TargetStages(arr, t, root, d, s);
    TargetMade(t, root, d, s);
    var m := TargetMadeTree(t, root, d, s);
    TargetRoutes(root, d, s);
    DisjointBelow(q, w, q, lt);
    assert Get(m, q) == Get(t, q) && Get(m, p) == Get(t, p);
    FarIsUntouched(p, lt, Some(w), Names(m, p), q);
    MoveListedEffect(arr, m, p, lt, Some(w), q);
    RemoveDirEffect(TargetMovedTree(arr, t, root, d, s), p, q);
  }

  /** After the step each entry of the target folder sits at its route with its whole subtree. */
  lemma TargetPlaces(arr: Arrangement, t: Node, root: Path, d: Path, s: string, e: string)
    requires Lists(arr) && DateChain(root, d) && TargetOutcome(arr, t, root, d, s).ok
    requires e in Names(t, TargetFolder(d, s))
    ensures Get(TargetOutcome(arr, t, root, d, s).tree,
                Dest(LightTarget(root, s, Basename(d)), Some(TargetDir(root, s)), e)) ==
            Get(t, TargetFolder(d, s) + [e])
  {
    var p, lt, w := TargetFolder(d, s), LightTarget(root, s, Basename(d)), TargetDir(root, s);
    TargetStages(arr, t, root, d, s);
    TargetMade(t, root, d, s);
    var m := TargetMadeTree(t, root, d, s);
    TargetRoutes(root, d, s);
    assert Get(m, p) == Get(t, p) && Get(m, p + [e]) == Get(t, p + [e]);
    var dest := Dest(lt, Some(w), e);
    MoveListedEffect(arr, m, p, lt, Some(w), dest);
    if e != Wbpp {
      DisjointBelow(p, lt, p, dest);
    }
    RemoveDirEffect(TargetMovedTree(arr, t, root, d, s), p, dest);
  }

  /** After the step the new light folder lists every entry but `WBPP`. */
  lemma TargetLightListing(arr: Arrangement, t: Node, root: Path, d: Path, s: string)
    requires Lists(arr) && DateChain(root, d) && TargetOutcome(arr, t, root, d, s).ok
    ensures var r := TargetOutcome(arr, t, root, d, s).tree;
      var lt := LightTarget(root, s, Basename(d));
      IsDirAt(r, lt) && Names(r, lt) == Names(t, lt) + (Names(t, TargetFolder(d, s)) - {Wbpp})
  {
    var p, lt, w := TargetFolder(d, s), LightTarget(root, s, Basename(d)), TargetDir(root, s);
    TargetStages(arr, t, root, d, s);
    TargetMade(t, root, d, s);
    var m := TargetMadeTree(t, root, d, s);
    TargetRoutes(root, d, s);
    assert Get(m, p) == Get(t, p);
    MoveListedAt(arr, m, p, lt, Some(w), lt);
    ArrivedAt(lt, Some(w), Names(m, p), lt);
    DisjointBelow(p, lt, p, lt);
    RemoveDirAt(TargetMovedTree(arr, t, root, d, s), p, lt);
  }

  /** After the step `<input>/<s>` lists the new date folder and the `WBPP` entry, if there was one. */
  lemma TargetWbppListing(arr: Arrangement, t: Node, root: Path, d: Path, s: string)
    requires Lists(arr) && DateChain(root, d) && TargetOutcome(arr, t, root, d, s).ok
    requires Disjoint(TargetDir(root, s), TargetFolder(d, s))
    ensures var r := TargetOutcome(arr, t, root, d, s).tree;
      var w := TargetDir(root, s);
      IsDirAt(r, w) &&
      Names(r, w) == Names(t, w) + {DateDirName(Basename(d))} + (Names(t, TargetFolder(d, s)) * {Wbpp})
  {
    var p, lt, w := TargetFolder(d, s), LightTarget(root, s, Basename(d)), TargetDir(root, s);
    TargetStages(arr, t, root, d, s);
    TargetMade(t, root, d, s);
    var m := TargetMadeTree(t, root, d, s);
    TargetRoutes(root, d, s);
    assert Get(m, p) == Get(t, p);
    MoveListedAt(arr, m, p, lt, Some(w), w);
    ArrivedAt(lt, Some(w), Names(m, p), w);
    RemoveDirAt(TargetMovedTree(arr, t, root, d, s), p, w);
  }

  /** Between creating the new folder and removing the target folder, a folder above them keeps its listing. */
  lemma TargetAboveMiddle(arr: Arrangement, t: Node, root: Path, d: Path, s: string, q: Path)
    requires Lists(arr) && DateChain(root, d) && TargetOutcome(arr, t, root, d, s).ok
    requires (q < TargetFolder(d, s) || q < LightTarget(root, s, Basename(d))) && q != TargetDir(root, s)
    requires IsDirAt(TargetMadeTree(t, root, d, s), q)
    ensures IsDirAt(TargetMovedTree(arr, t, root, d, s), q)
    ensures Names(TargetMovedTree(arr, t, root, d, s), q) == Names(TargetMadeTree(t, root, d, s), q)
  {
    var p, lt, w := TargetFolder(d, s), LightTarget(root, s, Basename(d)), TargetDir(root, s);
    TargetStages(arr, t, root, d, s);
    TargetRoutes(root, d, s);
    MoveListedPassing(arr, TargetMadeTree(t, root, d, s), p, lt, Some(w), q);
  }

  /**
   * Above the target folder and above the new light folder (but other than `<input>/<s>`),
   * folders stay folders, gain the new names and LIGHT loses `<s>`.
   */
  lemma TargetAbove(arr: Arrangement, t: Node, root: Path, d: Path, s: string, q: Path)
    requires Lists(arr) && DateChain(root, d) && TargetOutcome(arr, t, root, d, s).ok
    requires (q < TargetFolder(d, s) || q < LightTarget(root, s, Basename(d))) && q != TargetDir(root, s)
    ensures var r := TargetOutcome(arr, t, root, d, s).tree;
      var lt := LightTarget(root, s, Basename(d));
      IsDirAt(r, q) &&
      Names(r, q) == (Names(t, q) + (if q < lt then {lt[|q|]} else {}))
                     - (if q == LightFolder(d) then {s} else {})
  {
    var p, lt := TargetFolder(d, s), LightTarget(root, s, Basename(d));
    TargetStages(arr, t, root, d, s);
    TargetRoutes(root, d, s);
    if q < p {
      TargetMade(t, root, d, s);
      assert Get(TargetMadeTree(t, root, d, s), p) == Get(t, p);
      AncestorIsDir(t, q, p);
    }
    MakeDirsAt(t, lt, q);
    TargetAboveMiddle(arr, t, root, d, s, q);
    assert Parent(p) == LightFolder(d) && Last(p) == s;
    RemoveDirAt(TargetMovedTree(arr, t, root, d, s), p, q);
  }

  /** Whether a target folder can be handled depends only on it, `<input>/<s>` and the folders above. */
  lemma TargetReadyKept(t: Node, t': Node, root: Path, d: Path, s: string)
    requires IsDirAt(t, root) && IsDirAt(t', root)
    requires Get(t', TargetFolder(d, s)) == Get(t, TargetFolder(d, s))
    requires Get(t', TargetDir(root, s)) == Get(t, TargetDir(root, s))
    ensures TargetReady(t', root, d, s) == TargetReady(t, root, d, s)
  {
    var lt := LightTarget(root, s, Basename(d));
    assert lt[..|root| + 1] == TargetDir(root, s);
    NoFileOnPathKept(t, t', root, lt);
    SameBelow(t, t', TargetDir(root, s), lt);
    assert Names(t', lt) == Names(t, lt) && Names(t', TargetFolder(d, s)) == Names(t, TargetFolder(d, s));
    assert Names(t', TargetDir(root, s)) == Names(t, TargetDir(root, s));
  }

  /** The step logs only informational lines. */
  lemma TargetLog(arr: Arrangement, t: Node, root: Path, d: Path, s: string)
    ensures AllInfo(TargetOutcome(arr, t, root, d, s).events)
    ensures NoSkips(TargetOutcome(arr, t, root, d, s).events)
  {
    var p, lt, w := TargetFolder(d, s), LightTarget(root, s, Basename(d)), TargetDir(root, s);
    match MakeDirs(t, lt)
    case Err(_) =>
    case Ok(t1) =>
      var moved := MoveListed(arr, t1, p, lt, Some(w));
      MoveListedLog(arr, t1, p, lt, Some(w));
      AllInfoAppend(moved.events, [Removing(p)]);
      NoSkipsAppend(moved.events, [Removing(p)]);
  }

  // ---------------------------------------------------------------- the loop over LIGHT (lines 71-89)

  /** Every name of `subs` satisfies the separation under which the branch is stated in full. */
  ghost predicate TargetsApart(root: Path, d: Path, subs: seq<string>)
  {
    forall s :: s in subs ==> TargetApart(root, d, s)
  }

  /** The names of `subs` that are folders in LIGHT: the target folders the loop handles. */
  ghost function Handled(t: Node, d: Path, subs: seq<string>): set<string>
  {
    set s | s in subs && IsDirAt(t, TargetFolder(d, s))
  }

  lemma HandledTail(t: Node, d: Path, subs: seq<string>)
    requires subs != []
    ensures IsDirAt(t, TargetFolder(d, subs[0])) ==> Handled(t, d, subs) == {subs[0]} + Handled(t, d, subs[1..])
    ensures !IsDirAt(t, TargetFolder(d, subs[0])) ==> Handled(t, d, subs) == Handled(t, d, subs[1..])
  {
    forall s ensures s in subs <==> s == subs[0] || s in subs[1..] {
      if s in subs && s != subs[0] {
        var k :| 0 <= k < |subs| && subs[k] == s;
        assert subs[1..][k - 1] == s;
      }
    }
  }

  /** A suffix of LIGHT's listing, to be handled from the tree `t`. */
  ghost predicate TargetsSetting(t: Node, root: Path, d: Path, subs: seq<string>)
  {
    && DateChain(root, d) && IsDirAt(t, LightFolder(d)) && Distinct(subs)
    && (forall s :: s in subs ==> s in Names(t, LightFolder(d)))
    && TargetsApart(root, d, subs)
  }

  lemma TargetsSettingTail(t: Node, root: Path, d: Path, subs: seq<string>)
    requires TargetsSetting(t, root, d, subs) && subs != []
    ensures TargetsSetting(t, root, d, subs[1..])
    ensures forall s :: s in subs <==> s == subs[0] || s in subs[1..]
    ensures subs[0] !in subs[1..]
  {
    forall s | s in subs[1..] ensures s in subs && s != subs[0] {
      var k :| 0 <= k < |subs[1..]| && subs[1..][k] == s;
      assert subs[k + 1] == s;
    }
  }

  /** Two targets of one date folder lie apart from each other's folders. */
  lemma TwoTargetsApart(root: Path, d: Path, s: string, s2: string)
    requires DateChain(root, d) && TargetApart(root, d, s) && TargetApart(root, d, s2)
    ensures Disjoint(TargetFolder(d, s), TargetDir(root, s2))
    ensures Disjoint(LightFolder(d), TargetDir(root, s2))
    ensures s != s2 ==> Disjoint(TargetFolder(d, s), TargetFolder(d, s2))
    ensures s != s2 ==> Disjoint(TargetDir(root, s), TargetDir(root, s2))
  {
    var k := |root|;
    assert TargetFolder(d, s)[k] == d[k] && LightFolder(d)[k] == d[k];
    DifferAt(TargetFolder(d, s), TargetDir(root, s2), k);
    DifferAt(LightFolder(d), TargetDir(root, s2), k);
    if s != s2 {
      DifferAt(TargetFolder(d, s), TargetFolder(d, s2), |d| + 1);
      DifferAt(TargetDir(root, s), TargetDir(root, s2), k);
    }
  }

  /** The folders above a target folder, other than `<input>/<s>`, that the branch relies on. */
  lemma TargetAboveApart(root: Path, d: Path, s: string)
    requires DateChain(root, d) && TargetApart(root, d, s)
    ensures LightFolder(d) < TargetFolder(d, s) && !(LightFolder(d) < LightTarget(root, s, Basename(d)))
    ensures d < TargetFolder(d, s) && !(d < LightTarget(root, s, Basename(d)))
    ensures root < LightTarget(root, s, Basename(d)) && LightTarget(root, s, Basename(d))[|root|] == s
    ensures LightFolder(d) != TargetDir(root, s) && d != TargetDir(root, s) && root != TargetDir(root, s)
    ensures d != LightFolder(d) && root != LightFolder(d)
  {
    var k := |root|;
    var l, lt := LightFolder(d), LightTarget(root, s, Basename(d));
    assert l[k] == d[k] && lt[k] == s;
    DifferAt(l, lt, k);
    DifferAt(d, lt, k);
    DifferAt(l, TargetDir(root, s), k);
    DifferAt(d, TargetDir(root, s), k);
  }

  /** Handling one target takes its name out of LIGHT. */
  lemma TargetLightNames(arr: Arrangement, t: Node, root: Path, d: Path, s: string)
    requires Lists(arr) && DateChain(root, d) && TargetApart(root, d, s) && TargetOutcome(arr, t, root, d, s).ok
    ensures var t' := TargetOutcome(arr, t, root, d, s).tree;
      IsDirAt(t', LightFolder(d)) && Names(t', LightFolder(d)) == Names(t, LightFolder(d)) - {s}
  {
    TargetAboveApart(root, d, s);
    TargetAbove(arr, t, root, d, s, LightFolder(d));
  }

  /** Handling one target leaves the date folder's listing alone. */
  lemma TargetDateNames(arr: Arrangement, t: Node, root: Path, d: Path, s: string)
    requires Lists(arr) && DateChain(root, d) && TargetApart(root, d, s) && TargetOutcome(arr, t, root, d, s).ok
    ensures var t' := TargetOutcome(arr, t, root, d, s).tree;
      IsDirAt(t', d) && Names(t', d) == Names(t, d)
  {
    TargetAboveApart(root, d, s);
    TargetAbove(arr, t, root, d, s, d);
  }

  /** Handling one target adds its name to the input folder. */
  lemma TargetRootNames(arr: Arrangement, t: Node, root: Path, d: Path, s: string)
    requires Lists(arr) && DateChain(root, d) && TargetApart(root, d, s) && TargetOutcome(arr, t, root, d, s).ok
    ensures var t' := TargetOutcome(arr, t, root, d, s).tree;
      IsDirAt(t', root) && Names(t', root) == Names(t, root) + {s}
  {
    TargetAboveApart(root, d, s);
    TargetAbove(arr, t, root, d, s, root);
  }

  /** Handling the first target leaves the other targets' folders as they were. */
  lemma TargetsHeadKeeps(arr: Arrangement, t: Node, root: Path, d: Path, subs: seq<string>)
    requires Lists(arr) && TargetsSetting(t, root, d, subs) && subs != []
    requires TargetOutcome(arr, t, root, d, subs[0]).ok
    ensures var t' := TargetOutcome(arr, t, root, d, subs[0]).tree;
      forall s :: s in subs[1..] ==>
        Get(t', TargetFolder(d, s)) == Get(t, TargetFolder(d, s)) &&
        Get(t', TargetDir(root, s)) == Get(t, TargetDir(root, s))
  {
    var s0 := subs[0];
    TargetsSettingTail(t, root, d, subs);
    forall s | s in subs[1..]
      ensures Get(TargetOutcome(arr, t, root, d, s0).tree, TargetFolder(d, s)) == Get(t, TargetFolder(d, s))
      ensures Get(TargetOutcome(arr, t, root, d, s0).tree, TargetDir(root, s)) == Get(t, TargetDir(root, s))
    {
      TwoTargetsApart(root, d, s, s0);
      TwoTargetsApart(root, d, s0, s);
      TargetFar(arr, t, root, d, s0, TargetFolder(d, s));
      TargetFar(arr, t, root, d, s0, TargetDir(root, s));
    }
  }

  /** After the first target, the rest of the listing is a valid setting again, with the same folders to handle. */
  lemma TargetsHead(arr: Arrangement, t: Node, root: Path, d: Path, subs: seq<string>)
    requires Lists(arr) && TargetsSetting(t, root, d, subs) && subs != []
    requires TargetOutcome(arr, t, root, d, subs[0]).ok
    ensures var t' := TargetOutcome(arr, t, root, d, subs[0]).tree;
      && TargetsSetting(t', root, d, subs[1..])
      && Handled(t', d, subs[1..]) == Handled(t, d, subs[1..])
  {
    var t' := TargetOutcome(arr, t, root, d, subs[0]).tree;
    TargetsSettingTail(t, root, d, subs);
    assert TargetApart(root, d, subs[0]);
    TargetLightNames(arr, t, root, d, subs[0]);
    TargetsHeadKeeps(arr, t, root, d, subs);
  }

  /** Handling the first target leaves the readiness of the others unchanged. */
  lemma TargetsReadyKept(arr: Arrangement, t: Node, root: Path, d: Path, subs: seq<string>)
    requires Lists(arr) && TargetsSetting(t, root, d, subs) && subs != []
    requires TargetOutcome(arr, t, root, d, subs[0]).ok
    ensures var t' := TargetOutcome(arr, t, root, d, subs[0]).tree;
      forall s :: s in subs[1..] ==> TargetReady(t', root, d, s) == TargetReady(t, root, d, s)
  {
    var t' := TargetOutcome(arr, t, root, d, subs[0]).tree;
    assert TargetApart(root, d, subs[0]);
    TargetRootNames(arr, t, root, d, subs[0]);
    AncestorIsDir(t, root, LightFolder(d));
    TargetsHeadKeeps(arr, t, root, d, subs);
    forall s | s in subs[1..] ensures TargetReady(t', root, d, s) == TargetReady(t, root, d, s) {
      TargetReadyKept(t, t', root, d, s);
    }
  }

  /** The loop runs to the end exactly when every target folder it handles is ready. */
  lemma {:induction false} TargetsSucceed(arr: Arrangement, t: Node, root: Path, d: Path, subs: seq<string>)
    requires Lists(arr) && TargetsSetting(t, root, d, subs)
    ensures TargetsOutcome(arr, t, root, d, subs).ok <==>
      forall s :: s in Handled(t, d, subs) ==> TargetReady(t, root, d, s)
    decreases |subs|
  {
    if subs != [] {
      var s0 := subs[0];
      TargetsSettingTail(t, root, d, subs);
      if IsDirAt(t, TargetFolder(d, s0)) {
        HandledTail(t, d, subs);
        TargetSucceeds(arr, t, root, d, s0);
        var o := TargetOutcome(arr, t, root, d, s0);
        if o.ok {
          TargetsHead(arr, t, root, d, subs);
          TargetsReadyKept(arr, t, root, d, subs);
          TargetsSucceed(arr, o.tree, root, d, subs[1..]);
        }
      } else {
        HandledTail(t, d, subs);
        TargetsSucceed(arr, t, root, d, subs[1..]);
      }
    }
  }

  /** After the loop LIGHT lists what was not handled, the input folder lists the handled targets, and the date folder is as it was. */
  lemma {:induction false} TargetsListings(arr: Arrangement, t: Node, root: Path, d: Path, subs: seq<string>)
    requires Lists(arr) && TargetsSetting(t, root, d, subs) && TargetsOutcome(arr, t, root, d, subs).ok
    ensures var r := TargetsOutcome(arr, t, root, d, subs).tree;
      && IsDirAt(r, LightFolder(d)) && Names(r, LightFolder(d)) == Names(t, LightFolder(d)) - Handled(t, d, subs)
      && IsDirAt(r, d) && Names(r, d) == Names(t, d)
      && IsDirAt(r, root) && Names(r, root) == Names(t, root) + Handled(t, d, subs)
    decreases |subs|
  {
    if subs == [] {
      AncestorIsDir(t, d, LightFolder(d));
      if root != d { AncestorIsDir(t, root, d); }
    } else {
      var s0 := subs[0];
      TargetsSettingTail(t, root, d, subs);
      if IsDirAt(t, TargetFolder(d, s0)) {
        HandledTail(t, d, subs);
        var o := TargetOutcome(arr, t, root, d, s0);
        assert TargetApart(root, d, s0);
        TargetsHead(arr, t, root, d, subs);
        TargetLightNames(arr, t, root, d, s0);
        TargetDateNames(arr, t, root, d, s0);
        TargetRootNames(arr, t, root, d, s0);
        TargetsListings(arr, o.tree, root, d, subs[1..]);
      } else {
        HandledTail(t, d, subs);
        TargetsListings(arr, t, root, d, subs[1..]);
      }
    }
  }

  /** Away from LIGHT and from the input folder's entries named like a handled target, the loop changes nothing. */
  lemma {:induction false} TargetsFrame(arr: Arrangement, t: Node, root: Path, d: Path, subs: seq<string>, q: Path)
    requires Lists(arr) && TargetsSetting(t, root, d, subs) && TargetsOutcome(arr, t, root, d, subs).ok
    requires Disjoint(q, LightFolder(d))
    requires forall s :: s in Handled(t, d, subs) ==> Disjoint(q, TargetDir(root, s))
    ensures Get(TargetsOutcome(arr, t, root, d, subs).tree, q) == Get(t, q)
    decreases |subs|
  {
    if subs != [] {
      var s0 := subs[0];
      TargetsSettingTail(t, root, d, subs);
      if IsDirAt(t, TargetFolder(d, s0)) {
        HandledTail(t, d, subs);
        var o := TargetOutcome(arr, t, root, d, s0);
        DisjointBelow(q, LightFolder(d), q, TargetFolder(d, s0));
        TargetFar(arr, t, root, d, s0, q);
        TargetsHead(arr, t, root, d, subs);
        TargetsFrame(arr, o.tree, root, d, subs[1..], q);
      } else {
        HandledTail(t, d, subs);
        TargetsFrame(arr, t, root, d, subs[1..], q);
      }
    }
  }

  /** Where the loop puts the entries of a handled target folder. */
  lemma {:induction false} TargetsPlaces(arr: Arrangement, t: Node, root: Path, d: Path, subs: seq<string>, s: string, e: string)
    requires Lists(arr) && TargetsSetting(t, root, d, subs) && TargetsOutcome(arr, t, root, d, subs).ok
    requires s in Handled(t, d, subs) && e in Names(t, TargetFolder(d, s))
    ensures Get(TargetsOutcome(arr, t, root, d, subs).tree,
                Dest(LightTarget(root, s, Basename(d)), Some(TargetDir(root, s)), e)) ==
            Get(t, TargetFolder(d, s) + [e])
    decreases |subs|
  {
    var s0 := subs[0];
    TargetsSettingTail(t, root, d, subs);
    var dest := Dest(LightTarget(root, s, Basename(d)), Some(TargetDir(root, s)), e);
    if IsDirAt(t, TargetFolder(d, s0)) {
      var o := TargetOutcome(arr, t, root, d, s0);
      TargetsHead(arr, t, root, d, subs);
      if s == s0 {
        TargetPlaces(arr, t, root, d, s, e);
        assert TargetApart(root, d, s);
        assert TargetDir(root, s) <= dest;
        TwoTargetsApart(root, d, s, s);
        DisjointBelow(LightFolder(d), TargetDir(root, s), LightFolder(d), dest);
        forall s2 | s2 in Handled(o.tree, d, subs[1..]) ensures Disjoint(dest, TargetDir(root, s2)) {
          assert TargetApart(root, d, s2);
          TwoTargetsApart(root, d, s, s2);
          DisjointBelow(TargetDir(root, s), TargetDir(root, s2), dest, TargetDir(root, s2));
        }
        TargetsFrame(arr, o.tree, root, d, subs[1..], dest);
      } else {
        TargetsHeadKeeps(arr, t, root, d, subs);
        assert Get(o.tree, TargetFolder(d, s)) == Get(t, TargetFolder(d, s));
        SameBelow(t, o.tree, TargetFolder(d, s), TargetFolder(d, s) + [e]);
        TargetsPlaces(arr, o.tree, root, d, subs[1..], s, e);
      }
    } else {
      TargetsPlaces(arr, t, root, d, subs[1..], s, e);
    }
  }

  /** The loop logs only informational lines. */
  lemma {:induction false} TargetsLog(arr: Arrangement, t: Node, root: Path, d: Path, subs: seq<string>)
    ensures AllInfo(TargetsOutcome(arr, t, root, d, subs).events)
    ensures NoSkips(TargetsOutcome(arr, t, root, d, subs).events)
    decreases |subs|
  {
    if subs != [] {
      if IsDirAt(t, TargetFolder(d, subs[0])) {
        var o := TargetOutcome(arr, t, root, d, subs[0]);
        TargetLog(arr, t, root, d, subs[0]);
        TargetsLog(arr, o.tree, root, d, subs[1..]);
        AllInfoAppend(o.events, TargetsOutcome(arr, o.tree, root, d, subs[1..]).events);
        NoSkipsAppend(o.events, TargetsOutcome(arr, o.tree, root, d, subs[1..]).events);
      } else {
        TargetsLog(arr, t, root, d, subs[1..]);
      }
    }
  }

  // ---------------------------------------------------------------- the LIGHT branch (lines 68-92)

  /** The separation for the whole branch: no entry of LIGHT is named like `d`'s top-level date ancestor or `_FlatWizard`. */
  ghost predicate LightApart(t: Node, root: Path, d: Path)
  {
    root < d && forall s :: s in Names(t, LightFolder(d)) ==> TargetApart(root, d, s)
  }

  /** The branch can run to the end: LIGHT is a folder holding only target folders, each ready. */
  ghost predicate LightReady(t: Node, root: Path, d: Path)
  {
    && IsDirAt(t, LightFolder(d))
    && forall s :: s in Names(t, LightFolder(d)) ==> IsDirAt(t, TargetFolder(d, s)) && TargetReady(t, root, d, s)
  }

  /** The listing of LIGHT is a setting for the loop, and the loop handles its folders. */
  lemma LightSetting(arr: Arrangement, t: Node, root: Path, d: Path)
    requires Lists(arr) && DateChain(root, d) && LightApart(t, root, d) && IsDirAt(t, LightFolder(d))
    ensures TargetsSetting(t, root, d, ListDir(arr, t, LightFolder(d)))
    ensures forall s :: s in Handled(t, d, ListDir(arr, t, LightFolder(d))) <==>
      s in Names(t, LightFolder(d)) && IsDirAt(t, TargetFolder(d, s))
  {
    ListingOf(arr, t, LightFolder(d));
    assert forall s :: s in ListDir(arr, t, LightFolder(d)) <==> s in Names(t, LightFolder(d));
  }

  /** The tree once every target folder is handled. */
  ghost function LightTargetsTree(arr: Arrangement, t: Node, root: Path, d: Path): Node
  {
    TargetsOutcome(arr, t, root, d, ListDir(arr, t, LightFolder(d))).tree
  }

  /** What is left of LIGHT after the loop, when the loop ran to the end. */
  lemma LightLoopListings(arr: Arrangement, t: Node, root: Path, d: Path)
    requires Lists(arr) && DateChain(root, d) && LightApart(t, root, d) && IsDirAt(t, LightFolder(d))
    requires TargetsOutcome(arr, t, root, d, ListDir(arr, t, LightFolder(d))).ok
    ensures var r := LightTargetsTree(arr, t, root, d);
      var ls := Names(t, LightFolder(d));
      && IsDirAt(r, LightFolder(d))
      && (Names(r, LightFolder(d)) == {} <==> forall s :: s in ls ==> IsDirAt(t, TargetFolder(d, s)))
      && IsDirAt(r, d) && Names(r, d) == Names(t, d)
      && IsDirAt(r, root)
      && ((forall s :: s in ls ==> IsDirAt(t, TargetFolder(d, s))) ==> Names(r, root) == Names(t, root) + ls)
  {
    var subs := ListDir(arr, t, LightFolder(d));
    LightSetting(arr, t, root, d);
    TargetsListings(arr, t, root, d, subs);
    var r := LightTargetsTree(arr, t, root, d);
    var ls := Names(t, LightFolder(d));
    if Names(r, LightFolder(d)) == {} {
      forall s | s in ls ensures IsDirAt(t, TargetFolder(d, s)) {
        assert s !in Names(r, LightFolder(d));
      }
    }
    if forall s :: s in ls ==> IsDirAt(t, TargetFolder(d, s)) {
      assert Handled(t, d, subs) == ls;
    }
  }

  /** The LIGHT branch runs to the end exactly when LIGHT and its target folders are ready. */
  lemma LightSucceeds(arr: Arrangement, t: Node, root: Path, d: Path)
    requires Lists(arr) && DateChain(root, d) && LightApart(t, root, d)
    ensures LightOutcome(arr, t, root, d).ok <==> LightReady(t, root, d)
  {
    var l := LightFolder(d);
    if IsDirAt(t, l) {
      var subs := ListDir(arr, t, l);
      LightSetting(arr, t, root, d);
      TargetsSucceed(arr, t, root, d, subs);
      if TargetsOutcome(arr, t, root, d, subs).ok {
        LightLoopListings(arr, t, root, d);
        var r := LightTargetsTree(arr, t, root, d);
        if Names(r, l) == {} {
          EmptyDir(r, l);
        }
      }
    }
  }

  /** The calls of a branch that ran to the end. */
  lemma LightStages(arr: Arrangement, t: Node, root: Path, d: Path)
    requires Lists(arr) && DateChain(root, d) && LightApart(t, root, d) && LightOutcome(arr, t, root, d).ok
    ensures IsDirAt(t, LightFolder(d)) && forall s :: s in Names(t, LightFolder(d)) ==> IsDirAt(t, TargetFolder(d, s))
    ensures TargetsOutcome(arr, t, root, d, ListDir(arr, t, LightFolder(d))).ok
    ensures RemoveDir(LightTargetsTree(arr, t, root, d), LightFolder(d)) == Ok(LightOutcome(arr, t, root, d).tree)
  {
    LightSucceeds(arr, t, root, d);
  }

  /** After the branch nothing is left at or below LIGHT. */
  lemma LightGone(arr: Arrangement, t: Node, root: Path, d: Path, q: Path)
    requires Lists(arr) && DateChain(root, d) && LightApart(t, root, d) && LightOutcome(arr, t, root, d).ok
    requires LightFolder(d) <= q
    ensures Get(LightOutcome(arr, t, root, d).tree, q).None?
  {
    LightStages(arr, t, root, d);
    RemoveDirEffect(LightTargetsTree(arr, t, root, d), LightFolder(d), q);
  }

  /** After the branch the date folder no longer lists LIGHT, and the input folder lists every target. */
  lemma LightListings(arr: Arrangement, t: Node, root: Path, d: Path)
    requires Lists(arr) && DateChain(root, d) && LightApart(t, root, d) && LightOutcome(arr, t, root, d).ok
    ensures var r := LightOutcome(arr, t, root, d).tree;
      && IsDirAt(r, d) && Names(r, d) == Names(t, d) - {Light}
      && IsDirAt(r, root) && Names(r, root) == Names(t, root) + Names(t, LightFolder(d))
  {
    LightStages(arr, t, root, d);
    LightLoopListings(arr, t, root, d);
    var l := LightFolder(d);
    assert Parent(l) == d && Last(l) == Light && root < l;
    RemoveDirAt(LightTargetsTree(arr, t, root, d), l, d);
    RemoveDirAt(LightTargetsTree(arr, t, root, d), l, root);
  }

  /** Away from LIGHT and from the input folder's entries named like a target, the branch changes nothing. */
  lemma LightFrame(arr: Arrangement, t: Node, root: Path, d: Path, q: Path)
    requires Lists(arr) && DateChain(root, d) && LightApart(t, root, d) && LightOutcome(arr, t, root, d).ok
    requires Disjoint(q, LightFolder(d))
    requires forall s :: s in Names(t, LightFolder(d)) ==> Disjoint(q, TargetDir(root, s))
    ensures Get(LightOutcome(arr, t, root, d).tree, q) == Get(t, q)
  {
    LightStages(arr, t, root, d);
    LightSetting(arr, t, root, d);
    TargetsFrame(arr, t, root, d, ListDir(arr, t, LightFolder(d)), q);
    RemoveDirEffect(LightTargetsTree(arr, t, root, d), LightFolder(d), q);
  }

  /**
   * After the branch each entry `e` of a target folder `LIGHT/<s>` sits, with its whole subtree,
   * at `<input>/<s>/WBPP` when `e` is `WBPP` and at `<input>/<s>/DATE_<date>/LIGHT/e` otherwise.
   */
  lemma LightPlaces(arr: Arrangement, t: Node, root: Path, d: Path, s: string, e: string)
    requires Lists(arr) && DateChain(root, d) && LightApart(t, root, d) && LightOutcome(arr, t, root, d).ok
    requires s in Names(t, LightFolder(d)) && e in Names(t, TargetFolder(d, s))
    ensures Get(LightOutcome(arr, t, root, d).tree,
                Dest(LightTarget(root, s, Basename(d)), Some(TargetDir(root, s)), e)) ==
            Get(t, TargetFolder(d, s) + [e])
  {
    var dest := Dest(LightTarget(root, s, Basename(d)), Some(TargetDir(root, s)), e);
    LightStages(arr, t, root, d);
    LightSetting(arr, t, root, d);
    TargetsPlaces(arr, t, root, d, ListDir(arr, t, LightFolder(d)), s, e);
    TwoTargetsApart(root, d, s, s);
    assert TargetDir(root, s) <= dest;
    DisjointBelow(LightFolder(d), TargetDir(root, s), LightFolder(d), dest);
    RemoveDirEffect(LightTargetsTree(arr, t, root, d), LightFolder(d), dest);
  }

  /** Whether the branch can run depends only on LIGHT, the input folder's entries named like a target, and the folders above. */
  lemma LightReadyKept(t: Node, t': Node, root: Path, d: Path)
    requires IsDirAt(t, root) && IsDirAt(t', root)
    requires Get(t', LightFolder(d)) == Get(t, LightFolder(d))
    requires forall s :: s in Names(t, LightFolder(d)) ==> Get(t', TargetDir(root, s)) == Get(t, TargetDir(root, s))
    ensures LightApart(t', root, d) == LightApart(t, root, d)
    ensures LightReady(t', root, d) == LightReady(t, root, d)
  {
    var l := LightFolder(d);
    assert Names(t', l) == Names(t, l);
    forall s | s in Names(t, l)
      ensures IsDirAt(t', TargetFolder(d, s)) == IsDirAt(t, TargetFolder(d, s))
      ensures TargetReady(t', root, d, s) == TargetReady(t, root, d, s)
    {
      SameBelow(t, t', l, TargetFolder(d, s));
      TargetReadyKept(t, t', root, d, s);
    }
  }

  /** The branch logs only informational lines. */
  lemma LightLog(arr: Arrangement, t: Node, root: Path, d: Path)
    ensures AllInfo(LightOutcome(arr, t, root, d).events)
    ensures NoSkips(LightOutcome(arr, t, root, d).events)
  {
    var l := LightFolder(d);
    if IsDirAt(t, l) {
      var o := TargetsOutcome(arr, t, root, d, ListDir(arr, t, l));
      TargetsLog(arr, t, root, d, ListDir(arr, t, l));
      AllInfoAppend(o.events, [RemovingLight(l)]);
      NoSkipsAppend(o.events, [RemovingLight(l)]);
    }
  }
}
