/**
 * What the walk of lines 32-39 visits: the input folder, its sub-folders, and below them
 * only what lies under date-named folders; every other folder below the top level is
 * pruned with its whole subtree.
 */
module WalkFacts {
  import opened FileTree
  import opened DateName
  import opened Layout
  import opened Steps
  import opened MoveFacts
  import opened OutsideFacts

  /** The folder on top of the walk's stack, and the stack below it. */
  function Top(stack: seq<Path>): Path
    requires stack != []
  {
    stack[|stack| - 1]
  }

  function Below(stack: seq<Path>): seq<Path>
    requires stack != []
  {
    stack[..|stack| - 1]
  }

  /** A folder that has vanished, or that is neither the input folder nor date-named, is passed over. */
  lemma WalkPassesOver(arr: Arrangement, t: Node, root: Path, stack: seq<Path>, fuel: nat)
    requires stack != [] && fuel > 0
    requires !IsDirAt(t, Top(stack)) || (Top(stack) != root && !IsDateName(Basename(Top(stack))))
    ensures WalkOutcome(arr, t, root, stack, fuel) == WalkOutcome(arr, t, root, Below(stack), fuel - 1)
  {
  }

  /** The input folder, when it is not date-named, only has its sub-folders pushed. */
  lemma WalkEntersRoot(arr: Arrangement, t: Node, root: Path, stack: seq<Path>, fuel: nat)
    requires stack != [] && fuel > 0 && Top(stack) == root
    requires IsDirAt(t, root) && !IsDateName(Basename(root))
    ensures WalkOutcome(arr, t, root, stack, fuel) ==
      WalkOutcome(arr, t, root, Below(stack) + Pushed(root, DirsAmong(t, root, ListDir(arr, t, root))), fuel - 1)
  {
  }

  /** A date folder is processed; on success its sub-folders are pushed. */
  lemma WalkHandles(arr: Arrangement, t: Node, root: Path, stack: seq<Path>, fuel: nat)
    requires stack != [] && fuel > 0
    requires IsDirAt(t, Top(stack)) && IsDateName(Basename(Top(stack)))
    ensures var p := Top(stack);
      var names := ListDir(arr, t, p);
      var dirs := DirsAmong(t, p, names);
      var o := DateFolderOutcome(arr, t, root, p, dirs, FilesAmong(t, p, names));
      var w := WalkOutcome(arr, o.tree, root, Below(stack) + Pushed(p, dirs), fuel - 1);
      WalkOutcome(arr, t, root, stack, fuel) ==
        if !o.ok then WalkRun(Failed, o.tree, o.events, [p])
        else WalkRun(w.status, w.tree, o.events + w.events, [p] + w.processed)
  {
  }

  /** The sub-folders pushed for a folder the walk may enter are themselves reachable. */
  lemma PushedReachable(root: Path, p: Path, dirs: seq<string>, rest: seq<Path>)
    requires WalkReachable(root, p) && (p == root || IsDateName(Basename(p)))
    requires forall q :: q in rest ==> WalkReachable(root, q)
    ensures forall q :: q in rest + Pushed(p, dirs) ==> WalkReachable(root, q)
  {
    forall q | q in Pushed(p, dirs) ensures WalkReachable(root, q) {
      var x :| x in dirs && q == p + [x];
      if p != root {
        ReachableDateFolder(root, p, x);
      }
    }
  }

  /** Every folder in `ps` is date-named and lies below `root` through date-named folders only. */
  ghost predicate AllChains(root: Path, ps: seq<Path>)
  {
    forall p :: p in ps ==> DateChain(root, p) && IsDateName(Basename(p))
  }

  /** Every folder on the stack can be reached by the walk. */
  ghost predicate AllReachable(root: Path, stack: seq<Path>)
  {
    forall q :: q in stack ==> WalkReachable(root, q)
  }

  /** What is left below the top of a reachable stack, and what the top pushes when it is entered, is reachable. */
  lemma NextReachable(root: Path, stack: seq<Path>, dirs: seq<string>)
    requires stack != [] && AllReachable(root, stack)
    ensures WalkReachable(root, Top(stack)) && AllReachable(root, Below(stack))
    ensures Top(stack) == root || IsDateName(Basename(Top(stack))) ==>
      AllReachable(root, Below(stack) + Pushed(Top(stack), dirs))
  {
    assert Top(stack) in stack;
    assert forall q :: q in Below(stack) ==> q in stack;
    if Top(stack) == root || IsDateName(Basename(Top(stack))) {
      PushedReachable(root, Top(stack), dirs, Below(stack));
    }
  }

  /** A folder that is passed over adds nothing to what the rest of the walk handles. */
  lemma PassOverChains(arr: Arrangement, t: Node, root: Path, stack: seq<Path>, fuel: nat)
      returns (next: seq<Path>)
    requires stack != [] && fuel > 0 && AllReachable(root, stack)
    requires !IsDirAt(t, Top(stack)) || (Top(stack) != root && !IsDateName(Basename(Top(stack))))
    ensures AllReachable(root, next)
    ensures AllChains(root, WalkOutcome(arr, t, root, next, fuel - 1).processed) ==>
      AllChains(root, WalkOutcome(arr, t, root, stack, fuel).processed)
  {
    next := Below(stack);
    NextReachable(root, stack, []);
    WalkPassesOver(arr, t, root, stack, fuel);
  }

  /** Entering the input folder adds nothing to what the rest of the walk handles. */
  lemma EnterRootChains(arr: Arrangement, t: Node, root: Path, stack: seq<Path>, fuel: nat)
      returns (next: seq<Path>)
    requires stack != [] && fuel > 0 && Top(stack) == root && AllReachable(root, stack)
    requires IsDirAt(t, root) && !IsDateName(Basename(root))
    ensures AllReachable(root, next)
    ensures AllChains(root, WalkOutcome(arr, t, root, next, fuel - 1).processed) ==>
      AllChains(root, WalkOutcome(arr, t, root, stack, fuel).processed)
  {
    next := Below(stack) + Pushed(root, DirsAmong(t, root, ListDir(arr, t, root)));
    NextReachable(root, stack, DirsAmong(t, root, ListDir(arr, t, root)));
    WalkEntersRoot(arr, t, root, stack, fuel);
  }

  /** Handling a reachable date folder adds a date chain in front of what the rest of the walk handles. */
  lemma DateVisitChains(arr: Arrangement, t: Node, root: Path, stack: seq<Path>, fuel: nat)
      returns (t': Node, next: seq<Path>)
    requires stack != [] && fuel > 0 && AllReachable(root, stack)
    requires IsDirAt(t, Top(stack)) && IsDateName(Basename(Top(stack)))
    ensures AllReachable(root, next)
    ensures AllChains(root, WalkOutcome(arr, t', root, next, fuel - 1).processed) ==>
      AllChains(root, WalkOutcome(arr, t, root, stack, fuel).processed)
  {
    var p := Top(stack);
    var names := ListDir(arr, t, p);
    var dirs := DirsAmong(t, p, names);
    t' := DateFolderOutcome(arr, t, root, p, dirs, FilesAmong(t, p, names)).tree;
    next := Below(stack) + Pushed(p, dirs);
    NextReachable(root, stack, dirs);
    ReachableDateFolder(root, p, "");
    WalkHandles(arr, t, root, stack, fuel);
  }

  /**
   * Every folder the walk handles as a date folder is date-named and lies below the input
   * folder through date-named folders only.
   */
  lemma {:induction false} WalkHandlesDateChains(arr: Arrangement, t: Node, root: Path, stack: seq<Path>, fuel: nat)
    requires AllReachable(root, stack)
    ensures AllChains(root, WalkOutcome(arr, t, root, stack, fuel).processed)
    decreases fuel
  {
    if stack != [] && fuel > 0 {
      var p := Top(stack);
      var f: nat := fuel - 1;
      if !IsDirAt(t, p) || (p != root && !IsDateName(Basename(p))) {
        var next := PassOverChains(arr, t, root, stack, fuel);
        WalkHandlesDateChains(arr, t, root, next, f);
      } else if !IsDateName(Basename(p)) {
        var next := EnterRootChains(arr, t, root, stack, fuel);
        WalkHandlesDateChains(arr, t, root, next, f);
      } else {
        var t', next := DateVisitChains(arr, t, root, stack, fuel);
        WalkHandlesDateChains(arr, t', root, next, f);
      }
    }
  }

  /** `move_files` handles only date-named folders reached through date-named folders. */
  lemma MoveFilesHandlesDateChains(arr: Arrangement, t: Node, root: Path, fuel: nat)
    ensures forall p :: p in MoveFilesOutcome(arr, t, root, fuel).processed ==>
      DateChain(root, p) && IsDateName(Basename(p))
  {
    assert AllReachable(root, [root]);
    WalkHandlesDateChains(arr, t, root, [root], fuel);
  }

  // ---------------------------------------------------------------- reaching the date folders

  /** Every folder on the stack that lies on the way to `q` is followed by date-named folders only, down to `q`. */
  ghost predicate OnlyChainsTo(stack: seq<Path>, q: Path)
  {
    forall s :: s in stack && s <= q ==> DateChain(s, q)
  }

  /** `s` leads to the date-named folder `q` through date-named folders only, and the walk enters `s`. */
  ghost predicate Aims(root: Path, s: Path, q: Path)
  {
    DateChain(s, q) && (s == root || IsDateName(Basename(s))) && IsDateName(Basename(q))
  }

  /**
   * `q` is still in the tree, the stack holds a folder `s` that leads to it, and no folder on
   * the stack lies on the way to `q` through a folder that is not date-named.
   */
  ghost predicate Pending(t: Node, root: Path, stack: seq<Path>, s: Path, q: Path)
  {
    IsDirAt(t, q) && s in stack && Aims(root, s, q) && OnlyChainsTo(stack, q)
  }

  /** A completed run handled `q`. */
  ghost predicate Reaches(w: WalkRun, q: Path)
  {
    w.status == Done ==> q in w.processed
  }

  /** Whatever lies below the top of the stack still satisfies `OnlyChainsTo`, and so does what the top pushes. */
  lemma NextOnlyChains(stack: seq<Path>, dirs: seq<string>, q: Path)
    requires stack != [] && OnlyChainsTo(stack, q)
    ensures OnlyChainsTo(Below(stack), q)
    ensures OnlyChainsTo(Below(stack) + Pushed(Top(stack), dirs), q)
  {
    assert Top(stack) in stack;
    assert forall s :: s in Below(stack) ==> s in stack;
    forall s | s in Pushed(Top(stack), dirs) && s <= q ensures DateChain(s, q) {
      var x :| x in dirs && s == Top(stack) + [x];
      assert Top(stack) <= s;
    }
  }

  /** With `q` still in the tree, the folder on the way from `p` to `q` is among the sub-folders `p` pushes. */
  lemma NextOnTheWay(arr: Arrangement, t: Node, p: Path, q: Path)
    requires Lists(arr) && IsDirAt(t, q) && p < q && DateChain(p, q)
    ensures var c := p + [q[|p|]];
      c in Pushed(p, DirsAmong(t, p, ListDir(arr, t, p))) && DateChain(c, q) && IsDateName(Basename(c))
  {
    var x := q[|p|];
    var c := p + [x];
    if c != q {
      AncestorIsDir(t, c, q);
    }
    ListedChild(arr, t, p, x);
    PushedHolds(p, DirsAmong(t, p, ListDir(arr, t, p)), x);
  }

  /** A sub-folder is among the `dirs` reported for its parent. */
  lemma ListedChild(arr: Arrangement, t: Node, p: Path, x: string)
    requires Lists(arr) && IsDirAt(t, p + [x])
    ensures x in DirsAmong(t, p, ListDir(arr, t, p))
  {
    ChildIsListed(t, p, x);
    ListingOf(arr, t, p);
  }

  lemma PushedHolds(p: Path, dirs: seq<string>, x: string)
    requires x in dirs
    ensures p + [x] in Pushed(p, dirs)
  {
  }

  /** The folder that leads to `q` is still waiting below a top that is passed over. */
  lemma PassOverPending(t: Node, root: Path, stack: seq<Path>, s: Path, q: Path)
    requires stack != [] && Pending(t, root, stack, s, q)
    requires !IsDirAt(t, Top(stack)) || (Top(stack) != root && !IsDateName(Basename(Top(stack))))
    ensures Pending(t, root, Below(stack), s, q)
  {
    if s != q {
      AncestorIsDir(t, s, q);
    }
    assert s != Top(stack);
    NextOnlyChains(stack, [], q);
  }

  /**
   * After a folder other than `q` is entered in tree `t`, and `q` is still in the tree `t'`
   * that follows, some folder on the next stack leads to `q`.
   */
  lemma EnterPending(arr: Arrangement, t: Node, t': Node, root: Path, stack: seq<Path>, s: Path, q: Path)
      returns (s': Path)
    requires Lists(arr) && stack != [] && Top(stack) != q
    requires Pending(t, root, stack, s, q) && IsDirAt(t', q)
    ensures var p := Top(stack);
      Pending(t', root, Below(stack) + Pushed(p, DirsAmong(t, p, ListDir(arr, t, p))), s', q)
  {
    var p := Top(stack);
    NextOnlyChains(stack, DirsAmong(t, p, ListDir(arr, t, p)), q);
    if p == s {
      NextOnTheWay(arr, t, p, q);
      s' := p + [q[|p|]];
    } else {
      s' := s;
    }
  }

  /** Handling a date folder other than `q` that the stack allows keeps `q` in the tree. */
  lemma DateVisitKeeps(arr: Arrangement, t: Node, root: Path, stack: seq<Path>, s: Path, q: Path)
    requires stack != [] && Pending(t, root, stack, s, q) && Top(stack) != q
    ensures var p := Top(stack);
      var names := ListDir(arr, t, p);
      IsDirAt(DateFolderOutcome(arr, t, root, p, DirsAmong(t, p, names), FilesAmong(t, p, names)).tree, q)
  {
    var p := Top(stack);
    if p <= q {
      assert p in stack;
      FixedNamesAreNotDates();
      assert IsDateName(q[|p|]);
    }
    var names := ListDir(arr, t, p);
    DateFolderKeepsDir(arr, t, root, p, DirsAmong(t, p, names), FilesAmong(t, p, names), q);
  }

  /** A folder that is passed over leaves `q` pending on the rest of the stack. */
  lemma PassOverReaches(arr: Arrangement, t: Node, root: Path, stack: seq<Path>, fuel: nat, s: Path, q: Path)
      returns (next: seq<Path>)
    requires stack != [] && fuel > 0 && Pending(t, root, stack, s, q)
    requires !IsDirAt(t, Top(stack)) || (Top(stack) != root && !IsDateName(Basename(Top(stack))))
    ensures Pending(t, root, next, s, q)
    ensures Reaches(WalkOutcome(arr, t, root, next, fuel - 1), q) ==> Reaches(WalkOutcome(arr, t, root, stack, fuel), q)
  {
    next := Below(stack);
    PassOverPending(t, root, stack, s, q);
    WalkPassesOver(arr, t, root, stack, fuel);
  }

  /** Entering the input folder leaves `q` pending on the stack with the input folder's sub-folders pushed. */
  lemma EnterRootReaches(arr: Arrangement, t: Node, root: Path, stack: seq<Path>, fuel: nat, s: Path, q: Path)
      returns (next: seq<Path>, s': Path)
    requires Lists(arr) && stack != [] && fuel > 0 && Top(stack) == root && root != q
    requires IsDirAt(t, root) && !IsDateName(Basename(root)) && Pending(t, root, stack, s, q)
    ensures Pending(t, root, next, s', q)
    ensures Reaches(WalkOutcome(arr, t, root, next, fuel - 1), q) ==> Reaches(WalkOutcome(arr, t, root, stack, fuel), q)
  {
    next := Below(stack) + Pushed(root, DirsAmong(t, root, ListDir(arr, t, root)));
    s' := EnterPending(arr, t, t, root, stack, s, q);
    WalkEntersRoot(arr, t, root, stack, fuel);
  }

  /** Handling a date folder other than `q` leaves `q` pending on the stack with the folder's sub-folders pushed. */
  lemma DateVisitReaches(arr: Arrangement, t: Node, root: Path, stack: seq<Path>, fuel: nat, s: Path, q: Path)
      returns (t': Node, next: seq<Path>, s': Path)
    requires Lists(arr) && stack != [] && fuel > 0 && Top(stack) != q && Pending(t, root, stack, s, q)
    requires IsDirAt(t, Top(stack)) && IsDateName(Basename(Top(stack)))
    ensures Pending(t', root, next, s', q)
    ensures Reaches(WalkOutcome(arr, t', root, next, fuel - 1), q) ==> Reaches(WalkOutcome(arr, t, root, stack, fuel), q)
  {
    var p := Top(stack);
    var names := ListDir(arr, t, p);
    var dirs := DirsAmong(t, p, names);
    t' := DateFolderOutcome(arr, t, root, p, dirs, FilesAmong(t, p, names)).tree;
    next := Below(stack) + Pushed(p, dirs);
    DateVisitKeeps(arr, t, root, stack, s, q);
    s' := EnterPending(arr, t, t', root, stack, s, q);
    WalkHandles(arr, t, root, stack, fuel);
  }

  /** A date folder `q` on top of the stack is handled. */
  lemma VisitReaches(arr: Arrangement, t: Node, root: Path, stack: seq<Path>, fuel: nat, q: Path)
    requires stack != [] && fuel > 0 && Top(stack) == q
    requires IsDirAt(t, q) && IsDateName(Basename(q))
    ensures Reaches(WalkOutcome(arr, t, root, stack, fuel), q)
  {
    WalkHandles(arr, t, root, stack, fuel);
  }

  /**
   * A completed walk handles every date-named folder `q` that is in the tree and that a
   * folder `s` on the stack leads to, while no folder on the stack lies on the way to `q`
   * through a folder that is not date-named.
   */
  lemma {:induction false} WalkReaches(arr: Arrangement, t: Node, root: Path, stack: seq<Path>, fuel: nat,
                                       s: Path, q: Path)
    requires Lists(arr) && Pending(t, root, stack, s, q)
    ensures Reaches(WalkOutcome(arr, t, root, stack, fuel), q)
    decreases fuel
  {
    if fuel > 0 {
      var p := Top(stack);
      var f: nat := fuel - 1;
      if !IsDirAt(t, p) || (p != root && !IsDateName(Basename(p))) {
        var next := PassOverReaches(arr, t, root, stack, fuel, s, q);
        WalkReaches(arr, t, root, next, f, s, q);
      } else if p == q {
        VisitReaches(arr, t, root, stack, fuel, q);
      } else if !IsDateName(Basename(p)) {
        var next, s' := EnterRootReaches(arr, t, root, stack, fuel, s, q);
        WalkReaches(arr, t, root, next, f, s', q);
      } else {
        var t', next, s' := DateVisitReaches(arr, t, root, stack, fuel, s, q);
        WalkReaches(arr, t', root, next, f, s', q);
      }
    }
  }

  /**
   * A completed `move_files` handles every date-named folder of the tree it starts from that
   * lies below the input folder through date-named folders only (the input folder itself
   * when it is date-named, every date-named sub-folder of it, and so on down).
   */
  lemma MoveFilesReaches(arr: Arrangement, t: Node, root: Path, fuel: nat, q: Path)
    requires Lists(arr) && IsDirAt(t, q) && DateChain(root, q) && IsDateName(Basename(q))
    ensures MoveFilesOutcome(arr, t, root, fuel).status == Done ==> q in MoveFilesOutcome(arr, t, root, fuel).processed
  {
    assert OnlyChainsTo([root], q);
    assert Pending(t, root, [root], root, q);
    WalkReaches(arr, t, root, [root], fuel, root, q);
  }

  /** A date-named input folder is the first folder `move_files` handles. */
  lemma MoveFilesStartsAtRoot(arr: Arrangement, t: Node, root: Path, fuel: nat)
    requires IsDirAt(t, root) && IsDateName(Basename(root)) && fuel > 0
    ensures MoveFilesOutcome(arr, t, root, fuel).processed != []
    ensures MoveFilesOutcome(arr, t, root, fuel).processed[0] == root
  {
    WalkHandles(arr, t, root, [root], fuel);
  }

  /** A stack of folders below the top level none of which is date-named is walked without any change. */
  lemma {:induction false} PrunedWalk(arr: Arrangement, t: Node, root: Path, stack: seq<Path>, fuel: nat)
    requires forall q :: q in stack ==> q != root && !IsDateName(Basename(q))
    requires fuel >= |stack|
    ensures WalkOutcome(arr, t, root, stack, fuel) == WalkRun(Done, t, [], [])
    decreases |stack|
  {
    if stack != [] {
      assert Top(stack) in stack;
      assert forall q :: q in Below(stack) ==> q in stack;
      WalkPassesOver(arr, t, root, stack, fuel);
      PrunedWalk(arr, t, root, Below(stack), fuel - 1);
    }
  }

  /** A listing without repetitions is as long as the set it lists. */
  lemma {:induction false} DistinctLength(xs: seq<string>)
    requires Distinct(xs)
    ensures |Elements(xs)| == |xs|
    decreases |xs|
  {
    if xs != [] {
      var rest := xs[1..];
      assert Distinct(rest) by {
        forall i, j | 0 <= i < j < |rest| ensures rest[i] != rest[j] {
          assert rest[i] == xs[i + 1] && rest[j] == xs[j + 1];
        }
      }
      DistinctLength(rest);
      assert xs[0] !in Elements(rest) by {
        forall i | 0 <= i < |rest| ensures rest[i] != xs[0] {
          assert rest[i] == xs[i + 1];
        }
      }
      assert Elements(xs) == {xs[0]} + Elements(rest) by {
        forall x | x in xs ensures x == xs[0] || x in rest {
          var k :| 0 <= k < |xs| && xs[k] == x;
          if k > 0 { assert rest[k - 1] == x; }
        }
      }
    }
  }

  /** The input folder alone on the stack, not date-named, with sub-folders none of which is date-named. */
  lemma RootPruned(arr: Arrangement, t: Node, root: Path, stack: seq<Path>, fuel: nat, pushed: seq<Path>)
    requires stack != [] && Top(stack) == root && Below(stack) == [] && fuel > 0
    requires IsDirAt(t, root) && !IsDateName(Basename(root))
    requires pushed == Pushed(root, DirsAmong(t, root, ListDir(arr, t, root)))
    requires forall q :: q in pushed ==> q != root && !IsDateName(Basename(q))
    requires |pushed| < fuel
    ensures WalkOutcome(arr, t, root, stack, fuel) == WalkRun(Done, t, [], [])
  {
    PrunedWalk(arr, t, root, pushed, fuel - 1);
    assert Below(stack) + pushed == pushed;
    WalkEntersRoot(arr, t, root, stack, fuel);
  }

  /** A folder has no more sub-folders than entries. */
  lemma {:induction false} DirsAmongLength(t: Node, p: Path, names: seq<string>)
    ensures |DirsAmong(t, p, names)| <= |names|
    decreases |names|
  {
    if names != [] {
      DirsAmongLength(t, p, names[1..]);
    }
  }

  /**
   * When the input folder is not date-named and no sub-folder of it is, `move_files` visits
   * the top level only and changes and logs nothing.
   */
  lemma MoveFilesIdle(arr: Arrangement, t: Node, root: Path, fuel: nat)
    requires Lists(arr) && !IsDateName(Basename(root))
    requires forall x :: x in Names(t, root) && IsDirAt(t, root + [x]) ==> !IsDateName(x)
    requires fuel > |Names(t, root)|
    ensures MoveFilesOutcome(arr, t, root, fuel) == WalkRun(Done, t, [], [])
  {
    if IsDirAt(t, root) {
      var names := ListDir(arr, t, root);
      var dirs := DirsAmong(t, root, names);
      ListingOf(arr, t, root);
      DistinctLength(names);
      DirsAmongLength(t, root, names);
      forall q | q in Pushed(root, dirs) ensures q != root && !IsDateName(Basename(q)) {
        var x :| x in dirs && q == root + [x];
        assert x in Names(t, root) && IsDirAt(t, root + [x]);
        assert Basename(q) == x;
      }
      RootPruned(arr, t, root, [root], fuel, Pushed(root, dirs));
    } else {
      WalkPassesOver(arr, t, root, [root], fuel);
    }
  }
}
