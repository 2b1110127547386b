/**
 * The folder names the reorganiser recognises and creates, the destination paths it
 * builds below the input folder, and the facts about how those paths lie relative to
 * the date folder being processed.
 */
module Layout {
  import opened FileTree
  import opened DateName

  const Flat := "FLAT"
  const Light := "LIGHT"
  const FlatWizard := "FlatWizard"
  const FlatWizardRoot := "_FlatWizard"
  const Wbpp := "WBPP"
  const DatePrefix := "DATE_"

  /** `os.path.basename`: the last component ("" for the top of the tree). */
  function Basename(p: Path): string
  {
    if p == [] then "" else Last(p)
  }

  /** `"DATE_" + date`: never itself a date name. */
  function DateDirName(date: string): (r: string)
    ensures |r| == |date| + 5 && r[..5] == DatePrefix && r[5..] == date
    ensures !IsDateName(r)
  {
    var r := DatePrefix + date;
    NotDateName(r);
    r
  }

  lemma FixedNamesAreNotDates()
    ensures !IsDateName(Flat) && !IsDateName(Light) && !IsDateName(FlatWizardRoot) && !IsDateName(Wbpp)
  {
    NotDateName(Flat);
    NotDateName(Light);
    NotDateName(FlatWizardRoot);
    NotDateName(Wbpp);
  }

  lemma DateDirNameIsNotFixed(date: string)
    ensures DateDirName(date) != Light && DateDirName(date) != Flat && DateDirName(date) != Wbpp
  {
    var r := DateDirName(date);
    assert r[0] == 'D';
  }

  /** `<input>/_FlatWizard/DATE_<date>/FLAT`, where the flats of a date folder go. */
  function FlatTarget(root: Path, date: string): (r: Path)
    ensures |r| == |root| + 3 && r[..|root|] == root
    ensures r[|root|] == FlatWizardRoot && r[|root| + 1] == DateDirName(date) && r[|root| + 2] == Flat
    ensures forall i :: |root| <= i < |r| ==> !IsDateName(r[i])
  {
    FixedNamesAreNotDates();
    root + [FlatWizardRoot, DateDirName(date), Flat]
  }

  /** `<input>/<target>`, the folder of one observed target (a WBPP folder goes here). */
  function TargetDir(root: Path, target: string): Path
  {
    root + [target]
  }

  /** `<input>/<target>/DATE_<date>/LIGHT`, where the lights of one target go. */
  function LightTarget(root: Path, target: string, date: string): (r: Path)
    ensures |r| == |root| + 3 && r[..|root| + 1] == TargetDir(root, target)
    ensures r[|root| + 1] == DateDirName(date) && r[|root| + 2] == Light
    ensures forall i :: |root| < i < |r| ==> !IsDateName(r[i])
  {
    FixedNamesAreNotDates();
    root + [target, DateDirName(date), Light]
  }

  /**
   * The walk only reaches `p` through `root` and date folders: every folder strictly
   * between `root` and `p` is date-named (the listing of any other folder is pruned).
   */
  ghost predicate WalkReachable(root: Path, p: Path)
  {
    root <= p && forall i :: |root| <= i < |p| - 1 ==> IsDateName(p[i])
  }

  /** `d` is `root` or lies below it through date-named folders only, `d` itself included. */
  ghost predicate DateChain(root: Path, d: Path)
  {
    root <= d && forall i :: |root| <= i < |d| ==> IsDateName(d[i])
  }

  /** A reachable folder with a date name is a date chain, and its sub-folders are reachable. */
  lemma ReachableDateFolder(root: Path, p: Path, c: string)
    requires WalkReachable(root, p) && IsDateName(Basename(p))
    ensures DateChain(root, p)
    ensures WalkReachable(root, p + [c])
  {
    if p != root {
      assert p[|p| - 1] == Basename(p);
    }
  }

  /** Two paths that differ at a position inside both are disjoint. */
  lemma DifferAt(p: Path, q: Path, i: nat)
    requires i < |p| && i < |q| && p[i] != q[i]
    ensures Disjoint(p, q)
  {
  }

  /** The FLAT folder of a date folder lies apart from the place its flats go to. */
  lemma FlatRoutesApart(root: Path, d: Path)
    requires DateChain(root, d)
    ensures Disjoint(d + [Flat], FlatTarget(root, Basename(d)))
  {
    var t := FlatTarget(root, Basename(d));
    var f := d + [Flat];
    if d == root {
      assert f[|root|] == Flat;
      DifferAt(f, t, |root|);
    } else {
      assert IsDateName(d[|root|]);
      assert f[|root|] == d[|root|];
      DifferAt(f, t, |root|);
    }
  }

  /**
   * A target folder `<date folder>/LIGHT/<s>` lies apart from `<input>/<s>/DATE_<date>/LIGHT`,
   * and also from `<input>/<s>/WBPP`.
   */
  lemma LightRoutesApart(root: Path, d: Path, s: string)
    requires DateChain(root, d)
    ensures Disjoint(d + [Light, s], LightTarget(root, s, Basename(d)))
    ensures Disjoint(d + [Light, s], TargetDir(root, s) + [Wbpp])
  {
    var p := d + [Light, s];
    var lt := LightTarget(root, s, Basename(d));
    var wb := TargetDir(root, s) + [Wbpp];
    var k := |root|;
    FixedNamesAreNotDates();
    DateDirNameIsNotFixed(Basename(d));
    if d == root {
      assert p[k] == Light && p[k + 1] == s;
      if s != Light {
        DifferAt(p, lt, k);
        DifferAt(p, wb, k);
      } else {
        DifferAt(p, lt, k + 1);
        DifferAt(p, wb, k + 1);
      }
    } else {
      assert p[k] == d[k] && IsDateName(d[k]);
      if s != d[k] {
        DifferAt(p, lt, k);
        DifferAt(p, wb, k);
      } else {
        assert p[k + 1] == Light || IsDateName(p[k + 1]) by {
          if |d| > k + 1 { assert p[k + 1] == d[k + 1]; }
        }
        DifferAt(p, lt, k + 1);
        DifferAt(p, wb, k + 1);
      }
    }
  }

  /**
   * The separation under which one date folder's results are stated in full: it is not the
   * input folder itself, and no LIGHT target is named like its top-level date ancestor or
   * like `_FlatWizard`.
   */
  ghost predicate TargetApart(root: Path, d: Path, s: string)
  {
    root < d && s != d[|root|] && s != FlatWizardRoot
  }

  /** Under the separation, the date folder, the flat target and a target folder are pairwise apart. */
  lemma PlacesApart(root: Path, d: Path, s: string)
    requires DateChain(root, d) && TargetApart(root, d, s)
    ensures Disjoint(d, TargetDir(root, s))
    ensures Disjoint(d, FlatTarget(root, Basename(d)))
    ensures Disjoint(TargetDir(root, s), FlatTarget(root, Basename(d)))
  {
    var k := |root|;
    FixedNamesAreNotDates();
    assert IsDateName(d[k]);
    DifferAt(d, TargetDir(root, s), k);
    DifferAt(d, FlatTarget(root, Basename(d)), k);
    DifferAt(TargetDir(root, s), FlatTarget(root, Basename(d)), k);
  }

  /** A path not at or above `p`, and not below `p + [e]`, lies apart from `p + [e]`. */
  lemma OffTheWay(p: Path, e: string, q: Path)
    requires !(q <= p) && (p < q ==> q[|p|] != e)
    ensures Disjoint(q, p + [e])
  {
    if p <= q {
      DifferAt(q, p + [e], |p|);
    } else {
      DisjointBelow(q, p, q, p + [e]);
    }
  }

  /** Two prefixes of one path are prefixes of each other. */
  lemma PrefixesOfOne(a: Path, b: Path, c: Path)
    requires a <= c && b <= c
    ensures a <= b || b <= a
  {
    if |a| <= |b| {
      assert a == b[..|a|];
    } else {
      assert b == a[..|b|];
    }
  }

  /** Paths below two disjoint paths are disjoint. */
  lemma DisjointBelow(p: Path, q: Path, p': Path, q': Path)
    requires Disjoint(p, q) && p <= p' && q <= q'
    ensures Disjoint(p', q')
  {
    if p' <= q' {
      PrefixesOfOne(p, q, q');
    }
    if q' <= p' {
      PrefixesOfOne(p, q, p');
    }
  }
}
