/**
 * What the loop over a date folder's sub-folders (lines 41-94) and the emptiness check
 * after it (lines 95-104) do: FLAT and LIGHT are handled by their branches, which do not
 * disturb each other; every other sub-folder is only logged as unknown, every plain file
 * is only logged as skipped, and the date folder is removed exactly when nothing else is
 * left in it.
 */
module FolderFacts {
  import opened FileTree
  import opened FsOps
  import opened DateName
  import opened Layout
  import opened Steps
  import opened MoveFacts
  import opened FlatFacts
  import opened LightFacts

  // ---------------------------------------------------------------- the two branches side by side

  /** The FLAT branch leaves LIGHT, and the input folder's entries named like a target, as they were. */
  lemma FlatKeepsLight(arr: Arrangement, t: Node, root: Path, d: Path)
    requires Lists(arr) && DateChain(root, d) && LightApart(t, root, d) && FlatOutcome(arr, t, root, d).ok
    ensures var t' := FlatOutcome(arr, t, root, d).tree;
      && IsDirAt(t', root)
      && Get(t', LightFolder(d)) == Get(t, LightFolder(d))
      && LightApart(t', root, d)
      && LightReady(t', root, d) == LightReady(t, root, d)
  {
    var t' := FlatOutcome(arr, t, root, d).tree;
    var f, l, w, k := FlatFolder(d), LightFolder(d), root + [FlatWizardRoot], |root|;
    FixedNamesAreNotDates();
    assert IsDateName(d[k]) && l[k] == d[k] && f[k] == d[k];
    DifferAt(l, f, |d|);
    DifferAt(l, w, k);
    FlatFar(arr, t, root, d, l);
    forall s | s in Names(t, l) ensures Get(t', TargetDir(root, s)) == Get(t, TargetDir(root, s)) {
      assert TargetApart(root, d, s);
      DifferAt(TargetDir(root, s), f, k);
      DifferAt(TargetDir(root, s), w, k);
      FlatFar(arr, t, root, d, TargetDir(root, s));
    }
    FlatStages(arr, t, root, d);
    AncestorIsDir(t, root, FlatSource(t, d));
    FlatAbove(arr, t, root, d, root);
    LightReadyKept(t, t', root, d);
  }

  /** The LIGHT branch leaves FLAT and `<input>/_FlatWizard` as they were. */
  lemma LightKeepsFlat(arr: Arrangement, t: Node, root: Path, d: Path)
    requires Lists(arr) && DateChain(root, d) && LightApart(t, root, d) && LightOutcome(arr, t, root, d).ok
    ensures var t' := LightOutcome(arr, t, root, d).tree;
      && IsDirAt(t', root)
      && Get(t', FlatFolder(d)) == Get(t, FlatFolder(d))
      && Get(t', root + [FlatWizardRoot]) == Get(t, root + [FlatWizardRoot])
      && FlatSource(t', d) == FlatSource(t, d)
      && FlatReady(t', root, d) == FlatReady(t, root, d)
  {
    var t' := LightOutcome(arr, t, root, d).tree;
    var f, l, w, k := FlatFolder(d), LightFolder(d), root + [FlatWizardRoot], |root|;
    FixedNamesAreNotDates();
    assert IsDateName(d[k]) && l[k] == d[k] && f[k] == d[k];
    DifferAt(f, l, |d|);
    DifferAt(w, l, k);
    forall s | s in Names(t, l) ensures Disjoint(f, TargetDir(root, s)) && Disjoint(w, TargetDir(root, s)) {
      assert TargetApart(root, d, s);
      DifferAt(f, TargetDir(root, s), k);
      DifferAt(w, TargetDir(root, s), k);
    }
    LightFrame(arr, t, root, d, f);
    LightFrame(arr, t, root, d, w);
    LightStages(arr, t, root, d);
    AncestorIsDir(t, root, l);
    LightListings(arr, t, root, d);
    FlatReadyKept(t, t', root, d);
  }

  /** The FLAT branch leaves every other entry of the date folder as it was. */
  lemma FlatKeepsEntry(arr: Arrangement, t: Node, root: Path, d: Path, x: string)
    requires Lists(arr) && DateChain(root, d) && root < d && FlatOutcome(arr, t, root, d).ok && x != Flat
    ensures Get(FlatOutcome(arr, t, root, d).tree, d + [x]) == Get(t, d + [x])
  {
    var k := |root|;
    FixedNamesAreNotDates();
    assert IsDateName(d[k]) && (d + [x])[k] == d[k];
    DifferAt(d + [x], FlatFolder(d), |d|);
    DifferAt(d + [x], root + [FlatWizardRoot], k);
    FlatFar(arr, t, root, d, d + [x]);
  }

  /** The LIGHT branch leaves every other entry of the date folder as it was. */
  lemma LightKeepsEntry(arr: Arrangement, t: Node, root: Path, d: Path, x: string)
    requires Lists(arr) && DateChain(root, d) && LightApart(t, root, d) && LightOutcome(arr, t, root, d).ok
    requires x != Light
    ensures Get(LightOutcome(arr, t, root, d).tree, d + [x]) == Get(t, d + [x])
  {
    var k := |root|;
    var q := d + [x];
    assert q[k] == d[k];
    DifferAt(q, LightFolder(d), |d|);
    forall s | s in Names(t, LightFolder(d)) ensures Disjoint(q, TargetDir(root, s)) {
      assert TargetApart(root, d, s);
      DifferAt(q, TargetDir(root, s), k);
    }
    LightFrame(arr, t, root, d, q);
  }

  /** The FLAT branch takes `FLAT` out of the date folder's listing. */
  lemma FlatDateNames(arr: Arrangement, t: Node, root: Path, d: Path)
    requires Lists(arr) && DateChain(root, d) && root < d && FlatOutcome(arr, t, root, d).ok
    ensures var t' := FlatOutcome(arr, t, root, d).tree;
      IsDirAt(t', d) && Names(t', d) == Names(t, d) - {Flat}
  {
    var k := |root|;
    FixedNamesAreNotDates();
    assert IsDateName(d[k]);
    DifferAt(d, FlatTarget(root, Basename(d)), k);
    FlatAbove(arr, t, root, d, d);
  }

  // ---------------------------------------------------------------- the loop over `dirs` (lines 41-94)

  /** A suffix of the date folder's `dirs`, to be handled from the tree `t`. */
  ghost predicate ChildrenSetting(t: Node, root: Path, d: Path, dirs: seq<string>)
  {
    && DateChain(root, d) && LightApart(t, root, d) && IsDirAt(t, d) && Distinct(dirs)
    && forall x :: x in dirs ==> x in Names(t, d) && IsDirAt(t, d + [x])
  }

  lemma ChildrenTail(t: Node, root: Path, d: Path, dirs: seq<string>)
    requires ChildrenSetting(t, root, d, dirs) && dirs != []
    ensures ChildrenSetting(t, root, d, dirs[1..])
    ensures forall x :: x in dirs <==> x == dirs[0] || x in dirs[1..]
    ensures dirs[0] !in dirs[1..]
    ensures Elements(dirs) == {dirs[0]} + Elements(dirs[1..])
  {
    forall x | x in dirs[1..] ensures x in dirs && x != dirs[0] {
      var k :| 0 <= k < |dirs[1..]| && dirs[1..][k] == x;
      assert dirs[k + 1] == x;
    }
    assert Elements(dirs) == {dirs[0]} + Elements(dirs[1..]);
  }

  /** After FLAT as the first of `dirs`, the rest is a setting again; LIGHT is as it was. */
  lemma FlatHead(arr: Arrangement, t: Node, root: Path, d: Path, dirs: seq<string>)
    requires Lists(arr) && ChildrenSetting(t, root, d, dirs) && dirs != [] && dirs[0] == Flat
    requires FlatOutcome(arr, t, root, d).ok
    ensures var t' := FlatOutcome(arr, t, root, d).tree;
      && ChildrenSetting(t', root, d, dirs[1..])
      && Names(t', d) == Names(t, d) - {Flat}
      && Get(t', LightFolder(d)) == Get(t, LightFolder(d))
      && LightReady(t', root, d) == LightReady(t, root, d)
  {
    var t' := FlatOutcome(arr, t, root, d).tree;
    ChildrenTail(t, root, d, dirs);
    FlatDateNames(arr, t, root, d);
    FlatKeepsLight(arr, t, root, d);
    forall x | x in dirs[1..] ensures x in Names(t', d) && IsDirAt(t', d + [x]) {
      FlatKeepsEntry(arr, t, root, d, x);
    }
  }

  /** After LIGHT as the first of `dirs`, the rest is a setting again; FLAT is as it was. */
  lemma LightHead(arr: Arrangement, t: Node, root: Path, d: Path, dirs: seq<string>)
    requires Lists(arr) && ChildrenSetting(t, root, d, dirs) && dirs != [] && dirs[0] == Light
    requires LightOutcome(arr, t, root, d).ok
    ensures var t' := LightOutcome(arr, t, root, d).tree;
      && ChildrenSetting(t', root, d, dirs[1..])
      && Names(t', d) == Names(t, d) - {Light}
      && Get(t', FlatFolder(d)) == Get(t, FlatFolder(d))
      && Get(t', root + [FlatWizardRoot]) == Get(t, root + [FlatWizardRoot])
      && FlatSource(t', d) == FlatSource(t, d)
      && FlatReady(t', root, d) == FlatReady(t, root, d)
  {
    var t' := LightOutcome(arr, t, root, d).tree;
    ChildrenTail(t, root, d, dirs);
    LightListings(arr, t, root, d);
    LightKeepsFlat(arr, t, root, d);
    LightGone(arr, t, root, d, LightFolder(d));
    assert Names(t', LightFolder(d)) == {};
    forall x | x in dirs[1..] ensures x in Names(t', d) && IsDirAt(t', d + [x]) {
      LightKeepsEntry(arr, t, root, d, x);
    }
  }

  /** After an unknown folder as the first of `dirs` (it is only logged), the rest is a setting again. */
  lemma OtherHead(arr: Arrangement, t: Node, root: Path, d: Path, dirs: seq<string>)
    requires ChildrenSetting(t, root, d, dirs) && dirs != [] && dirs[0] != Flat && dirs[0] != Light
    ensures ChildOutcome(arr, t, root, d, dirs[0]) == Outcome(true, t, [UnknownFolder(d + [dirs[0]])])
    ensures ChildrenSetting(t, root, d, dirs[1..])
  {
    ChildrenTail(t, root, d, dirs);
  }

  /** The loop runs to the end exactly when FLAT and LIGHT, where they are among `dirs`, are ready. */
  lemma {:induction false} ChildrenSucceed(arr: Arrangement, t: Node, root: Path, d: Path, dirs: seq<string>)
    requires Lists(arr) && ChildrenSetting(t, root, d, dirs)
    ensures ChildrenOutcome(arr, t, root, d, dirs).ok <==>
      (Flat in dirs ==> FlatReady(t, root, d)) && (Light in dirs ==> LightReady(t, root, d))
    decreases |dirs|
  {
    if dirs != [] {
      var x := dirs[0];
      var o := ChildOutcome(arr, t, root, d, x);
      ChildrenTail(t, root, d, dirs);
      if x == Flat {
        FlatSucceeds(arr, t, root, d);
        if o.ok {
          FlatHead(arr, t, root, d, dirs);
          ChildrenSucceed(arr, o.tree, root, d, dirs[1..]);
        }
      } else if x == Light {
        LightSucceeds(arr, t, root, d);
        if o.ok {
          LightHead(arr, t, root, d, dirs);
          ChildrenSucceed(arr, o.tree, root, d, dirs[1..]);
        }
      } else {
        OtherHead(arr, t, root, d, dirs);
        ChildrenSucceed(arr, t, root, d, dirs[1..]);
      }
    }
  }

  /** After the loop the date folder lists what it did, except the FLAT and LIGHT among `dirs`. */
  lemma {:induction false} ChildrenNames(arr: Arrangement, t: Node, root: Path, d: Path, dirs: seq<string>)
    requires Lists(arr) && ChildrenSetting(t, root, d, dirs) && ChildrenOutcome(arr, t, root, d, dirs).ok
    ensures var r := ChildrenOutcome(arr, t, root, d, dirs).tree;
      IsDirAt(r, d) && Names(r, d) == Names(t, d) - ({Flat, Light} * Elements(dirs))
    decreases |dirs|
  {
    if dirs != [] {
      var x := dirs[0];
      var o := ChildOutcome(arr, t, root, d, x);
      ChildrenTail(t, root, d, dirs);
      if x == Flat {
        FlatHead(arr, t, root, d, dirs);
        ChildrenNames(arr, o.tree, root, d, dirs[1..]);
      } else if x == Light {
        LightHead(arr, t, root, d, dirs);
        ChildrenNames(arr, o.tree, root, d, dirs[1..]);
      } else {
        OtherHead(arr, t, root, d, dirs);
        ChildrenNames(arr, t, root, d, dirs[1..]);
      }
    }
  }

  /** The loop leaves every entry of the date folder other than the FLAT and LIGHT among `dirs` as it was. */
  lemma {:induction false} ChildrenKeeps(arr: Arrangement, t: Node, root: Path, d: Path, dirs: seq<string>, x: string)
    requires Lists(arr) && ChildrenSetting(t, root, d, dirs) && ChildrenOutcome(arr, t, root, d, dirs).ok
    requires (x == Flat || x == Light) ==> x !in dirs
    ensures Get(ChildrenOutcome(arr, t, root, d, dirs).tree, d + [x]) == Get(t, d + [x])
    decreases |dirs|
  {
    if dirs != [] {
      var o := ChildOutcome(arr, t, root, d, dirs[0]);
      ChildrenTail(t, root, d, dirs);
      if dirs[0] == Flat {
        FlatHead(arr, t, root, d, dirs);
        FlatKeepsEntry(arr, t, root, d, x);
        ChildrenKeeps(arr, o.tree, root, d, dirs[1..], x);
      } else if dirs[0] == Light {
        LightHead(arr, t, root, d, dirs);
        LightKeepsEntry(arr, t, root, d, x);
        ChildrenKeeps(arr, o.tree, root, d, dirs[1..], x);
      } else {
        OtherHead(arr, t, root, d, dirs);
        ChildrenKeeps(arr, t, root, d, dirs[1..], x);
      }
    }
  }

  /** Away from the folders the branches among `dirs` touch, the loop changes nothing. */
  lemma {:induction false} ChildrenFar(arr: Arrangement, t: Node, root: Path, d: Path, dirs: seq<string>, q: Path)
    requires Lists(arr) && ChildrenSetting(t, root, d, dirs) && ChildrenOutcome(arr, t, root, d, dirs).ok
    requires Flat in dirs ==> Disjoint(q, FlatFolder(d)) && Disjoint(q, root + [FlatWizardRoot])
    requires Light in dirs ==>
      Disjoint(q, LightFolder(d)) && forall s :: s in Names(t, LightFolder(d)) ==> Disjoint(q, TargetDir(root, s))
    ensures Get(ChildrenOutcome(arr, t, root, d, dirs).tree, q) == Get(t, q)
    decreases |dirs|
  {
    if dirs != [] {
      var o := ChildOutcome(arr, t, root, d, dirs[0]);
      ChildrenTail(t, root, d, dirs);
      if dirs[0] == Flat {
        FlatHead(arr, t, root, d, dirs);
        FlatFar(arr, t, root, d, q);
        ChildrenFar(arr, o.tree, root, d, dirs[1..], q);
      } else if dirs[0] == Light {
        LightHead(arr, t, root, d, dirs);
        LightFrame(arr, t, root, d, q);
        ChildrenFar(arr, o.tree, root, d, dirs[1..], q);
      } else {
        OtherHead(arr, t, root, d, dirs);
        ChildrenFar(arr, t, root, d, dirs[1..], q);
      }
    }
  }

  /** When FLAT comes first, its flats stay in the flat target through the rest of the loop. */
  lemma FlatPlacesFirst(arr: Arrangement, t: Node, root: Path, d: Path, dirs: seq<string>, e: string)
    requires Lists(arr) && ChildrenSetting(t, root, d, dirs) && ChildrenOutcome(arr, t, root, d, dirs).ok
    requires dirs != [] && dirs[0] == Flat && e in Names(t, FlatSource(t, d))
    ensures Get(ChildrenOutcome(arr, t, root, d, dirs).tree, FlatTarget(root, Basename(d)) + [e]) ==
            Get(t, FlatSource(t, d) + [e])
  {
    var o := ChildOutcome(arr, t, root, d, dirs[0]);
    var q := FlatTarget(root, Basename(d)) + [e];
    var k := |root|;
    ChildrenTail(t, root, d, dirs);
    FlatHead(arr, t, root, d, dirs);
    FlatPlaces(arr, t, root, d, e);
    assert q[k] == FlatWizardRoot && LightFolder(d)[k] == d[k];
    FixedNamesAreNotDates();
    DifferAt(q, LightFolder(d), k);
    forall s | s in Names(o.tree, LightFolder(d)) ensures Disjoint(q, TargetDir(root, s)) {
      assert TargetApart(root, d, s);
      DifferAt(q, TargetDir(root, s), k);
    }
    ChildrenFar(arr, o.tree, root, d, dirs[1..], q);
  }

  /** After the loop the flats sit in the flat target, whatever LIGHT's branch did after or before. */
  lemma {:induction false} ChildrenFlatPlaces(arr: Arrangement, t: Node, root: Path, d: Path, dirs: seq<string>, e: string)
    requires Lists(arr) && ChildrenSetting(t, root, d, dirs) && ChildrenOutcome(arr, t, root, d, dirs).ok
    requires Flat in dirs && e in Names(t, FlatSource(t, d))
    ensures Get(ChildrenOutcome(arr, t, root, d, dirs).tree, FlatTarget(root, Basename(d)) + [e]) ==
            Get(t, FlatSource(t, d) + [e])
    decreases |dirs|
  {
    var o := ChildOutcome(arr, t, root, d, dirs[0]);
    var src := FlatSource(t, d);
    ChildrenTail(t, root, d, dirs);
    if dirs[0] == Flat {
      FlatPlacesFirst(arr, t, root, d, dirs, e);
    } else if dirs[0] == Light {
      LightHead(arr, t, root, d, dirs);
      SameBelow(t, o.tree, FlatFolder(d), src);
      SameBelow(t, o.tree, FlatFolder(d), src + [e]);
      ChildrenFlatPlaces(arr, o.tree, root, d, dirs[1..], e);
    } else {
      OtherHead(arr, t, root, d, dirs);
      ChildrenFlatPlaces(arr, t, root, d, dirs[1..], e);
    }
  }

  /** When LIGHT comes first, the entries it placed stay there through the rest of the loop. */
  lemma LightPlacesFirst(arr: Arrangement, t: Node, root: Path, d: Path, dirs: seq<string>, s: string, e: string)
    requires Lists(arr) && ChildrenSetting(t, root, d, dirs) && ChildrenOutcome(arr, t, root, d, dirs).ok
    requires dirs != [] && dirs[0] == Light && s in Names(t, LightFolder(d)) && e in Names(t, TargetFolder(d, s))
    ensures Get(ChildrenOutcome(arr, t, root, d, dirs).tree,
                Dest(LightTarget(root, s, Basename(d)), Some(TargetDir(root, s)), e)) ==
            Get(t, TargetFolder(d, s) + [e])
  {
    var o := ChildOutcome(arr, t, root, d, dirs[0]);
    var q := Dest(LightTarget(root, s, Basename(d)), Some(TargetDir(root, s)), e);
    var k := |root|;
    ChildrenTail(t, root, d, dirs);
    LightHead(arr, t, root, d, dirs);
    LightPlaces(arr, t, root, d, s, e);
    assert TargetApart(root, d, s);
    assert q[k] == s && FlatFolder(d)[k] == d[k] && (root + [FlatWizardRoot])[k] == FlatWizardRoot;
    DifferAt(q, FlatFolder(d), k);
    DifferAt(q, root + [FlatWizardRoot], k);
    ChildrenFar(arr, o.tree, root, d, dirs[1..], q);
  }

  /** After the loop each entry of a target folder sits at its route, whatever FLAT's branch did after or before. */
  lemma {:induction false} ChildrenLightPlaces(arr: Arrangement, t: Node, root: Path, d: Path, dirs: seq<string>,
                                               s: string, e: string)
    requires Lists(arr) && ChildrenSetting(t, root, d, dirs) && ChildrenOutcome(arr, t, root, d, dirs).ok
    requires Light in dirs && s in Names(t, LightFolder(d)) && e in Names(t, TargetFolder(d, s))
    ensures Get(ChildrenOutcome(arr, t, root, d, dirs).tree,
                Dest(LightTarget(root, s, Basename(d)), Some(TargetDir(root, s)), e)) ==
            Get(t, TargetFolder(d, s) + [e])
    decreases |dirs|
  {
    var o := ChildOutcome(arr, t, root, d, dirs[0]);
    ChildrenTail(t, root, d, dirs);
    if dirs[0] == Light {
      LightPlacesFirst(arr, t, root, d, dirs, s, e);
    } else if dirs[0] == Flat {
      FlatHead(arr, t, root, d, dirs);
      SameBelow(t, o.tree, LightFolder(d), TargetFolder(d, s));
      SameBelow(t, o.tree, LightFolder(d), TargetFolder(d, s) + [e]);
      ChildrenLightPlaces(arr, o.tree, root, d, dirs[1..], s, e);
    } else {
      OtherHead(arr, t, root, d, dirs);
      ChildrenLightPlaces(arr, t, root, d, dirs[1..], s, e);
    }
  }

  // ---------------------------------------------------------------- what the loop logs

  /** The error lines of a log, in order. */
  function Errors(events: seq<Event>): (r: seq<Event>)
    ensures forall i :: 0 <= i < |r| ==> LevelOf(r[i]) == Error
    ensures |r| <= |events|
  {
    if events == [] then []
    else (if LevelOf(events[0]) == Error then [events[0]] else []) + Errors(events[1..])
  }

  /** The "skipping file" lines of a log, in order. */
  function Skips(events: seq<Event>): (r: seq<Event>)
    ensures forall i :: 0 <= i < |r| ==> r[i].SkippingFile?
    ensures |r| <= |events|
  {
    if events == [] then []
    else (if events[0].SkippingFile? then [events[0]] else []) + Skips(events[1..])
  }

  /** The "Unknown folder found" lines for the sub-folders of `d` other than FLAT and LIGHT, in order. */
  function Unknowns(d: Path, dirs: seq<string>): (r: seq<Event>)
    ensures |r| <= |dirs|
  {
    if dirs == [] then []
    else (if dirs[0] != Flat && dirs[0] != Light then [UnknownFolder(d + [dirs[0]])] else []) + Unknowns(d, dirs[1..])
  }

  lemma {:induction false} FiltersAppend(a: seq<Event>, b: seq<Event>)
    ensures Errors(a + b) == Errors(a) + Errors(b)
    ensures Skips(a + b) == Skips(a) + Skips(b)
    decreases |a|
  {
    if a != [] {
      assert (a + b)[0] == a[0] && (a + b)[1..] == a[1..] + b;
      FiltersAppend(a[1..], b);
    } else {
      assert a + b == b;
    }
  }

  /** A log of informational lines has no error lines; one without skip lines has no skip lines. */
  lemma {:induction false} FiltersEmpty(a: seq<Event>)
    ensures AllInfo(a) ==> Errors(a) == []
    ensures NoSkips(a) ==> Skips(a) == []
    decreases |a|
  {
    if a != [] {
      FiltersEmpty(a[1..]);
      assert AllInfo(a) ==> AllInfo(a[1..]) && LevelOf(a[0]) == Info by {
        if AllInfo(a) {
          forall i | 0 <= i < |a[1..]| ensures LevelOf(a[1..][i]) == Info {
            assert a[1..][i] == a[i + 1];
          }
        }
      }
      assert NoSkips(a) ==> NoSkips(a[1..]) && !a[0].SkippingFile? by {
        if NoSkips(a) {
          forall i | 0 <= i < |a[1..]| ensures !a[1..][i].SkippingFile? {
            assert a[1..][i] == a[i + 1];
          }
        }
      }
    }
  }

  /**
   * The loop's error lines are the "Unknown folder found" lines of the sub-folders it has
   * reached, in order, and all of them when it runs to the end; it writes no skip lines.
   */
  lemma {:induction false} ChildrenLog(arr: Arrangement, t: Node, root: Path, d: Path, dirs: seq<string>)
    requires Lists(arr) && ChildrenSetting(t, root, d, dirs)
    ensures var o := ChildrenOutcome(arr, t, root, d, dirs);
      && Errors(o.events) <= Unknowns(d, dirs)
      && (o.ok ==> Errors(o.events) == Unknowns(d, dirs))
      && Skips(o.events) == []
    decreases |dirs|
  {
    if dirs != [] {
      var x := dirs[0];
      var o := ChildOutcome(arr, t, root, d, x);
      var rest := ChildrenOutcome(arr, o.tree, root, d, dirs[1..]);
      ChildrenTail(t, root, d, dirs);
      if x == Flat {
        FlatLog(arr, t, root, d);
        FlatNoSkips(arr, t, root, d);
      } else if x == Light {
        LightLog(arr, t, root, d);
      }
      FiltersEmpty(o.events);
      if o.ok {
        if x == Flat {
          FlatHead(arr, t, root, d, dirs);
        } else if x == Light {
          LightHead(arr, t, root, d, dirs);
        } else {
          OtherHead(arr, t, root, d, dirs);
        }
        ChildrenLog(arr, o.tree, root, d, dirs[1..]);
        FiltersAppend(o.events, rest.events);
      }
    }
  }

  // ---------------------------------------------------------------- one date folder (lines 41-104)

  /** The FLAT and LIGHT sub-folders of `d`: the ones the loop hands to a branch. */
  ghost function Branches(t: Node, d: Path): set<string>
  {
    set x | x in {Flat, Light} && IsDirAt(t, d + [x])
  }

  lemma {:induction false} DirsAmongDistinct(t: Node, p: Path, names: seq<string>)
    requires Distinct(names)
    ensures Distinct(DirsAmong(t, p, names))
    decreases |names|
  {
    if names != [] {
      var rest := names[1..];
      assert Distinct(rest) by {
        forall i, j | 0 <= i < j < |rest| ensures rest[i] != rest[j] {
          assert rest[i] == names[i + 1] && rest[j] == names[j + 1];
        }
      }
      DirsAmongDistinct(t, p, rest);
      var tail := DirsAmong(t, p, rest);
      assert names[0] !in rest by {
        forall i | 0 <= i < |rest| ensures rest[i] != names[0] {
          assert rest[i] == names[i + 1];
        }
      }
      var head := if IsDirAt(t, p + [names[0]]) then [names[0]] else [];
      forall i, j | 0 <= i < j < |head + tail| ensures (head + tail)[i] != (head + tail)[j] {
        if i < |head| {
          assert (head + tail)[j] == tail[j - |head|];
          assert tail[j - |head|] in tail;
        } else {
          assert (head + tail)[i] == tail[i - |head|] && (head + tail)[j] == tail[j - |head|];
        }
      }
    }
  }

  /**
   * The `dirs` the walk reports for a folder: each sub-folder once, FLAT and LIGHT among them
   * exactly when present; for a date folder whose targets lie apart, the loop's setting.
   */
  lemma FolderListing(arr: Arrangement, t: Node, root: Path, d: Path)
    requires Lists(arr) && IsDirAt(t, d)
    ensures var names := ListDir(arr, t, d);
      var dirs := DirsAmong(t, d, names);
      && Distinct(dirs)
      && (forall x :: x in dirs <==> x in Names(t, d) && IsDirAt(t, d + [x]))
      && (DateChain(root, d) && LightApart(t, root, d) ==> ChildrenSetting(t, root, d, dirs))
      && {Flat, Light} * Elements(dirs) == Branches(t, d)
      && (Flat in dirs <==> IsDirAt(t, FlatFolder(d)))
      && (Light in dirs <==> IsDirAt(t, LightFolder(d)))
  {
    var names := ListDir(arr, t, d);
    var dirs := DirsAmong(t, d, names);
    ListingOf(arr, t, d);
    DirsAmongDistinct(t, d, names);
    ChildIsListed(t, d, Flat);
    ChildIsListed(t, d, Light);
    forall x | x in Branches(t, d) ensures x in dirs {
      ChildIsListed(t, d, x);
    }
  }

  /** The date folder's step runs to the end exactly when its FLAT and LIGHT folders, where present, are ready. */
  lemma DateFolderSucceeds(arr: Arrangement, t: Node, root: Path, d: Path)
    requires Lists(arr) && DateChain(root, d) && LightApart(t, root, d) && IsDirAt(t, d)
    ensures var names := ListDir(arr, t, d);
      DateFolderOutcome(arr, t, root, d, DirsAmong(t, d, names), FilesAmong(t, d, names)).ok <==>
        (IsDirAt(t, FlatFolder(d)) ==> FlatReady(t, root, d)) &&
        (IsDirAt(t, LightFolder(d)) ==> LightReady(t, root, d))
  {
    var names := ListDir(arr, t, d);
    var dirs := DirsAmong(t, d, names);
    FolderListing(arr, t, root, d);
    ChildrenSucceed(arr, t, root, d, dirs);
    var o := ChildrenOutcome(arr, t, root, d, dirs);
    if o.ok {
      ChildrenNames(arr, t, root, d, dirs);
      if Names(o.tree, d) == {} {
        EmptyDir(o.tree, d);
      }
    }
  }

  /** How the step's outcome is made of its sub-folders' outcome, the skip lines and the removal. */
  lemma DateFolderShape(arr: Arrangement, t: Node, root: Path, d: Path, dirs: seq<string>, files: seq<string>)
    ensures var o := ChildrenOutcome(arr, t, root, d, dirs);
      var r := DateFolderOutcome(arr, t, root, d, dirs, files);
      var emptied := IsDirAt(o.tree, d) && Names(o.tree, d) == {};
      && (!o.ok ==> r == o)
      && (o.ok && emptied ==>
            && r.events == o.events + SkipEvents(d, files) + [Removing(d)] && r.ok == RemoveDir(o.tree, d).Ok?
            && (r.ok ==> r.tree == RemoveDir(o.tree, d).value))
      && (o.ok && !emptied ==>
            r.events == o.events + SkipEvents(d, files) && r.ok == IsDirAt(o.tree, d) && r.tree == o.tree)
  {
  }

  /**
   * After the step the date folder is gone exactly when FLAT and LIGHT folders were all it
   * held; otherwise it lists what it held, less those folders.
   */
  lemma DateFolderRemoval(arr: Arrangement, t: Node, root: Path, d: Path)
    requires Lists(arr) && DateChain(root, d) && LightApart(t, root, d) && IsDirAt(t, d)
    requires var names := ListDir(arr, t, d);
      DateFolderOutcome(arr, t, root, d, DirsAmong(t, d, names), FilesAmong(t, d, names)).ok
    ensures var names := ListDir(arr, t, d);
      var r := DateFolderOutcome(arr, t, root, d, DirsAmong(t, d, names), FilesAmong(t, d, names)).tree;
      && (Get(r, d).None? <==> Names(t, d) <= Branches(t, d))
      && (!(Names(t, d) <= Branches(t, d)) ==> IsDirAt(r, d) && Names(r, d) == Names(t, d) - Branches(t, d))
  {
    var names := ListDir(arr, t, d);
    var dirs := DirsAmong(t, d, names);
    DateFolderShape(arr, t, root, d, dirs, FilesAmong(t, d, names));
    FolderListing(arr, t, root, d);
    ChildrenNames(arr, t, root, d, dirs);
    var o := ChildrenOutcome(arr, t, root, d, dirs);
    var left := Names(o.tree, d);
    assert left == Names(t, d) - Branches(t, d);
    assert left == {} <==> Names(t, d) <= Branches(t, d);
    if left == {} {
      RemoveDirEffect(o.tree, d, d);
    }
  }

  /** The step leaves every entry of the date folder other than its FLAT and LIGHT folders as it was. */
  lemma DateFolderKeeps(arr: Arrangement, t: Node, root: Path, d: Path, x: string)
    requires Lists(arr) && DateChain(root, d) && LightApart(t, root, d) && IsDirAt(t, d)
    requires var names := ListDir(arr, t, d);
      DateFolderOutcome(arr, t, root, d, DirsAmong(t, d, names), FilesAmong(t, d, names)).ok
    requires x in Names(t, d) && x !in Branches(t, d)
    ensures var names := ListDir(arr, t, d);
      var r := DateFolderOutcome(arr, t, root, d, DirsAmong(t, d, names), FilesAmong(t, d, names)).tree;
      Get(r, d + [x]) == Get(t, d + [x])
  {
    var names := ListDir(arr, t, d);
    var dirs := DirsAmong(t, d, names);
    DateFolderShape(arr, t, root, d, dirs, FilesAmong(t, d, names));
    FolderListing(arr, t, root, d);
    ChildrenNames(arr, t, root, d, dirs);
    ChildrenKeeps(arr, t, root, d, dirs, x);
    var o := ChildrenOutcome(arr, t, root, d, dirs);
    assert x in Names(o.tree, d);
  }

  /** Paths below the flat target and below `<input>/<s>` lie apart from the date folder. */
  lemma AwayFromDate(root: Path, d: Path, q: Path)
    requires DateChain(root, d) && root < d && |root| < |q| && q[..|root|] == root && !IsDateName(q[|root|])
    ensures Disjoint(q, d)
  {
    assert IsDateName(d[|root|]);
    DifferAt(q, d, |root|);
  }

  /** After the step the flats sit in the flat target. */
  lemma DateFolderFlatPlaces(arr: Arrangement, t: Node, root: Path, d: Path, e: string)
    requires Lists(arr) && DateChain(root, d) && LightApart(t, root, d) && IsDirAt(t, d)
    requires var names := ListDir(arr, t, d);
      DateFolderOutcome(arr, t, root, d, DirsAmong(t, d, names), FilesAmong(t, d, names)).ok
    requires IsDirAt(t, FlatFolder(d)) && e in Names(t, FlatSource(t, d))
    ensures var names := ListDir(arr, t, d);
      var r := DateFolderOutcome(arr, t, root, d, DirsAmong(t, d, names), FilesAmong(t, d, names)).tree;
      Get(r, FlatTarget(root, Basename(d)) + [e]) == Get(t, FlatSource(t, d) + [e])
  {
    var names := ListDir(arr, t, d);
    var dirs := DirsAmong(t, d, names);
    var q := FlatTarget(root, Basename(d)) + [e];
    DateFolderShape(arr, t, root, d, dirs, FilesAmong(t, d, names));
    FolderListing(arr, t, root, d);
    ChildrenFlatPlaces(arr, t, root, d, dirs, e);
    var o := ChildrenOutcome(arr, t, root, d, dirs);
    ChildrenNames(arr, t, root, d, dirs);
    FixedNamesAreNotDates();
    assert q[..|root|] == root && q[|root|] == FlatWizardRoot;
    AwayFromDate(root, d, q);
    if Names(o.tree, d) == {} {
      RemoveDirEffect(o.tree, d, q);
    }
  }

  /** Where an entry of a target folder goes lies apart from the date folder. */
  lemma LightDestApart(root: Path, d: Path, s: string, e: string)
    requires DateChain(root, d) && TargetApart(root, d, s)
    ensures Disjoint(Dest(LightTarget(root, s, Basename(d)), Some(TargetDir(root, s)), e), d)
  {
    var q := Dest(LightTarget(root, s, Basename(d)), Some(TargetDir(root, s)), e);
    assert q[..|root|] == root && q[|root|] == s;
    DifferAt(q, d, |root|);
  }

  /** After the step each entry of a target folder sits at its route. */
  lemma DateFolderLightPlaces(arr: Arrangement, t: Node, root: Path, d: Path, s: string, e: string)
    requires Lists(arr) && DateChain(root, d) && LightApart(t, root, d) && IsDirAt(t, d)
    requires var names := ListDir(arr, t, d);
      DateFolderOutcome(arr, t, root, d, DirsAmong(t, d, names), FilesAmong(t, d, names)).ok
    requires IsDirAt(t, LightFolder(d)) && s in Names(t, LightFolder(d)) && e in Names(t, TargetFolder(d, s))
    ensures var names := ListDir(arr, t, d);
      var r := DateFolderOutcome(arr, t, root, d, DirsAmong(t, d, names), FilesAmong(t, d, names)).tree;
      Get(r, Dest(LightTarget(root, s, Basename(d)), Some(TargetDir(root, s)), e)) == Get(t, TargetFolder(d, s) + [e])
  {
    var names := ListDir(arr, t, d);
    var dirs := DirsAmong(t, d, names);
    var q := Dest(LightTarget(root, s, Basename(d)), Some(TargetDir(root, s)), e);
    DateFolderShape(arr, t, root, d, dirs, FilesAmong(t, d, names));
    FolderListing(arr, t, root, d);
    ChildrenLightPlaces(arr, t, root, d, dirs, s, e);
    var o := ChildrenOutcome(arr, t, root, d, dirs);
    ChildrenNames(arr, t, root, d, dirs);
    assert TargetApart(root, d, s);
    LightDestApart(root, d, s, e);
    if Names(o.tree, d) == {} {
      RemoveDirEffect(o.tree, d, q);
    }
  }

  /** Skip lines are informational, and are all the skip lines they contain. */
  lemma {:induction false} SkipFilters(a: seq<Event>)
    requires forall i :: 0 <= i < |a| ==> a[i].SkippingFile?
    ensures Errors(a) == [] && Skips(a) == a
    decreases |a|
  {
    if a != [] {
      assert forall i :: 0 <= i < |a[1..]| ==> a[1..][i] == a[i + 1];
      SkipFilters(a[1..]);
      assert a == [a[0]] + a[1..];
    }
  }

  /** The lines written after the loop add no error line and one skip line per plain file. */
  lemma TailFilters(ce: seq<Event>, d: Path, files: seq<string>)
    ensures Errors(ce + SkipEvents(d, files)) == Errors(ce)
    ensures Skips(ce + SkipEvents(d, files)) == Skips(ce) + SkipEvents(d, files)
    ensures Errors(ce + SkipEvents(d, files) + [Removing(d)]) == Errors(ce)
    ensures Skips(ce + SkipEvents(d, files) + [Removing(d)]) == Skips(ce) + SkipEvents(d, files)
  {
    var sk := SkipEvents(d, files);
    SkipFilters(sk);
    FiltersAppend(ce, sk);
    FiltersAppend(ce + sk, [Removing(d)]);
    assert Errors([Removing(d)]) == [] && Skips([Removing(d)]) == [];
  }

  /**
   * The step's error lines are exactly the "Unknown folder found" lines of its sub-folders
   * other than FLAT and LIGHT, and its skip lines are one per plain file, in listing order.
   */
  lemma DateFolderLog(arr: Arrangement, t: Node, root: Path, d: Path)
    requires Lists(arr) && DateChain(root, d) && LightApart(t, root, d) && IsDirAt(t, d)
    ensures var names := ListDir(arr, t, d);
      var dirs, files := DirsAmong(t, d, names), FilesAmong(t, d, names);
      var o := DateFolderOutcome(arr, t, root, d, dirs, files);
      && (o.ok ==> Errors(o.events) == Unknowns(d, dirs) && Skips(o.events) == SkipEvents(d, files))
      && (!o.ok ==> Errors(o.events) <= Unknowns(d, dirs) && Skips(o.events) == [])
  {
    var names := ListDir(arr, t, d);
    var dirs, files := DirsAmong(t, d, names), FilesAmong(t, d, names);
    FolderListing(arr, t, root, d);
    ChildrenLog(arr, t, root, d, dirs);
    DateFolderShape(arr, t, root, d, dirs, files);
    var o := ChildrenOutcome(arr, t, root, d, dirs);
    if o.ok {
      ChildrenNames(arr, t, root, d, dirs);
      TailFilters(o.events, d, files);
      if Names(o.tree, d) == {} {
        EmptyDir(o.tree, d);
      }
    }
  }
}
