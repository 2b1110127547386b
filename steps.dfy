/**
 * What each step of `move_files` does to the tree and to the log, as functions of the tree
 * it starts from. Every step either completes or stops at its first failing filesystem
 * call (all of which raise and end the script); an `Outcome` records which, the tree at
 * that point and the log lines written so far.
 *
 * The order in which `os.listdir` and `os.walk` report the entries of a directory is not
 * fixed by the program: it is a parameter `arr` (the listing of directory `p` holding the
 * names `s` is `arr(p, s)`), and the facts proved about these functions hold for every
 * arrangement that lists each name exactly once.
 */
module Steps {
  import opened FileTree
  import opened FsOps
  import opened DateName
  import opened Layout

  /** The messages the script logs, with the paths they name. */
  datatype Event =
    | Moving(from: Path, into: Path)
    | MovingWip(from: Path, into: Path)
    | Removing(path: Path)
    | RemovingFlat(path: Path)
    | RemovingLight(path: Path)
    | SourceNotFound(path: Path)
    | UnknownFolder(path: Path)
    | SkippingFile(path: Path)

  datatype Level = Info | Error

  /** `logging.error` is used for a missing FlatWizard source and an unknown folder, `logging.info` otherwise. */
  function LevelOf(e: Event): Level
  {
    if e.SourceNotFound? || e.UnknownFolder? then Error else Info
  }

  predicate AllInfo(events: seq<Event>)
  {
    forall i :: 0 <= i < |events| ==> LevelOf(events[i]) == Info
  }

  lemma AllInfoAppend(a: seq<Event>, b: seq<Event>)
    ensures AllInfo(a + b) <==> AllInfo(a) && AllInfo(b)
  {
    if AllInfo(a) && AllInfo(b) {
      forall i | 0 <= i < |a + b| ensures LevelOf((a + b)[i]) == Info {
        if i >= |a| { assert (a + b)[i] == b[i - |a|]; }
      }
    }
    if AllInfo(a + b) {
      forall i | 0 <= i < |a| ensures LevelOf(a[i]) == Info {
        assert (a + b)[i] == a[i];
      }
      forall i | 0 <= i < |b| ensures LevelOf(b[i]) == Info {
        assert (a + b)[i + |a|] == b[i];
      }
    }
  }

  /** None of the lines is a "skipping file" line. */
  predicate NoSkips(events: seq<Event>)
  {
    forall i :: 0 <= i < |events| ==> !events[i].SkippingFile?
  }

  lemma NoSkipsAppend(a: seq<Event>, b: seq<Event>)
    ensures NoSkips(a + b) <==> NoSkips(a) && NoSkips(b)
  {
    if NoSkips(a) && NoSkips(b) {
      forall i | 0 <= i < |a + b| ensures !(a + b)[i].SkippingFile? {
        if i >= |a| { assert (a + b)[i] == b[i - |a|]; }
      }
    }
    if NoSkips(a + b) {
      forall i | 0 <= i < |a| ensures !a[i].SkippingFile? {
        assert (a + b)[i] == a[i];
      }
      forall i | 0 <= i < |b| ensures !b[i].SkippingFile? {
        assert (a + b)[i + |a|] == b[i];
      }
    }
  }

  /** Whether a step completed, the tree when it completed or stopped, and what it logged. */
  datatype Outcome = Outcome(ok: bool, tree: Node, events: seq<Event>)

  /** Run `second` (already computed on `first.tree`) after `first`, unless `first` stopped. */
  function Chain(first: Outcome, second: Outcome): Outcome
  {
    if !first.ok then first else Outcome(second.ok, second.tree, first.events + second.events)
  }

  type Arrangement = (Path, set<string>) -> seq<string>

  predicate Distinct(xs: seq<string>)
  {
    forall i, j :: 0 <= i < j < |xs| ==> xs[i] != xs[j]
  }

  /** `xs` names every element of `s` exactly once. */
  ghost predicate IsListing(xs: seq<string>, s: set<string>)
  {
    (forall x :: x in xs <==> x in s) && Distinct(xs)
  }

  /** A possible behaviour of `os.listdir`: some order of exactly the names present. */
  ghost predicate Lists(arr: Arrangement)
  {
    forall p, s :: IsListing(arr(p, s), s)
  }

  /** `os.listdir(p)`, called where `p` is known to be a directory. */
  function ListDir(arr: Arrangement, t: Node, p: Path): seq<string>
  {
    arr(p, Names(t, p))
  }

  /** The sub-directories among a listing of `p`, in listing order (`dirs` of `os.walk`). */
  function DirsAmong(t: Node, p: Path, names: seq<string>): (r: seq<string>)
    ensures forall x :: x in r <==> x in names && IsDirAt(t, p + [x])
  {
    if names == [] then []
    else (if IsDirAt(t, p + [names[0]]) then [names[0]] else []) + DirsAmong(t, p, names[1..])
  }

  /** The other entries among a listing of `p` (`files` of `os.walk`). */
  function FilesAmong(t: Node, p: Path, names: seq<string>): (r: seq<string>)
    ensures forall x :: x in r <==> x in names && !IsDirAt(t, p + [x])
  {
    if names == [] then []
    else (if IsDirAt(t, p + [names[0]]) then [] else [names[0]]) + FilesAmong(t, p, names[1..])
  }

  /** `os.rmdir(p)` preceded by its log line. */
  function RemoveStep(t: Node, p: Path, e: Event): Outcome
  {
    match RemoveDir(t, p)
    case Ok(t') => Outcome(true, t', [e])
    case Err(_) => Outcome(false, t, [e])
  }

  // ---------------------------------------------------------------- moving one folder's entries

  /** Where an entry of the folder being emptied goes: a `WBPP` entry to `special`, if given. */
  function Route(dst: Path, special: Option<Path>, e: string): Path
  {
    if special.Some? && e == Wbpp then special.value else dst
  }

  function MoveEvent(src: Path, dst: Path, special: Option<Path>, e: string): Event
  {
    if special.Some? && e == Wbpp then MovingWip(src + [e], special.value) else Moving(src + [e], dst)
  }

  /**
   * The loops of lines 55-58 and 76-86: log, then `shutil.move` each listed entry of `src`
   * into its route, stopping at the first move that fails.
   */
  function MoveAll(t: Node, src: Path, dst: Path, special: Option<Path>, names: seq<string>): Outcome
    decreases |names|
  {
    if names == [] then Outcome(true, t, [])
    else
      var e := names[0];
      var ev := MoveEvent(src, dst, special, e);
      match Move(t, src + [e], Route(dst, special, e))
      case Err(_) => Outcome(false, t, [ev])
      case Ok(t') =>
        var rest := MoveAll(t', src, dst, special, names[1..]);
        Outcome(rest.ok, rest.tree, [ev] + rest.events)
  }

  /** `os.listdir(src)` (which fails unless `src` is a directory), then the moves. */
  function MoveListed(arr: Arrangement, t: Node, src: Path, dst: Path, special: Option<Path>): Outcome
  {
    if !IsDirAt(t, src) then Outcome(false, t, [])
    else MoveAll(t, src, dst, special, ListDir(arr, t, src))
  }

  // ---------------------------------------------------------------- FLAT (lines 42-66)

  function FlatFolder(d: Path): Path { d + [Flat] }
  function WizardFolder(d: Path): Path { d + [Flat, FlatWizard] }

  /**
   * The FLAT branch for date folder `d`: create the flat target, pick `FLAT/FlatWizard` if it
   * exists and `FLAT` otherwise, move its entries, remove `FlatWizard` if it was picked, and
   * remove `FLAT` in any case.
   */
  function FlatOutcome(arr: Arrangement, t: Node, root: Path, d: Path): Outcome
  {
    var f := FlatFolder(d);
    var fw := WizardFolder(d);
    var target := FlatTarget(root, Basename(d));
    match MakeDirs(t, target)
    case Err(_) => Outcome(false, t, [])
    case Ok(t1) =>
      var wizard := Get(t1, fw).Some?;
      var source := if wizard then fw else f;
      var moved :=
        if Get(t1, source).None? then Outcome(true, t1, [SourceNotFound(source)])
        else MoveListed(arr, t1, source, target, None);
      var wizardGone :=
        Chain(moved, if wizard then RemoveStep(moved.tree, fw, Removing(fw)) else Outcome(true, moved.tree, []));
      Chain(wizardGone, RemoveStep(wizardGone.tree, f, RemovingFlat(f)))
  }

  // ---------------------------------------------------------------- LIGHT (lines 68-92)

  function LightFolder(d: Path): Path { d + [Light] }
  function TargetFolder(d: Path, s: string): Path { d + [Light, s] }

  /**
   * One target folder `LIGHT/<s>` of date folder `d` (lines 74-89): create
   * `<input>/<s>/DATE_<date>/LIGHT`, move a `WBPP` entry to `<input>/<s>` and every other entry
   * to the new folder, then remove `LIGHT/<s>`.
   */
  function TargetOutcome(arr: Arrangement, t: Node, root: Path, d: Path, s: string): Outcome
  {
    var p := TargetFolder(d, s);
    var lt := LightTarget(root, s, Basename(d));
    match MakeDirs(t, lt)
    case Err(_) => Outcome(false, t, [])
    case Ok(t1) =>
      var moved := MoveListed(arr, t1, p, lt, Some(TargetDir(root, s)));
      Chain(moved, RemoveStep(moved.tree, p, Removing(p)))
  }

  /** The loop of lines 71-89 over (a suffix of) the listing of LIGHT; plain files are passed over. */
  function TargetsOutcome(arr: Arrangement, t: Node, root: Path, d: Path, subs: seq<string>): Outcome
    decreases |subs|
  {
    if subs == [] then Outcome(true, t, [])
    else if IsDirAt(t, TargetFolder(d, subs[0])) then
      var o := TargetOutcome(arr, t, root, d, subs[0]);
      Chain(o, TargetsOutcome(arr, o.tree, root, d, subs[1..]))
    else TargetsOutcome(arr, t, root, d, subs[1..])
  }

  /** The LIGHT branch: every target folder in turn, then remove LIGHT. */
  function LightOutcome(arr: Arrangement, t: Node, root: Path, d: Path): Outcome
  {
    var l := LightFolder(d);
    if !IsDirAt(t, l) then Outcome(false, t, [])
    else
      var o := TargetsOutcome(arr, t, root, d, ListDir(arr, t, l));
      Chain(o, RemoveStep(o.tree, l, RemovingLight(l)))
  }

  // ---------------------------------------------------------------- one date folder (lines 41-104)

  /** One sub-folder `x` of a date folder (lines 42-94): FLAT, LIGHT, or an unknown folder that is only logged. */
  function ChildOutcome(arr: Arrangement, t: Node, root: Path, d: Path, x: string): Outcome
  {
    if x == Flat then FlatOutcome(arr, t, root, d)
    else if x == Light then LightOutcome(arr, t, root, d)
    else Outcome(true, t, [UnknownFolder(d + [x])])
  }

  /** The loop of lines 41-94 over (a suffix of) the folder's `dirs`. */
  function ChildrenOutcome(arr: Arrangement, t: Node, root: Path, d: Path, dirs: seq<string>): Outcome
    decreases |dirs|
  {
    if dirs == [] then Outcome(true, t, [])
    else
      var o := ChildOutcome(arr, t, root, d, dirs[0]);
      Chain(o, ChildrenOutcome(arr, o.tree, root, d, dirs[1..]))
  }

  function SkipEvents(d: Path, files: seq<string>): (r: seq<Event>)
    ensures |r| == |files|
  {
    seq(|files|, i requires 0 <= i < |files| => SkippingFile(d + [files[i]]))
  }

  /**
   * A date folder `d` the walk reports with `dirs` and `files`: its sub-folders, a log line
   * per plain file, then `os.rmdir(d)` if `os.listdir(d)` is empty.
   */
  function DateFolderOutcome(arr: Arrangement, t: Node, root: Path, d: Path,
                             dirs: seq<string>, files: seq<string>): Outcome
  {
    var o := ChildrenOutcome(arr, t, root, d, dirs);
    if !o.ok then o
    else
      var logged := Outcome(true, o.tree, o.events + SkipEvents(d, files));
      if !IsDirAt(o.tree, d) then Outcome(false, o.tree, logged.events)
      else if Names(o.tree, d) != {} then logged
      else Chain(logged, RemoveStep(o.tree, d, Removing(d)))
  }

  // ---------------------------------------------------------------- the walk (lines 32-39)

  datatype Status = Done | Failed | OutOfFuel

  /** The walk's end, the tree, the log lines, and the folders handled as date folders, in order. */
  datatype WalkRun = WalkRun(status: Status, tree: Node, events: seq<Event>, processed: seq<Path>)

  /** The paths of `p`'s sub-folders in reverse, so that the first one is on top of the stack. */
  function Pushed(p: Path, dirs: seq<string>): (r: seq<Path>)
    ensures |r| == |dirs|
    ensures forall q :: q in r <==> exists x :: x in dirs && q == p + [x]
  {
    if dirs == [] then [] else Pushed(p, dirs[1..]) + [p + [dirs[0]]]
  }

  /**
   * The top-down `os.walk(input_folder)` with the pruning of lines 35-39, on a stack of
   * folders still to visit (top = last). A folder that no longer exists when its turn
   * comes is passed over; every visit costs one unit of `fuel`.
   */
  function WalkOutcome(arr: Arrangement, t: Node, root: Path, stack: seq<Path>, fuel: nat): WalkRun
    decreases fuel
  {
    if stack == [] then WalkRun(Done, t, [], [])
    else if fuel == 0 then WalkRun(OutOfFuel, t, [], [])
    else
      var p := stack[|stack| - 1];
      var rest := stack[..|stack| - 1];
      if !IsDirAt(t, p) then WalkOutcome(arr, t, root, rest, fuel - 1)
      else
        var names := ListDir(arr, t, p);
        var dirs := DirsAmong(t, p, names);
        if !IsDateName(Basename(p)) then
          WalkOutcome(arr, t, root, if p == root then rest + Pushed(p, dirs) else rest, fuel - 1)
        else
          var o := DateFolderOutcome(arr, t, root, p, dirs, FilesAmong(t, p, names));
          if !o.ok then WalkRun(Failed, o.tree, o.events, [p])
          else
            var w := WalkOutcome(arr, o.tree, root, rest + Pushed(p, dirs), fuel - 1);
            WalkRun(w.status, w.tree, o.events + w.events, [p] + w.processed)
  }

  /** `move_files(input_folder)` with a visit budget. */
  function MoveFilesOutcome(arr: Arrangement, t: Node, root: Path, fuel: nat): WalkRun
  {
    WalkOutcome(arr, t, root, [root], fuel)
  }
}
