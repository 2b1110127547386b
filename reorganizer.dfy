/**
 * `move_files` as the program runs it: a volume whose folder tree and log are changed in
 * place, one filesystem call and one log line at a time. Every method ends in exactly the
 * state, and appends exactly the log lines, that the matching step function of `Steps`
 * describes, so everything proved about those functions holds of the methods.
 */
module Reorganizer {
  import opened FileTree
  import FsOps
  import opened Layout
  import opened DateName
  import opened Steps
  import opened WalkFacts

  /** Where a loop over `names` stands after `i` steps: what it logged so far and what the rest will do. */
  ghost predicate Resumes(full: Outcome, done: seq<Event>, rest: Outcome)
  {
    full == Outcome(rest.ok, rest.tree, done + rest.events)
  }

  /** One turn of the move loop: a move that fails ends the loop where it stands, otherwise the rest remains. */
  lemma MoveTurn(full: Outcome, done: seq<Event>, t: Node, src: Path, dst: Path,
                 special: Option<Path>, rest: seq<string>)
    requires rest != [] && Resumes(full, done, MoveAll(t, src, dst, special, rest))
    ensures var m := FsOps.Move(t, src + [rest[0]], Route(dst, special, rest[0]));
      var ev := MoveEvent(src, dst, special, rest[0]);
      && (m.Err? ==> full == Outcome(false, t, done + [ev]))
      && (m.Ok? ==> Resumes(full, done + [ev], MoveAll(m.value, src, dst, special, rest[1..])))
  {
    var m := FsOps.Move(t, src + [rest[0]], Route(dst, special, rest[0]));
    if m.Ok? {
      var r := MoveAll(m.value, src, dst, special, rest[1..]);
      Associative(done, [MoveEvent(src, dst, special, rest[0])], r.events);
    }
  }

  /** A loop that resumes with a step followed by the rest: either it stops there or the rest remains. */
  lemma ResumesChain(full: Outcome, done: seq<Event>, o: Outcome, rest: Outcome)
    requires Resumes(full, done, Chain(o, rest))
    ensures o.ok ==> Resumes(full, done + o.events, rest)
    ensures !o.ok ==> full == Outcome(false, o.tree, done + o.events)
  {
    Associative(done, o.events, rest.events);
  }

  /** One turn of the loop over LIGHT's listing. */
  lemma TargetsStep(arr: Arrangement, t: Node, root: Path, d: Path, subs: seq<string>, i: nat)
    requires i < |subs|
    ensures !IsDirAt(t, TargetFolder(d, subs[i])) ==>
      TargetsOutcome(arr, t, root, d, subs[i..]) == TargetsOutcome(arr, t, root, d, subs[i + 1..])
    ensures var o := TargetOutcome(arr, t, root, d, subs[i]);
      IsDirAt(t, TargetFolder(d, subs[i])) ==>
        TargetsOutcome(arr, t, root, d, subs[i..]) == Chain(o, TargetsOutcome(arr, o.tree, root, d, subs[i + 1..]))
  {
    assert subs[i..][0] == subs[i] && subs[i..][1..] == subs[i + 1..];
  }

  /** One turn of the loop over a date folder's sub-folders. */
  lemma ChildrenStep(arr: Arrangement, t: Node, root: Path, d: Path, dirs: seq<string>, i: nat)
    requires i < |dirs|
    ensures var o := ChildOutcome(arr, t, root, d, dirs[i]);
      ChildrenOutcome(arr, t, root, d, dirs[i..]) == Chain(o, ChildrenOutcome(arr, o.tree, root, d, dirs[i + 1..]))
  {
    assert dirs[i..][0] == dirs[i] && dirs[i..][1..] == dirs[i + 1..];
  }

  /** Where the walk stands: what it logged and handled so far and what the rest of it will do. */
  ghost predicate WalkResumes(full: WalkRun, done: seq<Event>, processed: seq<Path>, rest: WalkRun)
  {
    full == WalkRun(rest.status, rest.tree, done + rest.events, processed + rest.processed)
  }

  /**
   * The walk handling a date folder `p` with outcome `o`, before the rest `w` of it: either the
   * walk stops there or the rest remains.
   */
  lemma WalkResumesDate(full: WalkRun, done: seq<Event>, processed: seq<Path>, p: Path,
                        o: Outcome, w: WalkRun, here: WalkRun)
    requires here == if !o.ok then WalkRun(Failed, o.tree, o.events, [p])
      else WalkRun(w.status, w.tree, o.events + w.events, [p] + w.processed)
    requires WalkResumes(full, done, processed, here)
    ensures o.ok ==> WalkResumes(full, done + o.events, processed + [p], w)
    ensures !o.ok ==> full == WalkRun(Failed, o.tree, done + o.events, processed + [p])
  {
    Associative(done, o.events, w.events);
    assert (processed + [p]) + w.processed == processed + ([p] + w.processed);
  }

  lemma Associative(a: seq<Event>, b: seq<Event>, c: seq<Event>)
    ensures (a + b) + c == a + (b + c)
  {
  }

  /** The folder tree the program works on and the log it writes. */
  class Volume {
    var tree: Node
    var log: seq<Event>
    /** The order in which `os.listdir` reports the names of a folder. */
    const arrangement: Arrangement

    constructor (t: Node, arrangement: Arrangement)
      ensures tree == t && log == [] && this.arrangement == arrangement
    {
      tree := t;
      log := [];
      this.arrangement := arrangement;
    }

    /** `os.makedirs(p, exist_ok=True)`. */
    method MakeDirs(p: Path) returns (ok: bool)
      modifies this
      ensures ok == FsOps.MakeDirs(old(tree), p).Ok?
      ensures tree == (if ok then FsOps.MakeDirs(old(tree), p).value else old(tree))
      ensures log == old(log)
    {
      match FsOps.MakeDirs(tree, p)
      case Ok(t) =>
        tree := t;
        ok := true;
      case Err(_) =>
        ok := false;
    }

    /** `logging.info(...)` followed by `os.rmdir(p)`. */
    method LogAndRemove(p: Path, e: Event) returns (ok: bool)
      modifies this
      ensures var o := RemoveStep(old(tree), p, e);
        ok == o.ok && tree == o.tree && log == old(log) + o.events
    {
      log := log + [e];
      match FsOps.RemoveDir(tree, p)
      case Ok(t) =>
        tree := t;
        ok := true;
      case Err(_) =>
        ok := false;
    }

    /**
     * The loops of lines 55-58 and 76-86: list `src` once, then log and move each entry in
     * turn (a `WBPP` entry to `special`, when given), stopping at the first failure.
     */
    method MoveEntries(src: Path, dst: Path, special: Option<Path>) returns (ok: bool)
      modifies this
      ensures var o := MoveListed(arrangement, old(tree), src, dst, special);
        ok == o.ok && tree == o.tree && log == old(log) + o.events
    {
      if !IsDirAt(tree, src) {
        return false;
      }
      ok := MoveEach(src, dst, special, ListDir(arrangement, tree, src));
    }

    /** The body of those loops, over a listing taken beforehand. */
    method MoveEach(src: Path, dst: Path, special: Option<Path>, names: seq<string>) returns (ok: bool)
      modifies this
      ensures var o := MoveAll(old(tree), src, dst, special, names);
        ok == o.ok && tree == o.tree && log == old(log) + o.events
    {
      ghost var full := MoveAll(tree, src, dst, special, names);
      ghost var log0 := log;
      ghost var done: seq<Event> := [];
      var rest := names;
      while rest != []
        invariant log == log0 + done
        invariant Resumes(full, done, MoveAll(tree, src, dst, special, rest))
        decreases |rest|
      {
        var e := rest[0];
        var ev := MoveEvent(src, dst, special, e);
        MoveTurn(full, done, tree, src, dst, special, rest);
        Associative(log0, done, [ev]);
        log := log + [ev];
        done := done + [ev];
        // `shutil.move(src/e, route)`
        var m := FsOps.Move(tree, src + [e], Route(dst, special, e));
        if m.Err? {
          return false;
        }
        tree := m.value;
        rest := rest[1..];
      }
      return true;
    }

    /** The FLAT branch of lines 42-66. */
    method ProcessFlat(root: Path, d: Path) returns (ok: bool)
      modifies this
      ensures var o := FlatOutcome(arrangement, old(tree), root, d);
        ok == o.ok && tree == o.tree && log == old(log) + o.events
    {
      ghost var log0 := log;
      var f := FlatFolder(d);
      var fw := WizardFolder(d);
      var target := FlatTarget(root, Basename(d));
      var made := MakeDirs(target);
      if !made {
        return false;
      }
      var wizard := Get(tree, fw).Some?;
      var source := if wizard then fw else f;
      ghost var moved: Outcome;
      if Get(tree, source).None? {
        moved := Outcome(true, tree, [SourceNotFound(source)]);
        log := log + [SourceNotFound(source)];
      } else {
        moved := MoveListed(arrangement, tree, source, target, None);
        ok := MoveEntries(source, target, None);
        if !ok {
          return;
        }
      }
      ghost var gone: Outcome;
      if wizard {
        ghost var r := RemoveStep(tree, fw, Removing(fw));
        gone := Chain(moved, r);
        ok := LogAndRemove(fw, Removing(fw));
        Associative(log0, moved.events, r.events);
        if !ok {
          return;
        }
      } else {
        gone := Chain(moved, Outcome(true, moved.tree, []));
        assert moved.events + [] == moved.events;
      }
      ghost var r := RemoveStep(tree, f, RemovingFlat(f));
      ok := LogAndRemove(f, RemovingFlat(f));
      Associative(log0, gone.events, r.events);
    }

    /** One target folder `LIGHT/<s>` (lines 74-89). */
    method ProcessTarget(root: Path, d: Path, s: string) returns (ok: bool)
      modifies this
      ensures var o := TargetOutcome(arrangement, old(tree), root, d, s);
        ok == o.ok && tree == o.tree && log == old(log) + o.events
    {
      var p := TargetFolder(d, s);
      var lt := LightTarget(root, s, Basename(d));
      var made := MakeDirs(lt);
      if !made {
        return false;
      }
      ok := MoveEntries(p, lt, Some(TargetDir(root, s)));
      if !ok {
        return;
      }
      ok := LogAndRemove(p, Removing(p));
    }

    /** The LIGHT branch of lines 68-92: every target folder in listing order, then LIGHT itself. */
    method ProcessLight(root: Path, d: Path) returns (ok: bool)
      modifies this
      ensures var o := LightOutcome(arrangement, old(tree), root, d);
        ok == o.ok && tree == o.tree && log == old(log) + o.events
    {
      var l := LightFolder(d);
      if !IsDirAt(tree, l) {
        return false;
      }
      var subs := ListDir(arrangement, tree, l);
      ghost var full := TargetsOutcome(arrangement, tree, root, d, subs);
      ghost var log0 := log;
      ghost var done: seq<Event> := [];
      var i := 0;
      while i < |subs|
        invariant 0 <= i <= |subs|
        invariant log == log0 + done
        invariant Resumes(full, done, TargetsOutcome(arrangement, tree, root, d, subs[i..]))
      {
        var s := subs[i];
        TargetsStep(arrangement, tree, root, d, subs, i);
        if IsDirAt(tree, TargetFolder(d, s)) {
          ghost var o := TargetOutcome(arrangement, tree, root, d, s);
          ResumesChain(full, done, o, TargetsOutcome(arrangement, o.tree, root, d, subs[i + 1..]));
          var handled := ProcessTarget(root, d, s);
          Associative(log0, done, o.events);
          done := done + o.events;
          if !handled {
            return false;
          }
        }
        i := i + 1;
      }
      assert subs[i..] == [];
      ghost var r := RemoveStep(tree, l, RemovingLight(l));
      ok := LogAndRemove(l, RemovingLight(l));
      Associative(log0, done, r.events);
    }

    /** One sub-folder of a date folder (lines 42-94). */
    method ProcessChild(root: Path, d: Path, x: string) returns (ok: bool)
      modifies this
      ensures var o := ChildOutcome(arrangement, old(tree), root, d, x);
        ok == o.ok && tree == o.tree && log == old(log) + o.events
    {
      if x == Flat {
        ok := ProcessFlat(root, d);
      } else if x == Light {
        ok := ProcessLight(root, d);
      } else {
        log := log + [UnknownFolder(d + [x])];
        ok := true;
      }
    }

    /**
     * One date folder `d` that the walk reports with `dirs` and `files` (lines 41-104): its
     * sub-folders in order, a log line per plain file, then its removal if it is empty.
     */
    method ProcessDateFolder(root: Path, d: Path, dirs: seq<string>, files: seq<string>) returns (ok: bool)
      modifies this
      ensures var o := DateFolderOutcome(arrangement, old(tree), root, d, dirs, files);
        ok == o.ok && tree == o.tree && log == old(log) + o.events
    {
      ghost var full := ChildrenOutcome(arrangement, tree, root, d, dirs);
      ghost var log0 := log;
      ghost var done: seq<Event> := [];
      var i := 0;
      while i < |dirs|
        invariant 0 <= i <= |dirs|
        invariant log == log0 + done
        invariant Resumes(full, done, ChildrenOutcome(arrangement, tree, root, d, dirs[i..]))
      {
        ChildrenStep(arrangement, tree, root, d, dirs, i);
        ghost var o := ChildOutcome(arrangement, tree, root, d, dirs[i]);
        ResumesChain(full, done, o, ChildrenOutcome(arrangement, o.tree, root, d, dirs[i + 1..]));
        var handled := ProcessChild(root, d, dirs[i]);
        Associative(log0, done, o.events);
        done := done + o.events;
        if !handled {
          return false;
        }
        i := i + 1;
      }
      assert dirs[i..] == [] && done + [] == done;
      assert full == Outcome(true, tree, done);
      var j := 0;
      while j < |files|
        invariant 0 <= j <= |files|
        invariant log == log0 + done + SkipEvents(d, files)[..j]
        invariant tree == full.tree
      {
        assert SkipEvents(d, files)[..j + 1] == SkipEvents(d, files)[..j] + [SkippingFile(d + [files[j]])];
        log := log + [SkippingFile(d + [files[j]])];
        j := j + 1;
      }
      ghost var logged := done + SkipEvents(d, files);
      assert SkipEvents(d, files)[..|files|] == SkipEvents(d, files);
      Associative(log0, done, SkipEvents(d, files));
      if !IsDirAt(tree, d) {
        return false;
      }
      if Names(tree, d) == {} {
        ghost var r := RemoveStep(tree, d, Removing(d));
        ok := LogAndRemove(d, Removing(d));
        Associative(log0, logged, r.events);
      } else {
        ok := true;
      }
    }

    /**
     * `move_files(root)` (lines 29-104): the top-down walk on a stack of folders still to
     * visit, with at most `fuel` visits. It reports how the walk ended and the folders it
     * handled as date folders.
     */
    method MoveFiles(root: Path, fuel: nat) returns (status: Status, processed: seq<Path>)
      modifies this
      ensures var w := MoveFilesOutcome(arrangement, old(tree), root, fuel);
        status == w.status && processed == w.processed && tree == w.tree && log == old(log) + w.events
    {
      ghost var full := MoveFilesOutcome(arrangement, tree, root, fuel);
      ghost var log0 := log;
      ghost var done: seq<Event> := [];
      var stack := [root];
      var budget := fuel;
      processed := [];
      while stack != [] && budget > 0
        invariant log == log0 + done
        invariant WalkResumes(full, done, processed, WalkOutcome(arrangement, tree, root, stack, budget))
        decreases budget
      {
        ghost var before := stack;
        var p := Top(stack);
        stack := Below(stack);
        if IsDirAt(tree, p) {
          var names := ListDir(arrangement, tree, p);
          var dirs := DirsAmong(tree, p, names);
          if !IsDateName(Basename(p)) {
            if p == root {
              WalkEntersRoot(arrangement, tree, root, before, budget);
              stack := stack + Pushed(p, dirs);
            } else {
              WalkPassesOver(arrangement, tree, root, before, budget);
            }
          } else {
            WalkHandles(arrangement, tree, root, before, budget);
            ghost var o := DateFolderOutcome(arrangement, tree, root, p, dirs, FilesAmong(tree, p, names));
            WalkResumesDate(full, done, processed, p, o, WalkOutcome(arrangement, o.tree, root, stack + Pushed(p, dirs), budget - 1),
              WalkOutcome(arrangement, tree, root, before, budget));
            var handled := ProcessDateFolder(root, p, dirs, FilesAmong(tree, p, names));
            Associative(log0, done, o.events);
            done := done + o.events;
            processed := processed + [p];
            if !handled {
              return Failed, processed;
            }
            stack := stack + Pushed(p, dirs);
          }
        } else {
          WalkPassesOver(arrangement, tree, root, before, budget);
        }
        budget := budget - 1;
      }
      assert done + [] == done && processed + [] == processed;
      status := if stack == [] then Done else OutOfFuel;
    }
  }
}
