# ap-folder-fix: `move_files` in Dafny

`move_files(input_folder)` reorganises the output of an astronomical capture program. It walks a tree
of date-named folders (`YYYY-MM-DD`). In each one it moves the flats found in `FLAT` (or in
`FLAT/FlatWizard`) to `<input>/_FlatWizard/DATE_<date>/FLAT`. It moves the contents of each target
folder `LIGHT/<target>` to `<input>/<target>/DATE_<date>/LIGHT`, except a `WBPP` working folder,
which goes to `<input>/<target>/WBPP`. It removes every folder it has emptied. It logs an error for
any other sub-folder and an informational line for every plain file. A date folder that is empty
afterwards is removed.

This project models that function on an in-memory folder tree and proves what it does.

## How the model is organised

* **`FileTree`** (`tree.dfy`): the filesystem is a value `Node = File | Dir(map<string, Node>)`,
  addressed by paths `seq<string>`.
* **`FsOps`** (`fs_ops.dfy`): the three filesystem calls the function makes. Each returns a
  `Result` whose `Err` case is the exception the real call raises.
  * `os.makedirs(p, exist_ok=True)` is `MakeDirs`.
  * `shutil.move(src, dir)` is `Move`.
  * `os.rmdir` is `RemoveDir`.
* **`DateName`** (`date_name.dfy`): the pattern `^\d{4}-\d{2}-\d{2}$` as a small regular-expression
  matcher, together with a proof of which names it accepts. Python's `$` also matches just before
  a final newline, and the matcher does so too.
* **`Layout`** (`layout.dfy`): the fixed names, and the destination paths built from them.
* **`Steps`** (`steps.dfy`): every step of the function as a function of the tree it starts from.
  * The steps are the move loops, the FLAT branch, one LIGHT target, the LIGHT branch, one
    sub-folder, one date folder, and the pruned top-down walk.
  * Each returns an `Outcome`: whether it completed, the tree at that point, and the log lines it
    wrote. Every failing filesystem call raises in the source and ends the run, so a step stops
    at the first one.
  * The order in which `os.listdir`/`os.walk` report names is a parameter `arr: Arrangement`. The
    facts hold for every arrangement that lists each name exactly once (`Lists(arr)`).
* **`MoveFacts`, `FlatFacts`, `LightFacts`, `FolderFacts`, `OutsideFacts`, `WalkFacts`**: the
  properties of those steps, as lemmas. For each step they state:
  * exactly when it runs to the end;
  * where each moved entry ends up;
  * what each affected folder lists afterwards;
  * what is left untouched;
  * what is logged.
  
  For the walk they state which folders it processes: only date-named folders reached through
  date-named folders (`MoveFilesHandlesDateChains`), and, in a completed run, every such folder of
  the starting tree (`MoveFilesReaches`).
* **`Reorganizer`** (`reorganizer.dfy`): the program itself, imperative.
  * The class `Volume` holds the tree, the log and the listing order.
  * It has one method per part of `move_files`, with the loops of the source.
  * Each method is proved to end in exactly the state, result and log that its step function
    describes. That is how the lemmas above carry over to the methods.

Where the prose description of the program and its code disagree, the model follows the code:

* **The walk is top-down, as `os.walk` is by default.** A date folder is checked for emptiness
  (lines 101-104) *before* the walk enters the sub-folders it still holds. Removal is therefore not
  bottom-up. For example, a date folder holding another date folder is never removed in that run.
* **A missing FLAT source is not recovered.** When the source is missing (lines 52-53), `os.rmdir`
  of `FLAT` still runs (line 66). It raises, so the run ends there.
  * `FlatFacts.FlatLog` shows that this branch cannot arise while `FLAT` is a folder.
  * `FLAT` is only handled when the walk reported it as a folder, so the error line is never
    written in practice.
* **Pruning is not limited to the top level.** Every non-date folder below the input folder is
  pruned. Sub-folders of a date folder are entered, so a date-named one among them is handled too.

Other consequences of the code:
* `os.rmdir` of `FLAT`, of `LIGHT` and of a target folder fails when anything is left in them. This
  happens when `FLAT` holds something beside `FlatWizard`, or `LIGHT` holds a plain file.
* `shutil.move` fails when the destination already holds the name.

These failures are the exact conditions `FlatReady`, `TargetReady` and `LightReady` of the success
lemmas below.

## Model

| member | source | states |
|---|---|---|
| DateName.DateNameMeaning | ap-folder-fix.py:30-35 | a folder name passes the date test exactly when it is four ASCII digits, `-`, two digits, `-`, two digits, optionally followed by a single final newline (Python's `$`) |
| DateName.MatchesDatePattern | ap-folder-fix.py:30 | the compiled pattern's pieces consume a string exactly when it has the date shape |
| DateName.MatchLength | ap-folder-fix.py:30 | a string matched by the whole pattern is as long as the pattern's width |
| DateName.NotDateName | ap-folder-fix.py:35 | a name that is empty or does not start with a digit never passes the date test |
| Layout.DateDirName | ap-folder-fix.py:45 | `DATE_<date>` is the prefix followed by the date and never itself passes the date test |
| Layout.Basename | ap-folder-fix.py:35 | definition only, no contract: `os.path.basename` as the last name of the path, used by the date test (line 35) and for `<date>` (lines 44, 69); `WalkFacts.WalkHandlesDateChains` and `WalkFacts.WalkReaches` state the date test on it, `Layout.FlatTarget` and `Layout.LightTarget` the paths built from it |
| Layout.FixedNamesAreNotDates | ap-folder-fix.py:45 | `FLAT`, `LIGHT`, `_FlatWizard` and `WBPP` never pass the date test |
| Layout.FlatTarget | ap-folder-fix.py:45 | the flat target is `<input>/_FlatWizard/DATE_<date>/FLAT`, and none of the three components it adds is date-named |
| Layout.LightTarget | ap-folder-fix.py:74 | a target's light folder is `<input>/<target>/DATE_<date>/LIGHT`, and no component below the target is date-named |
| Layout.TargetDir | ap-folder-fix.py:79 | definition only, no contract: `<input>/<target>`, where a `WBPP` folder goes; `LightFacts.TargetPlaces`, `LightFacts.TargetWbppListing` and `Layout.LightRoutesApart` state where it lies and what it lists afterwards |
| Layout.FlatRoutesApart | ap-folder-fix.py:45-58 | for a folder reached through date folders, its `FLAT` lies apart from the flat target, so moving into the target never moves a folder into itself |
| Layout.LightRoutesApart | ap-folder-fix.py:74-86 | `LIGHT/<target>` lies apart from both places its entries are moved to |
| FsOps.MakeDirs | ap-folder-fix.py:46 | `os.makedirs(exist_ok=True)` succeeds exactly when no plain file stands on the path |
| FsOps.MakeDirsEffect | ap-folder-fix.py:46 | after it, the path is a folder (the old one, if it existed), each folder above it gains just the next name, and nothing else changes |
| FsOps.Move | ap-folder-fix.py:58 | `shutil.move` into a folder succeeds exactly when the source exists, the destination is a folder without that name, and it is not a move into the source itself |
| FsOps.MoveEffect | ap-folder-fix.py:58 | after a move the entry sits under its own name in the destination with its whole subtree; nothing is left at the source; unrelated paths are unchanged; only the source's parent loses the name and the destination gains it |
| FsOps.RemoveDir | ap-folder-fix.py:63 | `os.rmdir` succeeds exactly on an existing empty folder |
| FsOps.RemoveDirEffect | ap-folder-fix.py:66 | after it nothing is left at or below the path, its parent no longer lists it, and everything apart from it is unchanged |
| Steps.DirsAmong | ap-folder-fix.py:32 | the `dirs` that `os.walk` reports are exactly the listed names that are folders |
| Steps.FilesAmong | ap-folder-fix.py:32 | the `files` that `os.walk` reports are exactly the listed names that are not folders |
| Steps.ListDir | ap-folder-fix.py:71 | definition only, no contract: `os.listdir` of a folder (also lines 55, 76 and 102) as the order an `Arrangement` gives its names; `Steps.Lists` demands that this order lists every name once and nothing else, and `FolderFacts.FolderListing` and the `MoveFacts.MoveListed*` rows state what follows from taking each listing once |
| Steps.RemoveStep | ap-folder-fix.py:62-66 | definition only, no contract: the log line, then `os.rmdir` (also lines 88-89, 91-92 and 103-104); `FsOps.RemoveDir`, `FsOps.RemoveDirEffect`, `Reorganizer.Volume.LogAndRemove`, `FlatFacts.FlatRemovals`, `LightFacts.TargetGone` and `FolderFacts.DateFolderRemoval` state its effect at each use |
| Steps.Route | ap-folder-fix.py:77-86 | definition only, no contract: an entry named `WBPP` goes to `<input>/<target>`, every other entry to the light folder; `LightFacts.TargetPlaces` and `MoveFacts.MoveAllPlaces` state where each entry ends up |
| Steps.SkipEvents | ap-folder-fix.py:97-98 | one skip line per plain file; `FolderFacts.DateFolderLog` states that these are the step's skip lines, in listing order |
| Steps.Pushed | ap-folder-fix.py:32 | the stack entries pushed for a folder are exactly its sub-folders' paths, one per listed sub-folder, with the first listed on top so that `os.walk`'s top-down order is kept; `WalkFacts.WalkReaches` and `WalkFacts.WalkHandlesDateChains` rely on it |
| Steps.LevelOf | ap-folder-fix.py:53-98 | definition only, no contract: the "FlatWizard directory not found" and "Unknown folder found" lines are errors, every other line is informational; `FlatFacts.FlatLog`, `LightFacts.TargetLog`, `LightFacts.LightLog`, `FolderFacts.ChildrenLog` and `FolderFacts.DateFolderLog` state which levels each step writes |
| Steps.MoveAll | ap-folder-fix.py:55-58 | definition only, no contract: the move loops of lines 55-58 and 76-86 (log the line, `shutil.move`, stop at the first failure); its properties are the `MoveFacts.MoveAll*` rows below |
| Steps.MoveListed | ap-folder-fix.py:55 | definition only, no contract: `os.listdir` of the source, then `MoveAll`; its properties are the `MoveFacts.MoveListed*` rows |
| Steps.FlatOutcome | ap-folder-fix.py:42-66 | definition only, no contract: the FLAT branch; its properties are the `FlatFacts` rows |
| Steps.TargetOutcome | ap-folder-fix.py:73-89 | definition only, no contract: one target folder of `LIGHT`; its properties are the `LightFacts.Target*` rows |
| Steps.TargetsOutcome | ap-folder-fix.py:71-89 | definition only, no contract: the loop over `LIGHT`'s listing, passing over plain files; its properties are the `LightFacts.Targets*` rows |
| Steps.LightOutcome | ap-folder-fix.py:68-92 | definition only, no contract: the LIGHT branch; its properties are the `LightFacts.Light*` rows |
| Steps.ChildOutcome | ap-folder-fix.py:41-94 | definition only, no contract: one entry of `dirs` (FLAT, LIGHT, or an unknown folder that is only logged); its properties are the `FolderFacts` rows about the two branches |
| Steps.ChildrenOutcome | ap-folder-fix.py:41-94 | definition only, no contract: the loop over `dirs`; its properties are the `FolderFacts.Children*` rows |
| Steps.DateFolderOutcome | ap-folder-fix.py:41-104 | definition only, no contract: the whole body for one date folder; its properties are the `FolderFacts.DateFolder*` rows and `OutsideFacts.DateFolderKeepsDir` |
| Steps.WalkOutcome | ap-folder-fix.py:32-39 | definition only, no contract: the pruned top-down `os.walk` on an explicit stack with a visit budget; its properties are `WalkFacts.WalkHandlesDateChains`, `WalkFacts.WalkReaches` and `WalkFacts.PrunedWalk` |
| Steps.MoveFilesOutcome | ap-folder-fix.py:29-104 | definition only, no contract: `move_files`, the walk started from the input folder; its properties are the `WalkFacts.MoveFiles*` rows |
| MoveFacts.MoveAllSucceeds | ap-folder-fix.py:55-58 | the move loop runs to the end exactly when every entry's destination is a folder not yet holding its name |
| MoveFacts.MoveAllListings | ap-folder-fix.py:55-58 | after the loop the source lists none of the moved names, each destination lists exactly the names routed to it in addition to its own, and no folder on the way changes kind |
| MoveFacts.MoveAllPlaces | ap-folder-fix.py:55-58 | after the loop every moved entry sits at its destination with its whole subtree |
| MoveFacts.MoveAllFrame | ap-folder-fix.py:55-58 | a path apart from every entry's old and new place is unchanged by the loop |
| MoveFacts.MoveAllLog | ap-folder-fix.py:55-58 | the loop writes one informational "Moving" line per entry, in listing order, each before its move |
| MoveFacts.MoveListedSucceeds | ap-folder-fix.py:76-86 | listing a folder and moving all it holds succeeds exactly when it is a folder and every entry can go to its route (`WBPP` to the target folder, the rest to the light folder) |
| MoveFacts.MoveListedEffect | ap-folder-fix.py:76-86 | the tree afterwards: the listings on the routes, the unchanged paths elsewhere, and each entry at its destination |
| MoveFacts.MoveListedEmpties | ap-folder-fix.py:55-58 | after the loop the emptied source is an empty folder, which is why the `os.rmdir` that follows can succeed |
| MoveFacts.ArrivedAt | ap-folder-fix.py:78-86 | without a `WBPP` route every name arrives in the destination; with one, `WBPP` alone arrives at `<input>/<target>` and all other names in the light folder |
| FlatFacts.FlatSucceeds | ap-folder-fix.py:42-66 | the FLAT branch runs to the end exactly when all of these hold: the target can be created; the chosen source (`FlatWizard` if present, else `FLAT`) is a folder whose names are new to the target; `FlatWizard`, when used, is all that `FLAT` holds |
| FlatFacts.FlatRemovals | ap-folder-fix.py:61-66 | once the flats have moved, the two removals succeed exactly when `FLAT` held nothing beside a used `FlatWizard` |
| FlatFacts.FlatWizardRemoved | ap-folder-fix.py:60-66 | the emptied `FlatWizard` can always be removed, and `FLAT` can then be removed exactly when `FlatWizard` was all it held |
| FlatFacts.FlatPlaces | ap-folder-fix.py:47-58 | after the branch every entry of the source, folders included, sits under its own name in the flat target with its whole subtree |
| FlatFacts.FlatTargetListing | ap-folder-fix.py:45-58 | the flat target then lists what it held before plus every entry of the source |
| FlatFacts.FlatGone | ap-folder-fix.py:61-66 | nothing is left at or below `FLAT` afterwards (nor, therefore, `FlatWizard`) |
| FlatFacts.FlatAbove | ap-folder-fix.py:45-66 | folders above `FLAT` and above the target stay folders; each gains only the next name towards the target, and the date folder loses `FLAT` |
| FlatFacts.FlatFrame | ap-folder-fix.py:42-66 | a path apart from `FLAT`, off the way to the target and not below an arriving entry is unchanged |
| FlatFacts.FlatFar | ap-folder-fix.py:42-66 | a path apart from `FLAT` and from `<input>/_FlatWizard` is unchanged |
| FlatFacts.FlatReadyKept | ap-folder-fix.py:42-66 | whether the branch can run depends only on `FLAT`, `<input>/_FlatWizard` and the input folder |
| FlatFacts.FlatLog | ap-folder-fix.py:52-53 | a branch that runs to the end, or that starts from an existing `FLAT` folder, logs only informational lines: the "FlatWizard directory not found" error cannot arise |
| FlatFacts.FlatNoSkips | ap-folder-fix.py:42-66 | the branch writes no "skipping file" line |
| LightFacts.TargetSucceeds | ap-folder-fix.py:73-89 | one target folder is handled to the end exactly when all of these hold: its light folder can be created; it is a folder; none of its non-`WBPP` entries is already in the light folder; a `WBPP` entry is not already in `<input>/<target>` |
| LightFacts.TargetPlaces | ap-folder-fix.py:76-86 | afterwards `WBPP` sits at `<input>/<target>/WBPP` and every other entry at `<input>/<target>/DATE_<date>/LIGHT/<entry>`, each with its whole subtree |
| LightFacts.TargetLightListing | ap-folder-fix.py:74-86 | the light folder then lists what it held plus every entry but `WBPP` |
| LightFacts.TargetWbppListing | ap-folder-fix.py:74-82 | `<input>/<target>` then lists what it held, `DATE_<date>` and, if there was one, `WBPP` |
| LightFacts.TargetGone | ap-folder-fix.py:87-89 | nothing is left at or below the target folder afterwards |
| LightFacts.TargetFar | ap-folder-fix.py:73-89 | a path apart from the target folder and from `<input>/<target>` is unchanged |
| LightFacts.TargetLog | ap-folder-fix.py:73-89 | handling a target folder logs only informational lines |
| LightFacts.TargetsSucceed | ap-folder-fix.py:71-89 | the loop over `LIGHT` runs to the end exactly when every entry of it that is a folder is ready; plain files are passed over |
| LightFacts.TargetsListings | ap-folder-fix.py:71-89 | after that loop `LIGHT` lists only what was not a folder, the input folder gains the handled targets, and the date folder is unchanged |
| LightFacts.TargetsPlaces | ap-folder-fix.py:71-89 | after that loop every entry of every handled target folder sits where its own step put it |
| LightFacts.TargetsFrame | ap-folder-fix.py:71-89 | a path apart from `LIGHT` and from every handled `<input>/<target>` is unchanged by that loop |
| LightFacts.LightSucceeds | ap-folder-fix.py:68-92 | the LIGHT branch runs to the end exactly when `LIGHT` is a folder holding only target folders, each of them ready (a plain file in `LIGHT` makes its final `os.rmdir` fail) |
| LightFacts.LightListings | ap-folder-fix.py:68-92 | after the branch the date folder no longer lists `LIGHT`, and the input folder lists every target |
| LightFacts.LightPlaces | ap-folder-fix.py:68-92 | after the branch every entry of every target folder sits at `<input>/<target>/WBPP` (for `WBPP`) or in `<input>/<target>/DATE_<date>/LIGHT` |
| LightFacts.LightGone | ap-folder-fix.py:90-92 | nothing is left at or below `LIGHT` afterwards |
| LightFacts.LightFrame | ap-folder-fix.py:68-92 | a path apart from `LIGHT` and from every `<input>/<target>` is unchanged |
| LightFacts.LightReadyKept | ap-folder-fix.py:68-92 | whether the branch can run depends only on `LIGHT`, the input folder's entries named like a target, and the input folder |
| LightFacts.LightLog | ap-folder-fix.py:68-92 | the branch logs only informational lines and no "skipping file" line |
| FolderFacts.FlatKeepsLight | ap-folder-fix.py:41-92 | the FLAT branch leaves `LIGHT` and the LIGHT branch's readiness as they were, so the order of the two in `dirs` does not matter to LIGHT |
| FolderFacts.LightKeepsFlat | ap-folder-fix.py:41-92 | the LIGHT branch leaves `FLAT`, `<input>/_FlatWizard` and the FLAT branch's readiness as they were |
| FolderFacts.FlatKeepsEntry | ap-folder-fix.py:42-66 | the FLAT branch leaves every other entry of the date folder as it was |
| FolderFacts.LightKeepsEntry | ap-folder-fix.py:68-92 | the LIGHT branch leaves every other entry of the date folder as it was |
| FolderFacts.ChildrenSucceed | ap-folder-fix.py:41-94 | the loop over `dirs` runs to the end exactly when `FLAT` and `LIGHT`, where present, are ready; an unknown folder never stops it |
| FolderFacts.ChildrenNames | ap-folder-fix.py:41-94 | after that loop the date folder lists what it did, less the `FLAT` and `LIGHT` among `dirs` |
| FolderFacts.ChildrenKeeps | ap-folder-fix.py:93-94 | that loop leaves every other entry of the date folder, unknown folders included, as it was |
| FolderFacts.ChildrenFar | ap-folder-fix.py:41-94 | a path apart from everything the two branches touch is unchanged by that loop |
| FolderFacts.ChildrenFlatPlaces | ap-folder-fix.py:41-66 | after that loop the flats sit in the flat target, whichever of `FLAT` and `LIGHT` came first |
| FolderFacts.ChildrenLightPlaces | ap-folder-fix.py:41-92 | after that loop the target entries sit at their routes, whichever of `FLAT` and `LIGHT` came first |
| FolderFacts.ChildrenLog | ap-folder-fix.py:93-94 | the loop's error lines are exactly the "Unknown folder found" lines of the other folders among `dirs`, in order (those reached so far, if it stopped), and it writes no skip line |
| FolderFacts.FiltersAppend | ap-folder-fix.py:94-98 | the error lines and skip lines of two logs written one after the other are those of the first followed by those of the second |
| FolderFacts.FolderListing | ap-folder-fix.py:32-41 | the `dirs` the walk reports for a folder name each of its sub-folders exactly once and nothing else, and hold `FLAT` (`LIGHT`) exactly when the folder has such a sub-folder |
| FolderFacts.DateFolderSucceeds | ap-folder-fix.py:41-104 | a date folder's step runs to the end exactly when its `FLAT` and `LIGHT` folders, where present, are ready |
| FolderFacts.DateFolderRemoval | ap-folder-fix.py:101-104 | after the step the date folder is gone exactly when `FLAT` and `LIGHT` folders were all it held; otherwise it lists what it held, less those two |
| FolderFacts.DateFolderKeeps | ap-folder-fix.py:93-98 | the step leaves every plain file and every unknown folder of the date folder in place, with its whole subtree |
| FolderFacts.DateFolderFlatPlaces | ap-folder-fix.py:42-66 | after the step the flats sit in the flat target |
| FolderFacts.DateFolderLightPlaces | ap-folder-fix.py:68-92 | after the step every target entry sits at its route |
| FolderFacts.DateFolderLog | ap-folder-fix.py:93-98 | when the step runs to the end, its error lines are exactly the "Unknown folder found" lines of its other sub-folders and its skip lines are one per plain file, in listing order; when it stops, there are no skip lines and only some of those errors |
| WalkFacts.WalkHandlesDateChains | ap-folder-fix.py:32-39 | from any stack of reachable folders, every folder the walk processes is date-named and lies below the input folder through date-named folders only |
| WalkFacts.MoveFilesHandlesDateChains | ap-folder-fix.py:32-39 | `move_files` processes only date-named folders below the input folder whose every ancestor between them is date-named (the input folder too, if it is itself date-named); no folder below a non-date folder is ever processed |
| WalkFacts.PrunedWalk | ap-folder-fix.py:35-39 | walking folders below the top level none of which is date-named changes nothing and logs nothing |
| WalkFacts.WalkReaches | ap-folder-fix.py:32-39 | from any stack: a completed walk processes every date-named folder still in the tree that a folder on the stack (the input folder or a date-named one) leads to through date-named folders only, provided no folder on the stack lies on the way to it below a non-date folder |
| WalkFacts.MoveFilesReaches | ap-folder-fix.py:29-104 | a completed `move_files` processes every date-named folder of the starting tree that lies below the input folder through date-named folders only: the input folder itself when date-named, each date-named sub-folder of it, and the date-named folders inside those, at any depth |
| WalkFacts.MoveFilesStartsAtRoot | ap-folder-fix.py:32-35 | a date-named input folder is the first folder processed, whether or not the run then completes |
| WalkFacts.MoveFilesIdle | ap-folder-fix.py:32-39 | a run on a tree where neither the input folder nor any of its sub-folders is date-named completes within a visit budget of one more than the number of top-level entries, performs no change and logs nothing |
| OutsideFacts.MakeDirsKeepsDir | ap-folder-fix.py:46 | `os.makedirs` never turns an existing folder into anything else |
| OutsideFacts.MoveKeepsDir | ap-folder-fix.py:58 | `shutil.move` leaves every folder that is neither the moved entry nor inside it a folder |
| OutsideFacts.RemoveKeepsDir | ap-folder-fix.py:63 | `os.rmdir` leaves every folder that is neither the removed one nor inside it a folder |
| OutsideFacts.MoveAllKeepsDir | ap-folder-fix.py:55-58 | a move loop that empties a folder, whether it completes or stops, leaves every folder outside that folder a folder |
| OutsideFacts.FlatKeepsDir | ap-folder-fix.py:42-66 | the FLAT branch, complete or stopped, leaves every folder other than the date folder and not inside its `FLAT` or `LIGHT` a folder |
| OutsideFacts.TargetKeepsDir | ap-folder-fix.py:73-89 | handling one target folder, complete or stopped, leaves every such folder a folder |
| OutsideFacts.TargetsKeepDir | ap-folder-fix.py:71-89 | the loop over `LIGHT`, complete or stopped, leaves every such folder a folder |
| OutsideFacts.LightKeepsDir | ap-folder-fix.py:68-92 | the LIGHT branch, complete or stopped, leaves every such folder a folder |
| OutsideFacts.ChildrenKeepDir | ap-folder-fix.py:41-94 | the loop over `dirs`, complete or stopped, leaves every such folder a folder |
| OutsideFacts.DateFolderKeepsDir | ap-folder-fix.py:41-104 | the whole step for a date folder, complete or stopped, leaves every folder other than the date folder and not inside its `FLAT` or `LIGHT` a folder; in particular the date folder is not removed while it holds such a folder |
| Reorganizer.Volume.MakeDirs | ap-folder-fix.py:46 | `os.makedirs` on the volume: it changes the tree as `FsOps.MakeDirs` does, reports whether it succeeded, and logs nothing |
| Reorganizer.Volume.LogAndRemove | ap-folder-fix.py:62-63 | it logs the line, then removes the folder; the tree and result are those of `os.rmdir` |
| Reorganizer.Volume.MoveEntries | ap-folder-fix.py:55-58 | lists the source once and moves each entry in turn; the tree, log and result are exactly `MoveListed`'s, so the `MoveFacts` lemmas apply |
| Reorganizer.Volume.MoveEach | ap-folder-fix.py:76-86 | the loop over a listing taken beforehand, stopping at the first failing move; it ends in exactly `MoveAll`'s state |
| Reorganizer.Volume.ProcessFlat | ap-folder-fix.py:42-66 | the FLAT branch with its `flatwizard` flag; it ends in exactly `FlatOutcome`'s state, so `FlatSucceeds`, `FlatPlaces` and the others describe it |
| Reorganizer.Volume.ProcessTarget | ap-folder-fix.py:73-89 | one target folder; it ends in exactly `TargetOutcome`'s state |
| Reorganizer.Volume.ProcessLight | ap-folder-fix.py:68-92 | the LIGHT branch, looping over `LIGHT`'s listing and skipping plain files; it ends in exactly `LightOutcome`'s state |
| Reorganizer.Volume.ProcessChild | ap-folder-fix.py:41-94 | one sub-folder: FLAT, LIGHT, or an unknown folder that is only logged; it ends in exactly `ChildOutcome`'s state |
| Reorganizer.Volume.ProcessDateFolder | ap-folder-fix.py:41-104 | the whole body for one date folder: its `dirs` in order, a skip line per file, then `os.rmdir` if the folder lists nothing; it ends in exactly `DateFolderOutcome`'s state |
| Reorganizer.Volume.MoveFiles | ap-folder-fix.py:29-104 | `move_files`: the pruned top-down walk on an explicit stack. Its status, the folders it processed, the tree and the log are exactly `MoveFilesOutcome`'s, so `MoveFilesHandlesDateChains`, `MoveFilesReaches`, `MoveFilesStartsAtRoot` and `MoveFilesIdle` describe it |

## Left out

- Logging setup (lines 8-27) and the command line (lines 106-116) are not modelled. Logging is
  an abstract list of events, one constructor per message, each with the paths it names and a
  level (`Steps.LevelOf`). The message text and timestamps are not modelled.
- The real filesystem is not modelled: permissions, symbolic links, cross-device moves, path
  length and case-insensitive names. Every failure of the three calls is reduced to the
  tree-shape conditions under which `FsOps` returns `Err`. The exception type and message are not
  modelled; a failing call simply ends the run.
- After a failing call the model keeps the tree as it stands, just as the real run leaves it. What
  a caller of `move_files` does with the exception is outside the model.
- DateName.DateNameMeaning: `\d` is read as the ASCII digits `0`-`9`. Python's `\d` in a string
  pattern also matches other Unicode decimal digits, which the model does not accept.
- DateName.MatchesDatePattern: the same ASCII-only reading of `\d`.
- DateName.NotDateName: "a digit" means an ASCII digit, for the same reason.
- Layout.Basename: it is the last component of the input folder's path. Python
  tests `os.path.basename` of the argument as spelled: with a trailing slash
  (`/data/2024-01-01/`) that is `""`, and for `.` it is `.`. A date-named input folder spelled that
  way is only walked by the program, so its `FLAT` and `LIGHT` are pruned and nothing moves. The
  model processes it. Paths are lists of names, so the spelling is not modelled.
- Reorganizer.Volume.MoveFiles: the walk takes a visit budget `fuel` and reports `OutOfFuel`
  when it runs out. Termination over a tree that changes during the walk is not proved otherwise.
  `WalkFacts.MoveFilesIdle` states the budget a run on an idle tree needs.
- The listing order of `os.listdir` and `os.walk` is not fixed. It is a parameter, and every
  lemma holds for every order that lists each name once. The methods use one given order
  throughout.
- LightFacts.LightSucceeds: stated only for a date folder strictly below the input folder
  (`LightApart`). It also requires that no entry of `LIGHT` is named like that folder's top-level
  date ancestor or like `_FlatWizard`. In those cases `<input>/<target>` would be the date
  folder's own ancestor or the flat target's folder, and the moves would interfere with each
  other. The same separation restricts each of the members named on the lines below.
- LightFacts.LightListings: stated only under `LightApart`.
- LightFacts.LightPlaces: stated only under `LightApart`.
- LightFacts.LightFrame: stated only under `LightApart`.
- LightFacts.LightGone: stated only under `LightApart`.
- LightFacts.TargetWbppListing: stated only when `<input>/<target>` lies apart from the target
  folder `LIGHT/<target>`. That fails when the target is named like the date folder's top-level
  date ancestor, or, for a date-named input folder, when it is named `LIGHT`; then the `WBPP`
  move lands inside the folder being emptied.
- LightFacts.TargetsSucceed: stated only when no target folder is named like the date folder's
  top-level date ancestor or like `_FlatWizard` (`TargetsApart`, inside `TargetsSetting`), for a
  date folder strictly below the input folder.
- LightFacts.TargetsListings: stated only under `TargetsApart`.
- LightFacts.TargetsPlaces: stated only under `TargetsApart`.
- LightFacts.TargetsFrame: stated only under `TargetsApart`.
- FolderFacts.FlatKeepsLight: stated only under `LightApart`.
- FolderFacts.LightKeepsFlat: stated only under `LightApart`.
- FolderFacts.LightKeepsEntry: stated only under `LightApart`.
- FolderFacts.ChildrenSucceed: stated only under `LightApart` (inside `ChildrenSetting`).
- FolderFacts.ChildrenNames: stated only under `LightApart` (inside `ChildrenSetting`).
- FolderFacts.ChildrenKeeps: stated only under `LightApart` (inside `ChildrenSetting`).
- FolderFacts.ChildrenFar: stated only under `LightApart` (inside `ChildrenSetting`).
- FolderFacts.ChildrenFlatPlaces: stated only under `LightApart` (inside `ChildrenSetting`).
- FolderFacts.ChildrenLightPlaces: stated only under `LightApart` (inside `ChildrenSetting`).
- FolderFacts.ChildrenLog: stated only under `LightApart` (inside `ChildrenSetting`).
- FolderFacts.FolderListing: the loop's setting (`ChildrenSetting`) is stated only under
  `LightApart`; the listing facts hold for every folder.
- FolderFacts.DateFolderSucceeds: needs the same separation (`LightApart`). A date-named input
  folder, processed as the date folder itself, is modelled by `Reorganizer.Volume.MoveFiles` but
  not covered by the date-folder lemmas.
- FolderFacts.DateFolderRemoval: stated only under `LightApart`.
- FolderFacts.DateFolderKeeps: stated only under `LightApart`.
- FolderFacts.DateFolderFlatPlaces: stated only under `LightApart`.
- FolderFacts.DateFolderLightPlaces: stated only under `LightApart`.
- FolderFacts.DateFolderLog: stated only under `LightApart`.
- FolderFacts.FlatKeepsEntry: requires the date folder to lie strictly below the input folder.
- FolderFacts.FlatDateNames: requires the date folder to lie strictly below the input folder.
- WalkFacts.MoveFilesReaches: stated for a completed run. A run that raises, or that exhausts its
  budget, stops before the folders still waiting on the stack. Only folders present in the
  starting tree are covered.
- WalkFacts.MoveFilesHandlesDateChains: it says which folders can be processed. It implies that a
  pruned folder is never processed or entered. That a pruned folder's subtree is also left
  unchanged by all the other date folders' steps is proved one date folder at a time
  (`FolderFacts.DateFolderKeeps`, `FlatFacts.FlatFar`, `LightFacts.LightFrame`). It is not
  composed over the whole walk: a top-level non-date folder is a move target (`<input>/<target>`)
  and does change.
- WalkFacts.MoveFilesIdle: it covers a second run on a tree without date folders at the top level.
  A completed first run leaves date folders in place when they held plain files or unknown
  folders, and a second run processes those again. No theorem composes the two runs.
