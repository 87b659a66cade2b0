# brew linkapps, modelled in Dafny

`brew linkapps` makes the `.app` bundles of installed kegs visible to the
macOS Finder. It chooses a target directory: `/Applications`, or
`~/Applications` with `--local`. If that directory is missing it stops with
`exit 1`. Otherwise it makes sure the applinks directory (HOMEBREW_APPLINKS)
exists, then chooses one keg per rack: the linked keg, else the newest. For
each app of each chosen keg it then:

1. checks the link path for a non-link entry;
2. runs `ln -sf <app> <applinks>`;
3. checks the alias path in the target directory, asking the Finder what an
   existing item is;
4. when nothing is there, asks the Finder to make an alias.

Each failure skips only the current app.

The model has seven modules:

- `Wrappers`: `Option`, used for `nil`.
- `Files`: paths, the entry kinds (`Dir`, `Symlink`, `Regular`, `AliasFile`),
  the filesystem as a map from path to entry, and `Exists`, which plays
  `File.exist?`: a symbolic link whose target is gone does not exist.
- `Selection`: the keg choice as pure functions. Versions are any type `V`
  with a three-way comparison `cmp`, which plays the part of `<=>`.
- `Publish`: one run as functions of the state before it. `Step` handles one
  app, `RunApps` one keg, `RunKegs` the keg list, and `Linkapps` the whole
  command. The outcomes of `ln`, `mkdir -p` and the two Finder scripts come
  in as an `Env`.
- `Linker`: class `AppLinker`. Its `fs` and `log` fields are changed step by
  step by methods that follow the source's nested loops and early `next`s.
  Each method is proved equal to the matching `Publish` function.
- `Properties` and `Findings`: what is proved about those functions.
- `Scenarios`: a worked first run and re-run on a small concrete installation.

`Config.variant` selects the behaviour:

- `AsWritten` follows the code line for line.
- `Intended` checks the path `ln` writes and skips racks that yield no keg.

## Model

| member | source | states |
|---|---|---|
| Selection.FirstLinked | Library/Homebrew/cmd/linkapps.rb:22 | `detect(&:linked?)`: None exactly when no keg is linked; otherwise a linked keg at an index before which no keg is linked |
| Selection.MaxFrom | Library/Homebrew/cmd/linkapps.rb:22 | the left-to-right scan of `max` returns the starting keg or one of the scanned kegs |
| Selection.MaxByVersion | Library/Homebrew/cmd/linkapps.rb:22 | `max` by version returns a keg of the rack |
| Selection.CurrentKeg | Library/Homebrew/cmd/linkapps.rb:19-23 | nothing exactly for an empty rack; otherwise a keg of the rack, which is linked exactly when the rack has a linked keg |
| Selection.CurrentKegs | Library/Homebrew/cmd/linkapps.rb:19-23 | `Formula.racks.map` gives one entry per rack, in rack order, each the rack's choice |
| Selection.KegsToLink | Library/Homebrew/cmd/linkapps.rb:18-26 | with named kegs, exactly the caller's kegs in order; without, one entry per rack that is `nil` exactly for an empty rack and otherwise a keg of that rack |
| Selection.MaxFromIsGreatest | Library/Homebrew/cmd/linkapps.rb:22 | under a total order, the scan's result is at least as new as the starting keg and every scanned keg |
| Selection.LinkedKegWins | Library/Homebrew/cmd/linkapps.rb:22 | the first linked keg in subdirectory order is chosen, whatever the other kegs' versions |
| Selection.UnlinkedRackTakesNewest | Library/Homebrew/cmd/linkapps.rb:20-22 | in a non-empty rack without a linked keg, the chosen keg is a member whose version is at least every keg's version |
| Publish.TargetDir | Library/Homebrew/cmd/linkapps.rb:8 | `/Applications` without `--local`; with it, the home directory followed by `/Applications`, which differs from `/Applications` for any non-empty home |
| Publish.CheckedLinkPath | Library/Homebrew/cmd/linkapps.rb:31 | as intended, the path `ln` writes; as written, that path exactly when the applinks directory is literally named `{HOMEBREW_APPLINKS}`, and another path otherwise |
| Publish.Occupied | Library/Homebrew/cmd/linkapps.rb:33 | `File.exist? && !File.symlink?` holds exactly when a non-link entry is at the path; a dangling link never counts |
| Publish.LinkSucceeds | Library/Homebrew/cmd/linkapps.rb:38 | `ln -sf` fails when the environment says so or a directory is at the link path; it succeeds over nothing, a file, a link or an alias |
| Publish.Chomp | Library/Homebrew/cmd/linkapps.rb:80 | `chomp` drops at most one trailing "\r\n", "\n" or "\r" (a "\r\n" as a whole), and drops one whenever the string ends in a line break |
| Publish.CheckAlias | Library/Homebrew/cmd/linkapps.rb:80 | `check_alias` accepts exactly the outputs "alias file", optionally followed by one "\n", "\r" or "\r\n" |
| Publish.ChompedAliasFile | Library/Homebrew/cmd/linkapps.rb:80 | the outputs that chomp to "alias file" are exactly those four |
| Publish.CreateAlias | Library/Homebrew/cmd/linkapps.rb:86-108 | the alias script adds an alias to the bundle's link at `target/<name>` when it works and the name is free; otherwise it changes nothing. No existing entry is changed, and the attempt is logged either way |
| Publish.Step | Library/Homebrew/cmd/linkapps.rb:29-54 | one app prints exactly one "Linking" line, first; entries are never removed; only the link path and the alias path can change |
| Publish.RunApps | Library/Homebrew/cmd/linkapps.rb:29-54 | the app loop only appends to the log (at least one line per app) and never removes an entry |
| Publish.RunKegs | Library/Homebrew/cmd/linkapps.rb:28-55 | the keg loop either completes or stops on a `nil` keg, and stopping happens only as written; the log only grows and entries are never removed |
| Publish.ApplinksReady | Library/Homebrew/cmd/linkapps.rb:58-65 | `check_applinks` fails exactly when `File.exist?` does not see the applinks directory and `mkdir -p` raises: because it cannot make it, or because a dangling link holds the name. Otherwise the directory exists afterwards and nothing else changes |
| Publish.Linkapps | Library/Homebrew/cmd/linkapps.rb:7-56 | the run ends with `exit 1` exactly when `File.exist?` does not see the target directory, a dangling link included. It ends with the applinks error exactly as `check_applinks` raises, and then changes nothing. It stops on `nil` only as written |
| Properties.StepVisitsApp | Library/Homebrew/cmd/linkapps.rb:30 | each app step adds exactly its own app to the apps announced by "Linking" lines |
| Properties.RunAppsVisitsEachOnce | Library/Homebrew/cmd/linkapps.rb:29-54 | whatever fails, every app of a keg is announced exactly once, in order |
| Properties.RunKegsCrashesIffNil | Library/Homebrew/cmd/linkapps.rb:28-29 | the keg loop stops on `nil` exactly when the code is as written and the keg list holds a `nil` |
| Properties.RunKegsVisitsEveryApp | Library/Homebrew/cmd/linkapps.rb:28-55 | a completed keg loop has announced every app of every keg exactly once, keg by keg |
| Properties.RunKegsStopsAtFirstNil | Library/Homebrew/cmd/linkapps.rb:28-29 | as written, a keg list whose first `nil` is at position i announces exactly the apps of the kegs before i and none after |
| Properties.TargetMissingStopsRun | Library/Homebrew/cmd/linkapps.rb:10-16 | with the target directory missing or a dangling link, the run ends with `exit 1`. The filesystem is unchanged, so the applinks directory is not made. One diagnostic is printed and no app is announced |
| Properties.IntendedRunVisitsEveryApp | Library/Homebrew/cmd/linkapps.rb:18-55 | as intended, a run past its two checks completes and announces every app of every chosen keg exactly once |
| Properties.OccupiedLinkSkipsApp | Library/Homebrew/cmd/linkapps.rb:33-36 | a non-link entry at the checked link path skips the app with an error: the filesystem is untouched and the alias stage does not run |
| Properties.FailedSymlinkSkipsAlias | Library/Homebrew/cmd/linkapps.rb:38-41 | when `ln -sf` fails, the app is skipped with an error and the filesystem is untouched; the alias path is neither checked nor created |
| Properties.ExistingAliasKept | Library/Homebrew/cmd/linkapps.rb:44-51 | an entry that `File.exist?` sees at the alias path is kept and no alias is attempted. An error is printed exactly when `check_alias` rejects it (the comparison at line 80) |
| Properties.DanglingAliasLinkKept | Library/Homebrew/cmd/linkapps.rb:44-53 | a dangling link at the alias path is not seen at line 46, so the alias script runs with no error printed; the link stays and no alias is made |
| Properties.AliasAttemptedOnlyAfterLink | Library/Homebrew/cmd/linkapps.rb:43-53 | the alias script runs exactly when the checked link path was free, `ln -sf` worked and `File.exist?` saw nothing at the alias path |
| Properties.StepIdempotent | Library/Homebrew/cmd/linkapps.rb:31-53 | publishing an app a second time leaves the filesystem as the first time did |
| Properties.StepChangesOnlyLinks | Library/Homebrew/cmd/linkapps.rb:31-53 | in either variant, for a bundle named after the last component of its path, an app step removes nothing. The only existing entries it changes lie directly under applinks (a name without '/'), and they become links |
| Properties.RunAppsChangesOnlyLinks | Library/Homebrew/cmd/linkapps.rb:28-55 | in either variant, for bundles named after their paths, the app loop removes nothing. It changes no existing entry except directly under applinks, so no item in the target directory is replaced |
| Properties.StepNeverOverwrites | Library/Homebrew/cmd/linkapps.rb:33-53 | as intended, an app step removes nothing and changes no entry that was not a symbolic link |
| Properties.RunAppsNeverOverwrites | Library/Homebrew/cmd/linkapps.rb:28-55 | as intended, the app loop removes nothing and changes no entry that was not a symbolic link |
| Properties.RunKegsNeverOverwrites | Library/Homebrew/cmd/linkapps.rb:28-55 | as intended, the keg loop removes nothing and changes no entry that was not a symbolic link |
| Properties.IntendedRunNeverOverwrites | Library/Homebrew/cmd/linkapps.rb:7-56 | as intended, a whole run removes nothing and changes no entry that was not a symbolic link |
| Scenarios.FirstStepPublishes | Library/Homebrew/cmd/linkapps.rb:30-53 | for `Foo.app` in a fresh install, one step makes the link and the alias and prints "Linking", "Creating alias" and the alias attempt, with no error |
| Scenarios.SecondStepChangesNothing | Library/Homebrew/cmd/linkapps.rb:30-51 | the same step after publication remakes the link in place, finds the alias and prints no error |
| Scenarios.StaleAliasLinkStays | Library/Homebrew/cmd/linkapps.rb:30-53 | with a link in `/Applications` to a removed keg, one step makes the applinks link and runs the alias script with no error, but the stale link stays |
| Scenarios.FreshInstallThenRerun | Library/Homebrew/cmd/linkapps.rb:7-56 | a whole first run over one linked keg publishes its app without errors; a second run changes nothing on disk and prints no error |
| Linker.AppLinker.CheckApplinks | Library/Homebrew/cmd/linkapps.rb:58-65 | makes the applinks directory when `File.exist?` does not see it. It reports failure exactly as `ApplinksReady` does (missing and not makeable, or a dangling link holding the name), and then changes nothing |
| Linker.AppLinker.SymlinkApp | Library/Homebrew/cmd/linkapps.rb:38 | `ln -sf` succeeds as `LinkSucceeds` says and then leaves a link to the app at `applinks/<name>`; on failure nothing changes |
| Linker.AppLinker.CreateAlias | Library/Homebrew/cmd/linkapps.rb:53 | leaves the object in the state `Publish.CreateAlias` describes |
| Linker.AppLinker.LinkApp | Library/Homebrew/cmd/linkapps.rb:29-54 | the block body, with its early `next`s and its `File.exist?` tests, leaves the object in the state `Publish.Step` describes |
| Linker.AppLinker.LinkKeg | Library/Homebrew/cmd/linkapps.rb:29-54 | the `apps.each` loop leaves the object in the state `Publish.RunApps` describes |
| Linker.AppLinker.LinkKegs | Library/Homebrew/cmd/linkapps.rb:28-55 | the `kegs.each` loop leaves the object, and returns the status, that `Publish.RunKegs` describes |
| Linker.AppLinker.Linkapps | Library/Homebrew/cmd/linkapps.rb:7-56 | the whole command leaves the object, and returns the status, that `Publish.Linkapps` describes |
| Findings.LiteralCheckReplacesFile | Library/Homebrew/cmd/linkapps.rb:31-38 | as written, a plain file at the real link path goes unseen by the check and is replaced by a link |
| Findings.LiteralCheckExample | Library/Homebrew/cmd/linkapps.rb:31-38 | a concrete filesystem and app on which the as-written step replaces `/usr/local/Applinks/Foo.app` |
| Findings.EmptyRackStopsRun | Library/Homebrew/cmd/linkapps.rb:19-29 | as written, with no named kegs, an empty rack makes the run stop on the `nil` keg |

## Left out

- The AppleScript texts, the temporary script files and the `osascript` processes (lines 67-108) are left out. `check_alias` is reduced to `Env.classify`, the script's output for a path, which the model chomps as line 80 does. `create_alias` is reduced to `Env.aliasSucceeds`, whether the Finder made the alias.
- The environment functions depend only on their argument. `classify` does not see the filesystem at the moment of the call, `lnSucceeds` depends only on the app path, and `aliasSucceeds` only on the bundle name.
- A Finder alias is modelled as `AliasFile(<applinks>/<name>)`. What the Finder stores inside an alias is not modelled.
- `ln -sf` is modelled as failing when a directory sits at the link path, and otherwise as the environment says. Its other behaviours are not modelled, such as writing into a non-directory applinks path.
- `FileUtils.mkdir_p` is reduced to "the applinks directory now exists, or the run fails". Parent directories and the text of the raised error are not modelled.
- `Formula.racks`, `Keg#apps`, `Keg#linked?`, `ARGV.kegs` and version comparison live in files that are not part of this model. They are inputs: racks as sequences of kegs, apps as a sequence per keg, and `cmp` as the comparison.
- Ties between equal versions go to the first maximal keg in subdirectory order, as Ruby's `max` keeps its first maximum. Nothing is proved about which of several equal kegs is chosen.
- `ARGV` parsing and `File.expand_path` are reduced to a `local` flag and a `home` path. HOMEBREW_APPLINKS is a configuration value, and the example path in `Findings` is only an example.
- Printed text is reduced to event kinds. Process exit codes are reduced to `Status`: `exit 1`, the raise, and the NoMethodError each end the process without a normal finish.
- The result of `create_alias` is ignored by the caller at line 53. The model logs it and nothing depends on it.
- `Path` stands for a canonical path, compared as exact text. Case-insensitive volumes, Unicode normalization, `.`/`..` components and the working directory against which the relative as-written path `{HOMEBREW_APPLINKS}/<name>` of line 31 is resolved are not modelled.
- `Exists` (`File.exist?`) follows one symbolic link: a link counts as present when its target is in the filesystem map, whatever that target is. Chains of links and relative link targets are not followed further.
- When the alias name is already taken by an item `File.exist?` does not see (a dangling link), the Finder is modelled as making no alias and leaving the item alone. Whether it refuses, renames or raises is not in the source and is not modelled beyond that.
- StepChangesOnlyLinks and RunAppsChangesOnlyLinks assume bundles named after the last component of their path (`Selection.NamedAfterPath`), as `Pathname#basename` gives. Nothing else in the model needs it, so `App` does not enforce it.
- Concurrent changes to the filesystem by other processes are not modelled.
- Properties.StepIdempotent: idempotence is proved for one app, not for a whole run over several kegs whose apps share a name.

## Findings

| source | as written | input that shows it | evidently intended | confidence | as-written member | corrected member |
|---|---|---|---|---|---|---|
| Library/Homebrew/cmd/linkapps.rb:31 | `target_link` is the literal text `{HOMEBREW_APPLINKS}/<name>` (no `#`), so lines 33-36 check a path `ln` never writes | a plain file already at `<applinks>/Foo.app`, nothing at `{HOMEBREW_APPLINKS}/Foo.app`, `ln` working: the file is replaced by a link | check `<applinks>/<name>` and skip the app when a non-link is there | high, not executed | Findings.LiteralCheckReplacesFile | Properties.RunAppsNeverOverwrites |
| Library/Homebrew/cmd/linkapps.rb:21 | `next` inside `map` puts `nil` in the keg list, and line 29 calls `apps` on it | no named kegs and a rack with no keg directories: the run stops with NoMethodError and later racks are not published | leave out racks without kegs | medium (it needs `Formula.racks` to yield an empty rack), not executed | Findings.EmptyRackStopsRun | Properties.IntendedRunVisitsEveryApp |
