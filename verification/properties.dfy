/** Properties of a run: which apps are visited, what can change on disk,
    and when each stage of the per-app protocol runs. */
module Properties {
  import opened Wrappers
  import opened Files
  import opened Selection
  import opened Publish

  /** The apps announced by "Linking ..." lines, in order. */
  function Visited(log: seq<Event>): seq<Path> {
    if log == [] then []
    else Visited(log[..|log| - 1]) + (if log[|log| - 1].Linking? then [log[|log| - 1].app] else [])
  }

  function AppPaths(apps: seq<App>): seq<Path> {
    if apps == [] then [] else [apps[0].path] + AppPaths(apps[1..])
  }

  /** The paths of every app of every keg in the list, `nil` kegs having none. */
  function KegAppPaths<V>(kegs: seq<Option<Keg<V>>>): seq<Path> {
    if kegs == [] then []
    else (match kegs[0] case None => [] case Some(k) => AppPaths(k.apps)) + KegAppPaths(kegs[1..])
  }

  lemma {:induction false} VisitedAppend(a: seq<Event>, b: seq<Event>)
    ensures Visited(a + b) == Visited(a) + Visited(b)
    decreases |b|
  {
    if b == [] {
      assert a + b == a;
    } else {
      var c := b[..|b| - 1];
      assert (a + b)[..|a + b| - 1] == a + c;
      VisitedAppend(a, c);
    }
  }

  lemma {:induction false} VisitedWithoutLinking(s: seq<Event>)
    requires forall i :: 0 <= i < |s| ==> !s[i].Linking?
    ensures Visited(s) == []
    decreases |s|
  {
    if s != [] {
      VisitedWithoutLinking(s[..|s| - 1]);
    }
  }

  /** Each app step prints exactly one "Linking" line, for that app. */
  lemma StepVisitsApp(w: World, cfg: Config, targetDir: Path, app: App)
    ensures Visited(Step(w, cfg, targetDir, app).log) == Visited(w.log) + [app.path]
  {
    var r := Step(w, cfg, targetDir, app);
    var tail := r.log[|w.log| + 1..];
    assert r.log == (w.log + [Linking(app.path)]) + tail;
    VisitedWithoutLinking(tail);
    VisitedAppend(w.log + [Linking(app.path)], tail);
    VisitedAppend(w.log, [Linking(app.path)]);
  }

  /** Whatever happens to each app, the loop goes on: every app of the keg
      is visited exactly once, in order. */
  lemma {:induction false} RunAppsVisitsEachOnce(w: World, cfg: Config, targetDir: Path, apps: seq<App>)
    ensures Visited(RunApps(w, cfg, targetDir, apps).log) == Visited(w.log) + AppPaths(apps)
    decreases |apps|
  {
    if apps != [] {
      StepVisitsApp(w, cfg, targetDir, apps[0]);
      RunAppsVisitsEachOnce(Step(w, cfg, targetDir, apps[0]), cfg, targetDir, apps[1..]);
    }
  }

  /** A run over the keg list ends with NilKeg exactly when the code is as
      written and the list holds a `nil`. */
  lemma {:induction false} RunKegsCrashesIffNil<V>(w: World, cfg: Config, targetDir: Path, kegs: seq<Option<Keg<V>>>)
    ensures RunKegs(w, cfg, targetDir, kegs).status == NilKeg <==> cfg.variant == AsWritten && None in kegs
    decreases |kegs|
  {
    if kegs != [] {
      assert None in kegs <==> kegs[0] == None || None in kegs[1..];
      match kegs[0]
      case None =>
        RunKegsCrashesIffNil(w, cfg, targetDir, kegs[1..]);
      case Some(keg) =>
        RunKegsCrashesIffNil(RunApps(w, cfg, targetDir, keg.apps), cfg, targetDir, kegs[1..]);
    }
  }

  /** A run that completes has visited every app of every keg exactly once,
      keg by keg. */
  lemma {:induction false} RunKegsVisitsEveryApp<V>(w: World, cfg: Config, targetDir: Path, kegs: seq<Option<Keg<V>>>)
    requires RunKegs(w, cfg, targetDir, kegs).status == Completed
    ensures Visited(RunKegs(w, cfg, targetDir, kegs).world.log) == Visited(w.log) + KegAppPaths(kegs)
    decreases |kegs|
  {
    if kegs != [] {
      match kegs[0]
      case None =>
        RunKegsVisitsEveryApp(w, cfg, targetDir, kegs[1..]);
      case Some(keg) =>
        var w1 := RunApps(w, cfg, targetDir, keg.apps);
        RunAppsVisitsEachOnce(w, cfg, targetDir, keg.apps);
        RunKegsVisitsEveryApp(w1, cfg, targetDir, kegs[1..]);
    }
  }

  /** Running a list that starts with a keg is running that keg's apps,
      then the rest of the list. */
  lemma RunKegsUnfold<V>(w: World, cfg: Config, targetDir: Path, kegs: seq<Option<Keg<V>>>)
    requires kegs != [] && kegs[0].Some?
    ensures RunKegs(w, cfg, targetDir, kegs) ==
            RunKegs(RunApps(w, cfg, targetDir, kegs[0].value.apps), cfg, targetDir, kegs[1..])
  {
  }

  /** The paths of the first i + 1 kegs of a list that starts with a keg. */
  lemma KegAppPathsPrefix<V>(kegs: seq<Option<Keg<V>>>, i: nat)
    requires 0 < i <= |kegs| && kegs[0].Some?
    ensures KegAppPaths(kegs[..i]) == AppPaths(kegs[0].value.apps) + KegAppPaths(kegs[1..][..i - 1])
  {
    var done := kegs[..i];
    assert done[0] == kegs[0] && done[1..] == kegs[1..][..i - 1];
  }

  /** As written, the run stops at the first `nil` keg (its status is
      NilKeg by `RunKegsCrashesIffNil`), after visiting every app of the
      kegs before it and none after. */
  lemma {:induction false} RunKegsStopsAtFirstNil<V>(w: World, cfg: Config, targetDir: Path,
                                                    kegs: seq<Option<Keg<V>>>, i: nat)
    requires cfg.variant == AsWritten
    requires i < |kegs| && kegs[i].None? && None !in kegs[..i]
    ensures Visited(RunKegs(w, cfg, targetDir, kegs).world.log) == Visited(w.log) + KegAppPaths(kegs[..i])
    decreases i
  {
    if i == 0 {
      assert kegs[..i] == [];
    } else {
      var apps := kegs[0].value.apps;
      var w1 := RunApps(w, cfg, targetDir, apps);
      var rest := kegs[1..];
      var r1 := RunKegs(w1, cfg, targetDir, rest);
      var a, b, c := Visited(w.log), AppPaths(apps), KegAppPaths(rest[..i - 1]);
      calc {
        Visited(RunKegs(w, cfg, targetDir, kegs).world.log);
        { RunKegsUnfold(w, cfg, targetDir, kegs); }
        Visited(r1.world.log);
        { assert rest[..i - 1] == kegs[..i][1..];
          RunKegsStopsAtFirstNil(w1, cfg, targetDir, rest, i - 1); }
        Visited(w1.log) + c;
        { RunAppsVisitsEachOnce(w, cfg, targetDir, apps); }
        (a + b) + c;
        a + (b + c);
        { KegAppPathsPrefix(kegs, i); }
        a + KegAppPaths(kegs[..i]);
      }
    }
  }

  /** A missing target directory ends the run with `exit 1` before the
      applinks directory is made and before any app is visited. */
  lemma TargetMissingStopsRun<V>(w: World, cfg: Config, local: bool, home: Path,
                                 args: KegArgs<V>, racks: seq<seq<Keg<V>>>, cmp: (V, V) -> int)
    requires !Exists(w.fs, TargetDir(local, home))
    ensures var r := Linkapps(w, cfg, local, home, args, racks, cmp);
            && r.status == TargetDirMissing
            && r.world.fs == w.fs
            && r.world.log == w.log + [TargetMissing(TargetDir(local, home))]
            && Visited(r.world.log) == Visited(w.log)
  {
    VisitedAppend(w.log, [TargetMissing(TargetDir(local, home))]);
  }

  /** As intended, a run that gets past its two checks visits every app of
      every chosen keg exactly once. */
  lemma IntendedRunVisitsEveryApp<V>(w: World, cfg: Config, local: bool, home: Path,
                                     args: KegArgs<V>, racks: seq<seq<Keg<V>>>, cmp: (V, V) -> int)
    requires cfg.variant == Intended
    requires Exists(w.fs, TargetDir(local, home))
    requires Exists(w.fs, cfg.applinks) || (cfg.applinks !in w.fs && cfg.env.mkdirSucceeds)
    ensures var r := Linkapps(w, cfg, local, home, args, racks, cmp);
            && r.status == Completed
            && Visited(r.world.log) == Visited(w.log) + KegAppPaths(KegsToLink(args, racks, cmp))
  {
    var fs := ApplinksReady(w.fs, cfg).value;
    var kegs := KegsToLink(args, racks, cmp);
    RunKegsCrashesIffNil(World(fs, w.log), cfg, TargetDir(local, home), kegs);
    RunKegsVisitsEveryApp(World(fs, w.log), cfg, TargetDir(local, home), kegs);
  }

  // ---------------------------------------------------------------------
  // The per-app protocol, stage by stage

  /** A non-link entry at the checked link path skips the app with an
      error: nothing is linked and the alias stage does not run. */
  lemma OccupiedLinkSkipsApp(w: World, cfg: Config, targetDir: Path, app: App)
    requires Occupied(w.fs, CheckedLinkPath(cfg, app.basename))
    ensures Step(w, cfg, targetDir, app) ==
            World(w.fs, w.log + [Linking(app.path), AlreadyExists(CheckedLinkPath(cfg, app.basename))])
  {
  }

  /** When `ln -sf` fails the app is skipped with an error: the alias path
      is neither checked nor created. */
  lemma FailedSymlinkSkipsAlias(w: World, cfg: Config, targetDir: Path, app: App)
    requires !Occupied(w.fs, CheckedLinkPath(cfg, app.basename))
    requires !LinkSucceeds(w.fs, cfg, app)
    ensures Step(w, cfg, targetDir, app) ==
            World(w.fs, w.log + [Linking(app.path), SymlinkFailed(CheckedLinkPath(cfg, app.basename))])
  {
  }

  /** When the link is made and something `File.exist?` sees is already at
      the alias path, that entry is kept as it is and no alias is made; an
      error is printed exactly when the Finder does not call the entry an
      "alias file". */
  lemma ExistingAliasKept(w: World, cfg: Config, targetDir: Path, app: App)
    requires !Occupied(w.fs, CheckedLinkPath(cfg, app.basename))
    requires LinkSucceeds(w.fs, cfg, app)
    requires Exists(w.fs[LinkPath(cfg, app.basename) := Symlink(app.path)], AliasPath(targetDir, app.basename))
    ensures var r := Step(w, cfg, targetDir, app);
            && r.fs == w.fs[LinkPath(cfg, app.basename) := Symlink(app.path)]
            && (AlreadyExists(AliasPath(targetDir, app.basename)) in r.log[|w.log|..]
                <==> !CheckAlias(cfg.env, AliasPath(targetDir, app.basename)))
            && forall e :: e in r.log[|w.log|..] ==> !e.AliasAttempt?
  {
    var r := Step(w, cfg, targetDir, app);
    var alias := AliasPath(targetDir, app.basename);
    var linked := w.fs[LinkPath(cfg, app.basename) := Symlink(app.path)];
    var announced := [Linking(app.path), CreatingAlias(app.path)];
    var found := CheckAlias(cfg.env, alias);
    var tail := announced + (if found then [] else [AlreadyExists(alias)]);
    assert r == World(linked, w.log + tail);
    assert r.log[|w.log|..] == tail;
    KeptAliasLines(app.path, alias, found);
  }

  lemma KeptAliasLines(app: Path, alias: Path, found: bool)
    ensures var tail := [Linking(app), CreatingAlias(app)] + (if found then [] else [AlreadyExists(alias)]);
            forall e :: e in tail ==> !e.AliasAttempt?
  {
  }

  /** A dangling link at the alias path is not seen by `File.exist?`, so
      the alias script runs and no error is printed; the Finder does not
      replace the item holding the name, so the dangling link stays and no
      alias is made. */
  lemma DanglingAliasLinkKept(w: World, cfg: Config, targetDir: Path, app: App)
    requires !Occupied(w.fs, CheckedLinkPath(cfg, app.basename))
    requires LinkSucceeds(w.fs, cfg, app)
    requires var linked := w.fs[LinkPath(cfg, app.basename) := Symlink(app.path)];
             var alias := AliasPath(targetDir, app.basename);
             alias in linked && linked[alias].Symlink? && linked[alias].target !in linked
    ensures var r := Step(w, cfg, targetDir, app);
            && r.fs == w.fs[LinkPath(cfg, app.basename) := Symlink(app.path)]
            && r.log == w.log + [Linking(app.path), CreatingAlias(app.path), AliasAttempt(app.basename, false)]
  {
  }

  /** The alias script runs for an app exactly when the checked link path
      was free, `ln -sf` worked and `File.exist?` saw nothing at the alias
      path once the link was made. */
  lemma AliasAttemptedOnlyAfterLink(w: World, cfg: Config, targetDir: Path, app: App)
    ensures var r := Step(w, cfg, targetDir, app);
            (exists e :: e in r.log[|w.log|..] && e.AliasAttempt?) <==>
              && !Occupied(w.fs, CheckedLinkPath(cfg, app.basename))
              && LinkSucceeds(w.fs, cfg, app)
              && !Exists(w.fs[LinkPath(cfg, app.basename) := Symlink(app.path)], AliasPath(targetDir, app.basename))
  {
    var r := Step(w, cfg, targetDir, app);
    var name := app.basename;
    var link := LinkPath(cfg, name);
    var alias := AliasPath(targetDir, name);
    var linking := w.log + [Linking(app.path)];
    if Occupied(w.fs, CheckedLinkPath(cfg, name)) {
      assert r.log[|w.log|..] == [Linking(app.path), AlreadyExists(CheckedLinkPath(cfg, name))];
    } else if !LinkSucceeds(w.fs, cfg, app) {
      assert r.log[|w.log|..] == [Linking(app.path), SymlinkFailed(CheckedLinkPath(cfg, name))];
    } else if Exists(w.fs[link := Symlink(app.path)], alias) {
      ExistingAliasKept(w, cfg, targetDir, app);
    } else {
      var e := AliasAttempt(name, cfg.env.aliasSucceeds(name) && alias !in w.fs[link := Symlink(app.path)]);
      assert r.log[|w.log|..] == [Linking(app.path), CreatingAlias(app.path), e];
      assert e in r.log[|w.log|..];
    }
  }

  /** Publishing the same app twice leaves the filesystem as publishing it
      once did: the link is remade in place and the alias is found. */
  lemma StepIdempotent(w: World, cfg: Config, targetDir: Path, app: App, log: seq<Event>)
    ensures var once := Step(w, cfg, targetDir, app).fs;
            Step(World(once, log), cfg, targetDir, app).fs == once
  {
  }

  // ---------------------------------------------------------------------
  // What may change on disk

  /** Every entry that existed is still there, and the only ones that
      change are entries directly under `applinks`, into symbolic links. */
  ghost predicate ChangesOnlyLinks(applinks: Path, before: FileSystem, after: FileSystem) {
    forall p :: p in before ==>
      && p in after
      && (after[p] == before[p] || (after[p].Symlink? && exists name :: '/' !in name && p == Join(applinks, name)))
  }

  /** Every entry that existed is still there, and an entry that was not a
      symbolic link is exactly as it was. */
  ghost predicate NeverOverwrites(before: FileSystem, after: FileSystem) {
    forall p :: p in before ==>
      && p in after
      && (after[p] == before[p] || (before[p].Symlink? && after[p].Symlink?))
  }

  lemma StepChangesOnlyLinks(w: World, cfg: Config, targetDir: Path, app: App)
    requires NamedAfterPath(app)
    ensures ChangesOnlyLinks(cfg.applinks, w.fs, Step(w, cfg, targetDir, app).fs)
  {
    var after := Step(w, cfg, targetDir, app).fs;
    forall p | p in w.fs
      ensures p in after
      ensures after[p] == w.fs[p] || (after[p].Symlink? && exists name :: '/' !in name && p == Join(cfg.applinks, name))
    {
      if after[p] != w.fs[p] {
        assert p == Join(cfg.applinks, app.basename);
      }
    }
  }

  /** Whatever the variant, a run never removes an entry and never changes
      anything outside `applinks`; in particular an existing item in the
      target directory is never replaced. */
  lemma {:induction false} RunAppsChangesOnlyLinks(w: World, cfg: Config, targetDir: Path, apps: seq<App>)
    requires forall i :: 0 <= i < |apps| ==> NamedAfterPath(apps[i])
    ensures ChangesOnlyLinks(cfg.applinks, w.fs, RunApps(w, cfg, targetDir, apps).fs)
    decreases |apps|
  {
    if apps != [] {
      var w1 := Step(w, cfg, targetDir, apps[0]);
      StepChangesOnlyLinks(w, cfg, targetDir, apps[0]);
      RunAppsChangesOnlyLinks(w1, cfg, targetDir, apps[1..]);
    }
  }

  /** As intended, an app step replaces no entry other than a symbolic link. */
  lemma StepNeverOverwrites(w: World, cfg: Config, targetDir: Path, app: App)
    requires cfg.variant == Intended
    ensures NeverOverwrites(w.fs, Step(w, cfg, targetDir, app).fs)
  {
  }

  /** As intended, no app of the loop replaces an entry other than a
      symbolic link. */
  lemma {:induction false} RunAppsNeverOverwrites(w: World, cfg: Config, targetDir: Path, apps: seq<App>)
    requires cfg.variant == Intended
    ensures NeverOverwrites(w.fs, RunApps(w, cfg, targetDir, apps).fs)
    decreases |apps|
  {
    if apps != [] {
      var w1 := Step(w, cfg, targetDir, apps[0]);
      StepNeverOverwrites(w, cfg, targetDir, apps[0]);
      RunAppsNeverOverwrites(w1, cfg, targetDir, apps[1..]);
    }
  }

  /** As intended, a whole keg list replaces no entry other than a symbolic link. */
  lemma {:induction false} RunKegsNeverOverwrites<V>(w: World, cfg: Config, targetDir: Path, kegs: seq<Option<Keg<V>>>)
    requires cfg.variant == Intended
    ensures NeverOverwrites(w.fs, RunKegs(w, cfg, targetDir, kegs).world.fs)
    decreases |kegs|
  {
    if kegs != [] {
      match kegs[0]
      case None =>
        RunKegsNeverOverwrites(w, cfg, targetDir, kegs[1..]);
      case Some(keg) =>
        var w1 := RunApps(w, cfg, targetDir, keg.apps);
        RunAppsNeverOverwrites(w, cfg, targetDir, keg.apps);
        RunKegsNeverOverwrites(w1, cfg, targetDir, kegs[1..]);
    }
  }

  /** As intended, a whole run replaces no entry other than a symbolic link. */
  lemma IntendedRunNeverOverwrites<V>(w: World, cfg: Config, local: bool, home: Path,
                                      args: KegArgs<V>, racks: seq<seq<Keg<V>>>, cmp: (V, V) -> int)
    requires cfg.variant == Intended
    ensures NeverOverwrites(w.fs, Linkapps(w, cfg, local, home, args, racks, cmp).world.fs)
  {
    var targetDir := TargetDir(local, home);
    if Exists(w.fs, targetDir) && ApplinksReady(w.fs, cfg).Some? {
      var fs := ApplinksReady(w.fs, cfg).value;
      RunKegsNeverOverwrites(World(fs, w.log), cfg, targetDir, KegsToLink(args, racks, cmp));
    }
  }
}
