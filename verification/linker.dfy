/** The command as the source runs it: one object holding the filesystem
    and the lines printed so far, changed step by step by nested loops over
    the chosen kegs and their apps. Each method is proved to do what the
    matching function of `Publish` describes. */
module Linker {
  import opened Wrappers
  import opened Files
  import opened Selection
  import opened Publish

  class AppLinker {
    var fs: FileSystem
    var log: seq<Event>
    const cfg: Config

    constructor (fs: FileSystem, cfg: Config)
      ensures this.fs == fs && log == [] && this.cfg == cfg
    {
      this.fs := fs;
      this.log := [];
      this.cfg := cfg;
    }

    function State(): World
      reads this
    {
      World(fs, log)
    }

    /** `check_applinks`: unless `File.exist?` finds the applinks directory,
        `mkdir -p` it; false when that raises. */
    method CheckApplinks() returns (ready: bool)
      modifies this
      ensures ready <==> ApplinksReady(old(fs), cfg).Some?
      ensures ready ==> fs == ApplinksReady(old(fs), cfg).value
      ensures !ready ==> fs == old(fs)
      ensures log == old(log)
    {
      if !Exists(fs, cfg.applinks) {
        if cfg.applinks in fs || !cfg.env.mkdirSucceeds {
          return false;
        }
        fs := fs[cfg.applinks := Dir];
      }
      return true;
    }

    /** `system "ln", "-sf", app, HOMEBREW_APPLINKS` */
    method SymlinkApp(app: App) returns (ok: bool)
      modifies this
      ensures ok == LinkSucceeds(old(fs), cfg, app)
      ensures fs == if ok then old(fs)[LinkPath(cfg, app.basename) := Symlink(app.path)] else old(fs)
      ensures log == old(log)
    {
      var link := LinkPath(cfg, app.basename);
      ok := cfg.env.lnSucceeds(app.path) && !(link in fs && fs[link].Dir?);
      if ok {
        fs := fs[link := Symlink(app.path)];
      }
    }

    /** `create_alias(app.basename, target_dir)` */
    method CreateAlias(name: string, targetDir: Path)
      modifies this
      ensures State() == Publish.CreateAlias(old(State()), cfg, targetDir, name)
    {
      var created := cfg.env.aliasSucceeds(name) && AliasPath(targetDir, name) !in fs;
      if created {
        fs := fs[AliasPath(targetDir, name) := AliasFile(LinkPath(cfg, name))];
      }
      log := log + [AliasAttempt(name, created)];
    }

    /** One pass of the `keg.apps.each` block, with its early `next`s. */
    method LinkApp(app: App, targetDir: Path)
      modifies this
      ensures State() == Step(old(State()), cfg, targetDir, app)
    {
      log := log + [Linking(app.path)];
      var targetLink := CheckedLinkPath(cfg, app.basename);
      if Exists(fs, targetLink) && !fs[targetLink].Symlink? {
        log := log + [AlreadyExists(targetLink)];
        return;
      }
      var linked := SymlinkApp(app);
      if !linked {
        log := log + [SymlinkFailed(targetLink)];
        return;
      }
      log := log + [CreatingAlias(app.path)];
      var targetAlias := AliasPath(targetDir, app.basename);
      if Exists(fs, targetAlias) {
        if !CheckAlias(cfg.env, targetAlias) {
          log := log + [AlreadyExists(targetAlias)];
        }
        return;
      }
      CreateAlias(app.basename, targetDir);
    }

    /** `keg.apps.each { |app| ... }` */
    method LinkKeg<V>(keg: Keg<V>, targetDir: Path)
      modifies this
      ensures State() == RunApps(old(State()), cfg, targetDir, keg.apps)
    {
      ghost var goal := RunApps(State(), cfg, targetDir, keg.apps);
      var apps := keg.apps;
      var j := 0;
      while j < |apps|
        invariant 0 <= j <= |apps|
        invariant goal == RunApps(State(), cfg, targetDir, apps[j..])
      {
        assert apps[j..][0] == apps[j] && apps[j..][1..] == apps[j + 1..];
        LinkApp(apps[j], targetDir);
        j := j + 1;
      }
    }

    /** `kegs.each { |keg| keg.apps.each { ... } }`. Returns how the loop
        ends: normally, or on the `nil` keg as written. */
    method LinkKegs<V>(kegs: seq<Option<Keg<V>>>, targetDir: Path) returns (status: Status)
      modifies this
      ensures Outcome(State(), status) == RunKegs(old(State()), cfg, targetDir, kegs)
    {
      ghost var goal := RunKegs(State(), cfg, targetDir, kegs);
      var i := 0;
      while i < |kegs|
        invariant 0 <= i <= |kegs|
        invariant goal == RunKegs(State(), cfg, targetDir, kegs[i..])
      {
        assert kegs[i..][0] == kegs[i] && kegs[i..][1..] == kegs[i + 1..];
        match kegs[i] {
          case None =>
            if cfg.variant == AsWritten {
              return NilKeg;
            }
          case Some(keg) =>
            LinkKeg(keg, targetDir);
        }
        i := i + 1;
      }
      return Completed;
    }

    /** `linkapps`: stop when the target directory is missing, make the
        applinks directory, choose the kegs, then link every app of every
        keg. Returns how the run ends. */
    method Linkapps<V>(local: bool, home: Path, args: KegArgs<V>,
                       racks: seq<seq<Keg<V>>>, cmp: (V, V) -> int) returns (status: Status)
      modifies this
      ensures Outcome(State(), status) == Publish.Linkapps(old(State()), cfg, local, home, args, racks, cmp)
    {
      var targetDir := TargetDir(local, home);
      if !Exists(fs, targetDir) {
        log := log + [TargetMissing(targetDir)];
        return TargetDirMissing;
      }
      var ready := CheckApplinks();
      if !ready {
        return ApplinksUnwritable;
      }
      status := LinkKegs(KegsToLink(args, racks, cmp), targetDir);
    }
  }
}
