/** Two places where the command as written does not do what it evidently
    means to, each shown on the as-written variant; the intended variant's
    properties are proved in `Properties`. */
module Findings {
  import opened Wrappers
  import opened Files
  import opened Selection
  import opened Publish
  import opened Properties

  /** As written, the collision check looks at `{HOMEBREW_APPLINKS}/<name>`
      (the interpolation lacks its `#`), so a plain file at the real link
      path is not seen and `ln -sf` replaces it with a symbolic link. */
  lemma LiteralCheckReplacesFile(w: World, cfg: Config, targetDir: Path, app: App)
    requires cfg.variant == AsWritten
    requires LinkPath(cfg, app.basename) in w.fs && w.fs[LinkPath(cfg, app.basename)] == Regular
    requires Join(LiteralApplinks, app.basename) !in w.fs
    requires cfg.env.lnSucceeds(app.path)
    ensures var after := Step(w, cfg, targetDir, app).fs;
            after[LinkPath(cfg, app.basename)] == Symlink(app.path)
    ensures !NeverOverwrites(w.fs, Step(w, cfg, targetDir, app).fs)
  {
  }

  /** One such input: a plain file `Foo.app` already in the applinks
      directory, and `ln` working. */
  lemma LiteralCheckExample()
    ensures var cfg := Config("/usr/local/Applinks", AsWritten,
                              Env(p => true, p => "alias file\n", n => true, true));
            var app := App("/usr/local/Cellar/foo/1.0/Foo.app", "Foo.app");
            var fs := map["/Applications" := Dir, "/usr/local/Applinks" := Dir,
                          "/usr/local/Applinks/Foo.app" := Regular];
            Step(World(fs, []), cfg, "/Applications", app).fs["/usr/local/Applinks/Foo.app"]
              == Symlink("/usr/local/Cellar/foo/1.0/Foo.app")
  {
    var cfg := Config("/usr/local/Applinks", AsWritten, Env(p => true, p => "alias file\n", n => true, true));
    var app := App("/usr/local/Cellar/foo/1.0/Foo.app", "Foo.app");
    var fs := map["/Applications" := Dir, "/usr/local/Applinks" := Dir,
                  "/usr/local/Applinks/Foo.app" := Regular];
    assert LinkPath(cfg, app.basename) == "/usr/local/Applinks/Foo.app";
    assert Join(LiteralApplinks, app.basename) == "{HOMEBREW_APPLINKS}/Foo.app";
    assert Join(LiteralApplinks, app.basename) !in fs;
    LiteralCheckReplacesFile(World(fs, []), cfg, "/Applications", app);
  }

  /** As written, a rack with no kegs makes `map` yield `nil` (the `next`),
      and the loop then calls `apps` on it: the run stops there, and no rack
      after it is published. */
  lemma EmptyRackStopsRun<V>(w: World, cfg: Config, local: bool, home: Path,
                             racks: seq<seq<Keg<V>>>, cmp: (V, V) -> int, i: nat)
    requires cfg.variant == AsWritten
    requires Exists(w.fs, TargetDir(local, home))
    requires Exists(w.fs, cfg.applinks) || (cfg.applinks !in w.fs && cfg.env.mkdirSucceeds)
    requires i < |racks| && racks[i] == []
    ensures Linkapps(w, cfg, local, home, NoNames, racks, cmp).status == NilKeg
  {
    var fs := ApplinksReady(w.fs, cfg).value;
    var kegs := KegsToLink(NoNames, racks, cmp);
    assert kegs[i] == None;
    RunKegsCrashesIffNil(World(fs, w.log), cfg, TargetDir(local, home), kegs);
  }
}
