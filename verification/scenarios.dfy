/** Worked runs of the whole command on a small concrete installation. */
module Scenarios {
  import opened Wrappers
  import opened Files
  import opened Selection
  import opened Publish

  // One formula `foo` with its linked keg 1.2.0 holding `Foo.app`; every
  // external program works and the Finder calls every item an alias file.

  function ExampleConfig(variant: Variant): Config {
    Config("/usr/local/Applinks", variant, Env(p => true, p => "alias file\n", n => true, true))
  }

  const FooApp := App("/usr/local/Cellar/foo/1.2.0/Foo.app", "Foo.app")
  const FooKeg := Keg("/usr/local/Cellar/foo/1.2.0", 120, true, [FooApp])
  const FooLink: Path := "/usr/local/Applinks/Foo.app"
  const FooAlias: Path := "/Applications/Foo.app"

  /** The filesystem after a first run: the applinks directory, the link and the alias. */
  const Published: FileSystem :=
    map["/Applications" := Dir, "/usr/local/Applinks" := Dir,
        FooLink := Symlink(FooApp.path), FooAlias := AliasFile(FooLink)]

  lemma {:induction false} FirstStepPublishes(variant: Variant)
    ensures Step(World(map["/Applications" := Dir, "/usr/local/Applinks" := Dir], []),
                 ExampleConfig(variant), "/Applications", FooApp)
            == World(Published, [Linking(FooApp.path), CreatingAlias(FooApp.path), AliasAttempt("Foo.app", true)])
  {
    var cfg := ExampleConfig(variant);
    var fs := map["/Applications" := Dir, "/usr/local/Applinks" := Dir];
    assert LinkPath(cfg, "Foo.app") == FooLink;
    assert AliasPath("/Applications", "Foo.app") == FooAlias;
    assert Join(LiteralApplinks, "Foo.app") == "{HOMEBREW_APPLINKS}/Foo.app";
    assert CheckedLinkPath(cfg, "Foo.app") !in fs;
    assert fs[FooLink := Symlink(FooApp.path)][FooAlias := AliasFile(FooLink)] == Published;
  }

  lemma {:induction false} SecondStepChangesNothing(variant: Variant)
    ensures Step(World(Published, []), ExampleConfig(variant), "/Applications", FooApp)
            == World(Published, [Linking(FooApp.path), CreatingAlias(FooApp.path)])
  {
    var cfg := ExampleConfig(variant);
    assert LinkPath(cfg, "Foo.app") == FooLink;
    assert AliasPath("/Applications", "Foo.app") == FooAlias;
    assert Join(LiteralApplinks, "Foo.app") == "{HOMEBREW_APPLINKS}/Foo.app";
    assert !Occupied(Published, CheckedLinkPath(cfg, "Foo.app"));
    assert Published[FooLink := Symlink(FooApp.path)] == Published;
  }

  /** A link in `/Applications` left pointing at a keg that has since been
      removed: `File.exist?` does not see it, so the alias script runs, but
      the name is taken and the stale link stays. */
  lemma {:induction false} StaleAliasLinkStays(variant: Variant)
    ensures var stale := map["/Applications" := Dir, "/usr/local/Applinks" := Dir,
                             FooAlias := Symlink("/usr/local/Cellar/foo/1.0/Foo.app")];
            Step(World(stale, []), ExampleConfig(variant), "/Applications", FooApp)
            == World(stale[FooLink := Symlink(FooApp.path)],
                     [Linking(FooApp.path), CreatingAlias(FooApp.path), AliasAttempt("Foo.app", false)])
  {
    var cfg := ExampleConfig(variant);
    var stale := map["/Applications" := Dir, "/usr/local/Applinks" := Dir,
                     FooAlias := Symlink("/usr/local/Cellar/foo/1.0/Foo.app")];
    assert LinkPath(cfg, "Foo.app") == FooLink;
    assert AliasPath("/Applications", "Foo.app") == FooAlias;
    assert Join(LiteralApplinks, "Foo.app") == "{HOMEBREW_APPLINKS}/Foo.app";
    assert CheckedLinkPath(cfg, "Foo.app") !in stale;
    assert FooLink != FooAlias && "/usr/local/Cellar/foo/1.0/Foo.app" !in stale[FooLink := Symlink(FooApp.path)];
  }

  /** A first run makes the link and the alias and prints no error; a
      second run changes nothing on disk and prints no error either. */
  lemma FreshInstallThenRerun(variant: Variant)
    ensures
      var cmp := (a: int, b: int) => a - b;
      var first := Linkapps(World(map["/Applications" := Dir], []), ExampleConfig(variant),
                            false, "/Users/me", NoNames, [[FooKeg]], cmp);
      var second := Linkapps(World(first.world.fs, []), ExampleConfig(variant),
                             false, "/Users/me", NoNames, [[FooKeg]], cmp);
      && first.status == Completed
      && first.world == World(Published, [Linking(FooApp.path), CreatingAlias(FooApp.path), AliasAttempt("Foo.app", true)])
      && second.status == Completed
      && second.world == World(Published, [Linking(FooApp.path), CreatingAlias(FooApp.path)])
  {
    var cfg := ExampleConfig(variant);
    var cmp := (a: int, b: int) => a - b;
    assert TargetDir(false, "/Users/me") == "/Applications";
    assert FirstLinked([FooKeg]) == Some(FooKeg);
    var kegs := KegsToLink(NoNames, [[FooKeg]], cmp);
    assert kegs == [Some(FooKeg)];
    var fs1 := map["/Applications" := Dir, "/usr/local/Applinks" := Dir];
    assert map["/Applications" := Dir]["/usr/local/Applinks" := Dir] == fs1;
    var target := "/Applications";
    assert ApplinksReady(map["/Applications" := Dir], cfg) == Some(fs1);
    var once := World(Published, [Linking(FooApp.path), CreatingAlias(FooApp.path), AliasAttempt("Foo.app", true)]);
    FirstStepPublishes(variant);
    assert RunApps(World(fs1, []), cfg, target, FooKeg.apps) == once by {
      assert FooKeg.apps[1..] == [];
    }
    assert RunKegs(World(fs1, []), cfg, target, kegs) == Outcome(once, Completed) by {
      assert RunKegs(World(fs1, []), cfg, target, kegs) == RunKegs(once, cfg, target, kegs[1..]);
      assert kegs[1..] == [];
    }
    assert target in Published && ApplinksReady(Published, cfg) == Some(Published);
    var twice := World(Published, [Linking(FooApp.path), CreatingAlias(FooApp.path)]);
    SecondStepChangesNothing(variant);
    assert RunApps(World(Published, []), cfg, target, FooKeg.apps) == twice by {
      assert FooKeg.apps[1..] == [];
    }
    assert RunKegs(World(Published, []), cfg, target, kegs) == Outcome(twice, Completed) by {
      assert RunKegs(World(Published, []), cfg, target, kegs) == RunKegs(twice, cfg, target, kegs[1..]);
      assert kegs[1..] == [];
    }
  }
}
