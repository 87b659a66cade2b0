/** What one run of `brew linkapps` does to the filesystem and what it
    reports, as functions of the state before the run. The external
    programs it calls (`ln`, `mkdir -p`, `osascript`) are given by `Env`. */
module Publish {
  import opened Wrappers
  import opened Files
  import opened Selection

  /** `AsWritten` follows the command line for line; `Intended` checks the
      link path `ln` actually writes and skips racks without a keg. */
  datatype Variant = AsWritten | Intended

  /** The outcomes of the external programs, which this model does not see
      into: `ln -sf` for an app, what the `check_alias` script prints for
      an item (the Finder's class of it, with its line break), whether the
      Finder makes an alias named after a bundle when the name is free, and
      whether `mkdir -p` can make the applinks directory where nothing is. */
  datatype Env = Env(
    lnSucceeds: Path -> bool,
    classify: Path -> string,
    aliasSucceeds: string -> bool,
    mkdirSucceeds: bool)

  /** `applinks` is HOMEBREW_APPLINKS. */
  datatype Config = Config(applinks: Path, variant: Variant, env: Env)

  /** The lines the command prints, by kind. */
  datatype Event =
    | TargetMissing(dir: Path)               // "... does not exist, stopping."
    | Linking(app: Path)                     // "Linking <app> to <applinks>."
    | AlreadyExists(path: Path)              // "<path> already exists, skipping."
    | SymlinkFailed(path: Path)              // "Could not create symlink <path>, skipping."
    | CreatingAlias(app: Path)               // "Creating alias for <app> in <target>."
    | AliasAttempt(name: string, created: bool)  // the alias script ran; did it make one?

  datatype World = World(fs: FileSystem, log: seq<Event>)

  /** How the run ends: normally, `exit 1` for a missing target directory,
      the error raised by `check_applinks`, or the NoMethodError of `nil.apps`. */
  datatype Status = Completed | TargetDirMissing | ApplinksUnwritable | NilKeg

  datatype Outcome = Outcome(world: World, status: Status)

  const SystemApplications: Path := "/Applications"

  /** The literal text the source uses as the applinks directory when it
      builds the path it checks before linking. */
  const LiteralApplinks: Path := "{HOMEBREW_APPLINKS}"

  /** `/Applications`, or `~/Applications` with `--local`. */
  function TargetDir(local: bool, home: Path): (p: Path)
    ensures !local ==> p == SystemApplications
    ensures local ==> |p| == |home| + 13 && p[..|home|] == home && p[|home|..] == "/Applications"
    ensures local && home != [] ==> p != SystemApplications
  {
    assert Join(home, "Applications") == home + "/Applications";
    if local then Join(home, "Applications") else SystemApplications
  }

  /** Where `ln -sf <app> <applinks>` puts the link. */
  function LinkPath(cfg: Config, name: string): Path {
    Join(cfg.applinks, name)
  }

  /** `target_link`: the path tested for a collision before linking. As
      intended it is the path `ln` writes; as written it is that path only
      when the applinks directory happens to be named `{HOMEBREW_APPLINKS}`. */
  function CheckedLinkPath(cfg: Config, name: string): (p: Path)
    ensures cfg.variant == Intended ==> p == LinkPath(cfg, name)
    ensures cfg.variant == AsWritten ==> (p == LinkPath(cfg, name) <==> cfg.applinks == LiteralApplinks)
  {
    match cfg.variant
    case AsWritten => Join(LiteralApplinks, name)
    case Intended => LinkPath(cfg, name)
  }

  /** `target_alias` */
  function AliasPath(targetDir: Path, name: string): Path {
    Join(targetDir, name)
  }

  /** `File.exist?(p) && !File.symlink?(p)`: something other than a link,
      dangling or not, is at `p`. */
  predicate Occupied(fs: FileSystem, p: Path): (b: bool)
    ensures b <==> p in fs && !fs[p].Symlink?
  {
    Exists(fs, p) && !fs[p].Symlink?
  }

  /** `ln -sf` replaces a file or a link at the link path but cannot replace
      a directory; otherwise it succeeds as the environment says. */
  predicate LinkSucceeds(fs: FileSystem, cfg: Config, app: App): (b: bool)
    ensures b ==> cfg.env.lnSucceeds(app.path)
    ensures LinkPath(cfg, app.basename) in fs && fs[LinkPath(cfg, app.basename)] == Dir ==> !b
    ensures cfg.env.lnSucceeds(app.path) && LinkPath(cfg, app.basename) !in fs ==> b
    ensures var link := LinkPath(cfg, app.basename);
            (cfg.env.lnSucceeds(app.path) && link in fs && (fs[link] == Regular || fs[link].Symlink? || fs[link].AliasFile?)) ==> b
  {
    var link := LinkPath(cfg, app.basename);
    cfg.env.lnSucceeds(app.path) && !(link in fs && fs[link].Dir?)
  }

  /** Ruby's `String#chomp` with no argument: drops one trailing "\r\n",
      "\n" or "\r", if there is one. */
  function Chomp(s: string): (r: string)
    ensures r <= s
    ensures s[|r|..] in {"", "\n", "\r", "\r\n"}
    ensures r == s ==> s == [] || (s[|s| - 1] != '\n' && s[|s| - 1] != '\r')
    ensures |r| == |s| - 1 ==> r == [] || r[|r| - 1] != '\r' || s[|s| - 1] == '\r'
  {
    if |s| >= 2 && s[|s| - 2..] == "\r\n" then s[..|s| - 2]
    else if |s| >= 1 && (s[|s| - 1] == '\n' || s[|s| - 1] == '\r') then
      assert s[|s| - 1..] == [s[|s| - 1]];
      s[..|s| - 1]
    else
      assert s[|s|..] == "";
      s
  }

  /** `check_alias`: the item is accepted only when the script's output,
      chomped, is exactly "alias file". */
  predicate CheckAlias(env: Env, path: Path): (b: bool)
    ensures b <==> env.classify(path) in {"alias file", "alias file\n", "alias file\r", "alias file\r\n"}
  {
    ChompedAliasFile(env.classify(path));
    Chomp(env.classify(path)) == "alias file"
  }

  /** The outputs that chomp to "alias file". */
  lemma ChompedAliasFile(out: string)
    ensures Chomp(out) == "alias file" <==> out in {"alias file", "alias file\n", "alias file\r", "alias file\r\n"}
  {
    assert Chomp("alias file\n") == "alias file" && Chomp("alias file\r") == "alias file";
    assert Chomp("alias file\r\n") == "alias file" && Chomp("alias file") == "alias file";
    if Chomp(out) == "alias file" {
      var suffix := out[10..];
      assert out == "alias file" + suffix;
      assert suffix in {"", "\n", "\r", "\r\n"};
      assert "alias file" + "\n" == "alias file\n" && "alias file" + "\r" == "alias file\r";
      assert "alias file" + "\r\n" == "alias file\r\n" && "alias file" + "" == "alias file";
    }
  }

  /** `create_alias`: the Finder makes an alias named after the bundle in
      the target directory, referring to the bundle's link. The Finder does
      not replace an item of the same name, so where one is already there
      (a dangling link, which `File.exist?` does not see) nothing is made.
      The outcome is not looked at by the caller. */
  function CreateAlias(w: World, cfg: Config, targetDir: Path, name: string): (r: World)
    ensures var created := cfg.env.aliasSucceeds(name) && AliasPath(targetDir, name) !in w.fs;
            && r.log == w.log + [AliasAttempt(name, created)]
            && r.fs == if created then w.fs[AliasPath(targetDir, name) := AliasFile(LinkPath(cfg, name))] else w.fs
    ensures forall p :: p in w.fs ==> p in r.fs && r.fs[p] == w.fs[p]
  {
    var created := cfg.env.aliasSucceeds(name) && AliasPath(targetDir, name) !in w.fs;
    World(if created then w.fs[AliasPath(targetDir, name) := AliasFile(LinkPath(cfg, name))] else w.fs,
          w.log + [AliasAttempt(name, created)])
  }

  /** The body of `keg.apps.each`: announce, check the link path, link,
      check the alias path, then create the alias. Each failure ends the
      work on this app only. */
  function Step(w: World, cfg: Config, targetDir: Path, app: App): (r: World)
    ensures w.log + [Linking(app.path)] <= r.log
    ensures forall i :: |w.log| < i < |r.log| ==> !r.log[i].Linking?
    ensures w.fs.Keys <= r.fs.Keys
    ensures forall p :: p != LinkPath(cfg, app.basename) && p != AliasPath(targetDir, app.basename) ==>
              (p in r.fs <==> p in w.fs) && (p in w.fs ==> r.fs[p] == w.fs[p])
  {
    var logged := w.log + [Linking(app.path)];
    var targetLink := CheckedLinkPath(cfg, app.basename);
    if Occupied(w.fs, targetLink) then
      World(w.fs, logged + [AlreadyExists(targetLink)])
    else if !LinkSucceeds(w.fs, cfg, app) then
      World(w.fs, logged + [SymlinkFailed(targetLink)])
    else
      var linked := w.fs[LinkPath(cfg, app.basename) := Symlink(app.path)];
      var announced := logged + [CreatingAlias(app.path)];
      var targetAlias := AliasPath(targetDir, app.basename);
      if Exists(linked, targetAlias) then
        World(linked, if CheckAlias(cfg.env, targetAlias) then announced else announced + [AlreadyExists(targetAlias)])
      else
        CreateAlias(World(linked, announced), cfg, targetDir, app.basename)
  }

  /** `keg.apps.each { ... }` */
  function RunApps(w: World, cfg: Config, targetDir: Path, apps: seq<App>): (r: World)
    ensures w.fs.Keys <= r.fs.Keys
    ensures w.log <= r.log && |w.log| + |apps| <= |r.log|
    decreases |apps|
  {
    if apps == [] then w
    else RunApps(Step(w, cfg, targetDir, apps[0]), cfg, targetDir, apps[1..])
  }

  /** `kegs.each { |keg| keg.apps.each { ... } }`. A `nil` keg stops the run
      as written (calling `apps` on it raises) and is skipped as intended. */
  function RunKegs<V>(w: World, cfg: Config, targetDir: Path, kegs: seq<Option<Keg<V>>>): (r: Outcome)
    ensures r.status == Completed || r.status == NilKeg
    ensures r.status == NilKeg ==> cfg.variant == AsWritten
    ensures w.fs.Keys <= r.world.fs.Keys
    ensures w.log <= r.world.log
    decreases |kegs|
  {
    if kegs == [] then Outcome(w, Completed)
    else
      match kegs[0]
      case None =>
        if cfg.variant == AsWritten then Outcome(w, NilKeg)
        else RunKegs(w, cfg, targetDir, kegs[1..])
      case Some(keg) =>
        RunKegs(RunApps(w, cfg, targetDir, keg.apps), cfg, targetDir, kegs[1..])
  }

  /** `check_applinks`: the filesystem with the applinks directory present,
      or None when it is missing and `mkdir -p` raises. `mkdir -p` raises
      when it cannot make the directory, and also when a dangling link
      holds the name, since it then finds no directory there. */
  function ApplinksReady(fs: FileSystem, cfg: Config): (r: Option<FileSystem>)
    ensures r.Some? <==> Exists(fs, cfg.applinks) || (cfg.applinks !in fs && cfg.env.mkdirSucceeds)
    ensures r.Some? ==> Exists(r.value, cfg.applinks) && fs.Keys <= r.value.Keys
    ensures r.Some? ==> forall p :: p in fs ==> r.value[p] == fs[p]
    ensures r.Some? ==> forall p :: p in r.value && p != cfg.applinks ==> p in fs
  {
    if Exists(fs, cfg.applinks) then Some(fs)
    else if cfg.applinks !in fs && cfg.env.mkdirSucceeds then Some(fs[cfg.applinks := Dir])
    else None
  }

  /** `linkapps`: choose the target directory, stop if it is missing, make
      sure the applinks directory exists, choose the kegs, publish their apps. */
  function Linkapps<V>(w: World, cfg: Config, local: bool, home: Path,
                       args: KegArgs<V>, racks: seq<seq<Keg<V>>>, cmp: (V, V) -> int): (r: Outcome)
    ensures r.status == TargetDirMissing <==> !Exists(w.fs, TargetDir(local, home))
    ensures r.status == ApplinksUnwritable <==>
              && Exists(w.fs, TargetDir(local, home)) && !Exists(w.fs, cfg.applinks)
              && (cfg.applinks in w.fs || !cfg.env.mkdirSucceeds)
    ensures r.status == ApplinksUnwritable ==> r.world == w
    ensures r.status == NilKeg ==> cfg.variant == AsWritten
  {
    var targetDir := TargetDir(local, home);
    if !Exists(w.fs, targetDir) then
      Outcome(World(w.fs, w.log + [TargetMissing(targetDir)]), TargetDirMissing)
    else
      match ApplinksReady(w.fs, cfg)
      case None => Outcome(w, ApplinksUnwritable)
      case Some(fs) => RunKegs(World(fs, w.log), cfg, targetDir, KegsToLink(args, racks, cmp))
  }
}
