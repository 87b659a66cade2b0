/** The abstract filesystem the command reads and changes. */
module Files {
  /** An absolute or relative path, as text. */
  type Path = seq<char>

  /** What a path holds: a directory, a symbolic link (and where it points),
      any other plain file, or a Finder alias file (and what it refers to). */
  datatype Entry = Dir | Symlink(target: Path) | Regular | AliasFile(original: Path)

  /** Path -> entry; nothing is at a path absent from the map. Paths are
      taken as canonical, and link targets as paths in the same map. */
  type FileSystem = map<Path, Entry>

  /** `File.exist?`: a directory or a file exists; a symbolic link exists
      only when what it points to does, so a link whose target is gone
      (a dangling link) does not. */
  predicate Exists(fs: FileSystem, p: Path) {
    p in fs && (fs[p].Symlink? ==> fs[p].target in fs)
  }

  /** `"#{dir}/#{name}"` */
  function Join(dir: Path, name: string): (p: Path)
    ensures |p| == |dir| + 1 + |name|
    ensures p[..|dir|] == dir && p[|dir|] == '/' && p[|dir| + 1..] == name
  {
    dir + "/" + name
  }
}
