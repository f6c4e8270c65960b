/**
 * An abstract file system. A path is either an opaque absolute path or a name
 * joined onto a parent path (Path.Combine), so joining is injective: two joins
 * give the same path only when their parents and names agree.
 */
module Paths {

  datatype Path = Root(name: string) | Join(parent: Path, name: string)

  /** The directories and files that exist at the moment an operation runs. */
  datatype FileSystem = FileSystem(directories: set<Path>, files: set<Path>)
}
