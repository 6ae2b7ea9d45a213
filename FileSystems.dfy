/** An abstract file system as the up-to-date check sees it: every path is
    absent, a regular file with a content fingerprint, or a directory.
    The fingerprint is an opaque value; which digest produces it is not
    modelled. */
module FileSystems {

  type Path = string

  /** Opaque content fingerprint of a regular file. */
  type Fingerprint = nat

  /** What a present path holds. A path not in the map is absent. */
  datatype Node = File(fingerprint: Fingerprint) | Dir

  type FileSystem = map<Path, Node>

  /** The snapshot of one path: its existence kind and, for a regular file
      only, its fingerprint. Directories carry no fingerprint. */
  datatype Snapshot = Missing | RegularFile(fingerprint: Fingerprint) | Directory

  function SnapshotOf(fs: FileSystem, p: Path): Snapshot
  {
    if p !in fs then Missing
    else match fs[p]
      case File(f) => RegularFile(f)
      case Dir => Directory
  }

  /** Deleting a path: it becomes absent, every other path keeps its snapshot. */
  function Delete(fs: FileSystem, p: Path): (r: FileSystem)
    ensures SnapshotOf(r, p) == Missing
    ensures forall q :: q != p ==> SnapshotOf(r, q) == SnapshotOf(fs, q)
  {
    fs - {p}
  }

  /** Creating a directory at a path: it becomes a directory, every other
      path keeps its snapshot. */
  function CreateDir(fs: FileSystem, p: Path): (r: FileSystem)
    ensures SnapshotOf(r, p) == Directory
    ensures forall q :: q != p ==> SnapshotOf(r, q) == SnapshotOf(fs, q)
  {
    fs[p := Dir]
  }

  /** Writing new content to a path: it becomes a regular file with the new
      content's fingerprint, every other path keeps its snapshot. */
  function Write(fs: FileSystem, p: Path, fingerprint: Fingerprint): (r: FileSystem)
    ensures SnapshotOf(r, p) == RegularFile(fingerprint)
    ensures forall q :: q != p ==> SnapshotOf(r, q) == SnapshotOf(fs, q)
  {
    fs[p := File(fingerprint)]
  }
}
