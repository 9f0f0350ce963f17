/** The files and folders of a disk by path. */
module Disks {
  import opened Wrappers
  import opened Postcard

  /** Names from the root of the disk. */
  type Path = seq<Bytes>

  datatype Item = FileItem(data: Bytes) | DirItem

  type Disk = map<Path, Item>

  function Look(d: Disk, p: Path): Option<Item> {
    if p in d then Some(d[p]) else None
  }

  function Parent(p: Path): Path
    requires p != []
  {
    p[..|p| - 1]
  }

  predicate IsDir(d: Disk, p: Path) {
    p in d && d[p].DirItem?
  }

  /** Makes a folder and the folders above it; fails if a file is in the way. */
  function CreateDirs(d: Disk, p: Path): Option<Disk>
    decreases |p|
  {
    if p in d then (if d[p].DirItem? then Some(d) else None)
    else if p == [] then Some(d[p := DirItem])
    else
      match CreateDirs(d, Parent(p))
      case None => None
      case Some(e) => Some(e[p := DirItem])
  }
}
