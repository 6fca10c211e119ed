/** The local filesystem as the modelled code sees it: a set of existing
    directories and a map from regular-file paths to their bytes. */
module FileSystem {

  newtype byte = x: int | 0 <= x < 256

  class Disk {
    var dirs: set<string>
    var files: map<string, seq<byte>>

    constructor (dirs: set<string>, files: map<string, seq<byte>>)
      ensures this.dirs == dirs && this.files == files
    {
      this.dirs := dirs;
      this.files := files;
    }

    /** `os.path.isdir(p)` */
    predicate IsDir(p: string)
      reads this
    {
      p in dirs
    }

    /** `os.path.isfile(p)` */
    predicate IsFile(p: string)
      reads this
    {
      p in files
    }

    /** `os.mkdir(p)` on a path that is not yet a directory. */
    method Mkdir(p: string)
      requires p !in dirs
      modifies this`dirs
      ensures dirs == old(dirs) + {p}
    {
      dirs := dirs + {p};
    }

    /** `open(p, "wb")` followed by writes totalling `content`, then close. */
    method WriteFile(p: string, content: seq<byte>)
      modifies this`files
      ensures files == old(files)[p := content]
    {
      files := files[p := content];
    }
  }
}
