/**
 * The working tree the Dockerfile generators read and write: a map from a
 * file path to its text. Directories are not modelled; `os.makedirs` has no
 * counterpart.
 */
module FileSystem {
  class Tree {
    var files: map<string, string>

    constructor(initial: map<string, string>)
      ensures files == initial
    {
      files := initial;
    }

    /** `os.path.exists(path)` for a file. */
    predicate Exists(path: string)
      reads this
    {
      path in files
    }

    /** `open(path, "w").write(content)`: creates the file or replaces its text. */
    method Write(path: string, content: string)
      modifies this
      ensures files == old(files)[path := content]
    {
      files := files[path := content];
    }
  }
}
