/** The file record every layer of the application passes around, and the way
    it writes a path below a directory. */
module Files {

  /** An entry of a directory listing: its base name, its full path, and whether
      it is a directory or a regular file (an entry can be neither). */
  datatype FileEntry = FileEntry(name: string, path: string, isDirectory: bool, isFile: bool)

  /** `${dir}/${name}`, and `path.join` where the parts need no normalisation. */
  function JoinPath(dir: string, name: string): string {
    dir + "/" + name
  }
}
