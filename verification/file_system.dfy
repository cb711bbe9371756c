/** The scripts' view of the file system. */
module FileSystem {
  import opened Wrappers

  /** The text of each file, by path, or `None` where `open` raises. */
  type Reader = string -> Option<string>
}
