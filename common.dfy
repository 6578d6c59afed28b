/** Small shared vocabulary: optional values, file descriptors and string prefixes. */
module Common {

  /** Layer identity: the millisecond timestamp (`Date.now()`) at creation. */
  type Id = nat

  /** A value that may be absent; stands for the source's `T | null`. */
  datatype Option<+T> = None | Some(value: T)

  /** What the editor and the app screen read from a browser `File`: its MIME type and size in bytes. */
  datatype FileInfo = FileInfo(name: string, mimeType: string, size: nat)

  /** `s.startsWith(prefix)`. */
  predicate StartsWith(s: string, prefix: string) {
    |prefix| <= |s| && s[..|prefix|] == prefix
  }

  /** The MIME-type test both upload paths apply: the type starts with "image/". */
  predicate IsImageType(f: FileInfo) {
    StartsWith(f.mimeType, "image/")
  }
}
