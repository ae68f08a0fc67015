/** File system paths, as the watchers use them: for equality, and for the name of the file. */
module Paths {
  datatype Path = Path(directory: string, name: string)

  predicate EndsWith(s: string, suffix: string) {
    |suffix| <= |s| && s[|s| - |suffix|..] == suffix
  }
}
