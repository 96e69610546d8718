/**
 * Operating systems and versions, and the `#if os(...)` / `#available(...)`
 * checks that the Swift code evaluates at compile time and at run time.
 */
module Platforms {

  datatype OS = IOS | MacOS | TvOS | WatchOS | XrOS

  datatype Version = Version(major: nat, minor: nat)

  datatype Platform = Platform(os: OS, version: Version)

  predicate AtLeast(v: Version, min: Version) {
    v.major > min.major || (v.major == min.major && v.minor >= min.minor)
  }

  /**
   * `#available(iOS a, macOS b, ..., *)`: the listed OSes need their minimum
   * version; every other OS passes through the trailing `*`.
   */
  predicate Available(minimums: map<OS, Version>, p: Platform) {
    p.os in minimums ==> AtLeast(p.version, minimums[p.os])
  }
}
