/** macOS release numbers as Homebrew compares them (`MacOS.version < :lion`):
    a (major, minor) pair ordered component by component. */
module MacOSVersion {

  datatype Version = Version(major: nat, minor: nat)

  /** Lexicographic order on (major, minor). */
  predicate Less(a: Version, b: Version) {
    a.major < b.major || (a.major == b.major && a.minor < b.minor)
  }

  /** OS X 10.7 "Lion", the first release shipping OpenCL 1.1. */
  const Lion := Version(10, 7)

  predicate BelowLion(v: Version) {
    Less(v, Lion)
  }

  /** Less is a strict total order, so "below Lion" is well defined. */
  lemma LessIsStrictTotalOrder(a: Version, b: Version, c: Version)
    ensures !Less(a, a)
    ensures Less(a, b) && Less(b, c) ==> Less(a, c)
    ensures a != b ==> Less(a, b) || Less(b, a)
    ensures Less(a, b) ==> !Less(b, a)
  {
  }

  /** Components compare as numbers, not as text: 10.10 is above 10.7 and
      10.6 (Snow Leopard) is below it. */
  lemma BelowLionExamples()
    ensures BelowLion(Version(10, 6)) && BelowLion(Version(10, 5))
    ensures !BelowLion(Version(10, 7)) && !BelowLion(Version(10, 10)) && !BelowLion(Version(11, 0))
  {
  }
}
