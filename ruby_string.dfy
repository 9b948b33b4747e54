/** The two Ruby string operations that `install` applies to the output of
    the Python probes: `String#chomp` and the inclusive range slice `s[0..hi]`. */
module RubyString {

  /** True when `s` ends with a carriage return. */
  predicate EndsWithCR(s: string) {
    |s| > 0 && s[|s| - 1] == '\r'
  }

  predicate IsLineBreak(c: char) {
    c == '\n' || c == '\r'
  }

  /** `String#chomp` with the default record separator: removes one trailing
      "\r\n", "\n" or "\r", and nothing else. */
  function Chomp(s: string): (r: string)
    ensures r <= s && |s| - 2 <= |r|
    ensures |r| == |s| <==> |s| == 0 || !IsLineBreak(s[|s| - 1])
    ensures |r| == |s| - 1 ==> IsLineBreak(s[|s| - 1]) && !(|s| > 1 && s[|s| - 2] == '\r' && s[|s| - 1] == '\n')
    ensures |r| == |s| - 2 <==> |s| > 1 && s[|s| - 2] == '\r' && s[|s| - 1] == '\n'
  {
    if |s| >= 2 && s[|s| - 2] == '\r' && s[|s| - 1] == '\n' then s[..|s| - 2]
    else if |s| >= 1 && IsLineBreak(s[|s| - 1]) then s[..|s| - 1]
    else s
  }

  /** `%x(cmd).chomp` gives back the text a command printed on one line:
      chomp undoes the newline the command wrote, unless that text itself
      ends with a carriage return (which then goes with it). */
  lemma ChompAppendedNewline(s: string)
    ensures !EndsWithCR(s) ==> Chomp(s + "\n") == s
    ensures EndsWithCR(s) ==> Chomp(s + "\n") == s[..|s| - 1]
  {
    var t := s + "\n";
    assert t[..|s|] == s;
    if EndsWithCR(s) {
      assert t[..|t| - 2] == s[..|s| - 1];
    }
  }

  /** Ruby's `s[0..hi]`: the range is inclusive, so it takes the first
      `hi + 1` characters, or the whole string when it is shorter. */
  function SliceTo(s: string, hi: nat): (r: string)
    ensures r <= s
    ensures |r| == if hi < |s| then hi + 1 else |s|
  {
    if hi < |s| then s[..hi + 1] else s
  }

  predicate IsDigit(c: char) {
    '0' <= c <= '9'
  }

  /** `sys.version` starts with "major.minor.micro"; when major and minor are
      one digit each, `s[0..2]` is exactly "major.minor" (for a two-digit
      minor such as "3.10" it would stop at "3.1"). */
  lemma SliceMajorMinor(s: string, rest: string, major: char, minor: char)
    requires IsDigit(major) && IsDigit(minor)
    requires s == [major, '.', minor] + rest
    requires rest == [] || !IsDigit(rest[0])
    ensures SliceTo(s, 2) == [major, '.', minor]
  {
    assert s[..3] == [major, '.', minor];
  }

  /** The two-digit-minor case: the slice cuts the minor version short. */
  lemma SliceTwoDigitMinor()
    ensures SliceTo("3.10.4", 2) == "3.1"
  {
  }
}
