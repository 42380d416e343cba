/**
 * VSCHAR syntax (OAuth 2.1 draft, Appendix A): every character lies in the
 * printable ASCII range %x20-7E.  The framework's check scans the value from
 * the left and stops at the first character outside the range.
 */
module VsChar {

  const VsCharMin: char := '\U{0020}'
  const VsCharMax: char := '\U{007E}'

  predicate InRange(c: char)
  {
    VsCharMin <= c <= VsCharMax
  }

  /** The value consists of VSCHAR characters only (the empty value included). */
  predicate IsVsChar(s: string)
  {
    forall i | 0 <= i < |s| :: InRange(s[i])
  }

  /** Index of the first character outside the range, or `|s|` when there is none. */
  function FirstInvalid(s: string): (k: nat)
    ensures k <= |s|
    ensures IsVsChar(s[..k])
    ensures k < |s| ==> !InRange(s[k])
  {
    if |s| == 0 then 0
    else if !InRange(s[0]) then 0
    else
      var k := 1 + FirstInvalid(s[1..]);
      assert forall i | 1 <= i < k :: s[..k][i] == s[1..][..k - 1][i - 1];
      k
  }

  /**
   * `VsCharSyntaxValidator.IsValid`: the left-to-right scan.  `inspected` counts
   * the characters the scan looked at; a rejection stops right after the first
   * offending character.
   */
  method IsValid(value: string) returns (valid: bool, ghost inspected: nat)
    ensures valid <==> IsVsChar(value)
    ensures inspected == if valid then |value| else FirstInvalid(value) + 1
  {
    inspected := 0;
    for i := 0 to |value|
      invariant inspected == i
      invariant IsVsChar(value[..i])
    {
      inspected := i + 1;
      if !InRange(value[i]) {
        FirstInvalidIsFirst(value, i);
        return false, inspected;
      }
      assert value[..i + 1] == value[..i] + [value[i]];
    }
    assert value[..|value|] == value;
    return true, inspected;
  }

  /** The first offending character of a value whose prefix is clean is the scan's stopping point. */
  lemma FirstInvalidIsFirst(s: string, i: nat)
    requires i < |s| && IsVsChar(s[..i]) && !InRange(s[i])
    ensures FirstInvalid(s) == i
  {
  }

  /** A concatenation is valid exactly when both halves are. */
  lemma ConcatValid(a: string, b: string)
    ensures IsVsChar(a + b) <==> IsVsChar(a) && IsVsChar(b)
  {
    if IsVsChar(a + b) {
      assert forall i | 0 <= i < |a| :: a[i] == (a + b)[i];
      assert forall i | 0 <= i < |b| :: b[i] == (a + b)[|a| + i];
    }
  }

  /** Every prefix of a valid value is valid. */
  lemma PrefixValid(s: string, k: nat)
    requires IsVsChar(s) && k <= |s|
    ensures IsVsChar(s[..k])
  {
    assert s == s[..k] + s[k..];
    ConcatValid(s[..k], s[k..]);
  }

  /** The range is exactly %x20-7E: both ends accepted, their neighbours and the control characters rejected. */
  lemma RangeBoundaries()
    ensures IsVsChar("") && IsVsChar(" ") && IsVsChar("~")
    ensures !IsVsChar("\U{001F}") && !IsVsChar("\U{007F}")
    ensures !IsVsChar("\t") && !IsVsChar("\r") && !IsVsChar("\n")
    ensures !IsVsChar("\U{00E9}")
  {
    assert "\U{001F}"[0] == '\U{001F}';
    assert "\U{007F}"[0] == '\U{007F}';
    assert "\t"[0] == '\t';
    assert "\r"[0] == '\r';
    assert "\n"[0] == '\n';
    assert "\U{00E9}"[0] == '\U{00E9}';
  }

  /** Any value holding a character above %x7E (any non-ASCII character) is rejected. */
  lemma NonAsciiRejected(s: string, i: nat)
    requires i < |s| && s[i] > VsCharMax
    ensures !IsVsChar(s)
  {
  }
}
