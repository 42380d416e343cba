/**
 * The parameter syntax validators that delegate to the VSCHAR check:
 * `client_id` (OAuth 2.1 draft, Appendix A.1), `state` (Appendix A.5) and, in
 * the token endpoint, the authorization `code` (Appendix A.11).  The token
 * endpoint's `client_id` validator is the same rule as the authorize endpoint's.
 */
module SyntaxValidators {
  import opened VsChar

  /** `ClientIdSyntaxValidator.IsValid`. */
  predicate ClientIdIsValid(value: string)
  {
    IsVsChar(value)
  }

  /** `StateSyntaxValidator.IsValid`. */
  predicate StateIsValid(value: string)
  {
    IsVsChar(value)
  }

  /** `CodeSyntaxValidator.IsValid`. */
  predicate CodeIsValid(value: string)
  {
    IsVsChar(value)
  }

  /** Spaces are VSCHAR: state values made of space-separated valid words are valid. */
  lemma StateAcceptsSpaces(a: string, b: string)
    requires StateIsValid(a) && StateIsValid(b)
    ensures StateIsValid(a + " " + b)
  {
    ConcatValid(a, " ");
    ConcatValid(a + " ", b);
  }

  /** A client id holding a tab, CR, LF or any character above %x7E is rejected. */
  lemma ClientIdRejectsControlAndNonAscii(s: string, i: nat)
    requires i < |s| && (s[i] == '\t' || s[i] == '\r' || s[i] == '\n' || s[i] > '\U{007E}')
    ensures !ClientIdIsValid(s)
  {
  }

  /** Every prefix of a valid state is a valid state. */
  lemma StatePrefixClosed(s: string, k: nat)
    requires StateIsValid(s) && k <= |s|
    ensures StateIsValid(s[..k])
  {
    PrefixValid(s, k);
  }

  /** Two valid codes concatenated form a valid code; the empty code is valid too. */
  lemma CodeClosedUnderConcatenation(a: string, b: string)
    requires CodeIsValid(a) && CodeIsValid(b)
    ensures CodeIsValid(a + b)
    ensures CodeIsValid("")
  {
    ConcatValid(a, b);
  }

  /** A code holding a control character below %x20 or DEL is rejected. */
  lemma CodeRejectsControlAndDelete(s: string, i: nat)
    requires i < |s| && (s[i] < '\U{0020}' || s[i] == '\U{007F}')
    ensures !CodeIsValid(s)
  {
  }
}
