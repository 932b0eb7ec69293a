/**
  The service-name grammar: a letter, then one or more letters, digits or hyphens
  (the regular expression ^[a-zA-Z][0-9a-zA-Z-]+$). Underscores are not allowed.
 */
module Names {

  predicate IsLetter(c: char) {
    'a' <= c <= 'z' || 'A' <= c <= 'Z'
  }

  predicate IsDigit(c: char) {
    '0' <= c <= '9'
  }

  /** A character of the class [0-9a-zA-Z-]. */
  predicate IsNameChar(c: char) {
    IsLetter(c) || IsDigit(c) || c == '-'
  }

  /** The grammar, stated declaratively over character positions. */
  ghost predicate ValidName(s: string) {
    |s| >= 2 && IsLetter(s[0]) && forall i :: 1 <= i < |s| ==> IsNameChar(s[i])
  }

  /** Matches [0-9a-zA-Z-]* one character at a time. */
  function MatchesNameChars(s: string): (b: bool)
    ensures b <==> forall i :: 0 <= i < |s| ==> IsNameChar(s[i])
  {
    if s == [] then true
    else IsNameChar(s[0]) && MatchesNameChars(s[1..])
  }

  /** The matcher the validator runs on a name; it accepts exactly the grammar. */
  function MatchesName(s: string): (b: bool)
    ensures b <==> ValidName(s)
  {
    |s| >= 2 && IsLetter(s[0]) && MatchesNameChars(s[1..])
  }

  /** A name containing an underscore is rejected, wherever the underscore is. */
  lemma UnderscoreRejected(s: string, k: nat)
    requires k < |s| && s[k] == '_'
    ensures !MatchesName(s)
  {
  }

  /** A name that starts with a digit or a hyphen is rejected. */
  lemma LeadingNonLetterRejected(s: string)
    requires |s| > 0 && !IsLetter(s[0])
    ensures !MatchesName(s)
  {
  }

  /** Hyphens may appear anywhere after the first character. */
  lemma HyphensAccepted(s: string)
    requires |s| >= 2 && IsLetter(s[0])
    requires forall i :: 1 <= i < |s| ==> IsLetter(s[i]) || s[i] == '-'
    ensures MatchesName(s)
  {
  }
}
