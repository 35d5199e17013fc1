// Display names derived from an e-mail address: the part before the `@`,
// split on `.`, `_` and `-`, each piece capitalised, joined with spaces.
module NameFormat {
  import opened Strings

  const NAME_SEPARATORS: set<char> := {'.', '_', '-'}

  /** `email.split('@')[0]`: everything before the first `@`. */
  function LocalPart(email: string): (r: string)
    ensures r <= email && '@' !in r
    ensures |r| < |email| ==> email[|r|] == '@'
  {
    var pieces := Split(email, {'@'});
    SplitFirstIsPrefix(email, {'@'});
    pieces[0]
  }

  /** The first piece of a split is the prefix of `s` before its first separator. */
  lemma {:induction false} SplitFirstIsPrefix(s: string, seps: set<char>)
    ensures Split(s, seps)[0] <= s
    ensures |Split(s, seps)[0]| < |s| ==> s[|Split(s, seps)[0]|] in seps
  {
    if s != [] && s[0] !in seps {
      SplitFirstIsPrefix(s[1..], seps);
    }
  }

  /**
   * `formatUserName(email)`: `'User'` for an empty address; otherwise the
   * part before the `@` with every separator turned into a space and the
   * first letter of every piece upper-cased, one character per character.
   */
  function FormatUserName(email: string): (r: string)
    ensures email == "" ==> r == "User"
    ensures email != "" ==> r == SpacedName(LocalPart(email), NAME_SEPARATORS, true)
    ensures email != "" ==> |r| == |LocalPart(email)|
  {
    if email == "" then "User"
    else TitleCase(LocalPart(email), NAME_SEPARATORS)
  }

  /** A display name of a non-empty address contains no separator. */
  lemma DisplayNameHasNoSeparators(email: string)
    requires email != ""
    ensures forall k :: 0 <= k < |FormatUserName(email)| ==> FormatUserName(email)[k] !in NAME_SEPARATORS
  {
    SpacedNameHasNoSeparators(LocalPart(email), true);
  }

  lemma {:induction false} SpacedNameHasNoSeparators(s: string, atStart: bool)
    ensures forall k :: 0 <= k < |s| ==> SpacedName(s, NAME_SEPARATORS, atStart)[k] !in NAME_SEPARATORS
  {
    if s != [] {
      SpacedNameHasNoSeparators(s[1..], s[0] in NAME_SEPARATORS);
      var r := SpacedName(s, NAME_SEPARATORS, atStart);
      assert forall k :: 1 <= k < |s| ==> r[k] == SpacedName(s[1..], NAME_SEPARATORS, s[0] in NAME_SEPARATORS)[k - 1];
    }
  }
}
