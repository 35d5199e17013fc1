// The JavaScript string operations the console relies on (`trim`,
// `toLowerCase`, `includes`, `split`/`join`, `parseInt`, `Number#toString`),
// restricted to ASCII.
module Strings {
  import opened Wrappers

  predicate IsDigit(c: char) { '0' <= c <= '9' }

  /** The ASCII characters JavaScript's `trim` and the regex class `\s` treat as white space. */
  predicate IsSpace(c: char) {
    c == ' ' || c == '\t' || c == '\n' || c == '\r' || c == '\U{000B}' || c == '\U{000C}'
  }

  function ToUpperChar(c: char): char {
    if 'a' <= c <= 'z' then (c as int - 32) as char else c
  }

  function ToLowerChar(c: char): char {
    if 'A' <= c <= 'Z' then (c as int + 32) as char else c
  }

  /** `s.toLowerCase()` */
  function Lower(s: string): (r: string)
    ensures |r| == |s|
    ensures forall i :: 0 <= i < |s| ==> r[i] == ToLowerChar(s[i])
  {
    if s == [] then [] else [ToLowerChar(s[0])] + Lower(s[1..])
  }

  /** A string lowers to `t` when each of its characters lowers to the character of `t` at the same place. */
  lemma LowerIs(s: string, t: string)
    requires |s| == |t| && forall i :: 0 <= i < |s| ==> ToLowerChar(s[i]) == t[i]
    ensures Lower(s) == t
  {
  }

  /** `w.charAt(0).toUpperCase() + w.slice(1)` */
  function Capitalize(w: string): (r: string)
    ensures |r| == |w|
    ensures w != [] ==> r[0] == ToUpperChar(w[0]) && r[1..] == w[1..]
  {
    if w == [] then [] else [ToUpperChar(w[0])] + w[1..]
  }

  /** `s.trimStart()`: the longest suffix of `s` that does not start with white space. */
  function TrimStart(s: string): (r: string)
    ensures |r| <= |s| && r == s[|s| - |r|..]
    ensures r == [] || !IsSpace(r[0])
    ensures forall k :: 0 <= k < |s| - |r| ==> IsSpace(s[k])
  {
    if s != [] && IsSpace(s[0]) then TrimStart(s[1..]) else s
  }

  /** `s.trimEnd()`: the longest prefix of `s` that does not end with white space. */
  function TrimEnd(s: string): (r: string)
    ensures |r| <= |s| && r == s[..|r|]
    ensures r == [] || !IsSpace(r[|r| - 1])
    ensures forall k :: |r| <= k < |s| ==> IsSpace(s[k])
  {
    if s != [] && IsSpace(s[|s| - 1]) then TrimEnd(s[..|s| - 1]) else s
  }

  /** `s.trim()` */
  function Trim(s: string): (r: string) {
    TrimEnd(TrimStart(s))
  }

  /** A string that neither starts nor ends with white space trims to itself. */
  lemma TrimUnchanged(s: string)
    requires s == [] || (!IsSpace(s[0]) && !IsSpace(s[|s| - 1]))
    ensures Trim(s) == s
  {
    assert TrimStart(s) == s;
  }

  /** `!s.trim()`: the string is empty or white space only. */
  predicate IsBlank(s: string) {
    forall k :: 0 <= k < |s| ==> IsSpace(s[k])
  }

  /** Blank strings are exactly those that trim to nothing. */
  lemma BlankIffTrimEmpty(s: string)
    ensures IsBlank(s) <==> Trim(s) == []
  {
    var t := TrimStart(s);
    if IsBlank(s) {
      assert t == [];
    }
    if Trim(s) == [] {
      assert t == [];
    }
  }

  /** `s.includes(t)` */
  predicate Contains(s: string, t: string) {
    t <= s || (s != [] && Contains(s[1..], t))
  }

  /** Whatever `s` includes, `s` has every character of it. */
  lemma {:induction false} ContainsHasChars(s: string, t: string, c: char)
    requires Contains(s, t) && c in t
    ensures c in s
  {
    if t <= s {
      var k :| 0 <= k < |t| && t[k] == c;
      assert s[k] == c;
    } else {
      ContainsHasChars(s[1..], t, c);
    }
  }

  /** The number of characters of `s` that belong to `seps`. */
  function CountIn(s: string, seps: set<char>): nat {
    if s == [] then 0 else (if s[0] in seps then 1 else 0) + CountIn(s[1..], seps)
  }

  /**
   * `s.split(/[...]/)` for a set of one-character separators: the pieces
   * between separators, empty pieces included, so there is always one piece
   * more than there are separators.
   */
  function Split(s: string, seps: set<char>): (r: seq<string>)
    ensures |r| == CountIn(s, seps) + 1
    ensures forall i :: 0 <= i < |r| ==> forall c :: c in r[i] ==> c !in seps
  {
    if s == [] then [[]]
    else if s[0] in seps then [[]] + Split(s[1..], seps)
    else
      var rest := Split(s[1..], seps);
      [[s[0]] + rest[0]] + rest[1..]
  }

  /** `words.join(sep)` */
  function Join(words: seq<string>, sep: string): string {
    if |words| == 0 then []
    else if |words| == 1 then words[0]
    else words[0] + sep + Join(words[1..], sep)
  }

  /** `parts.map(w => w.charAt(0).toUpperCase() + w.slice(1))` */
  function CapitalizeAll(parts: seq<string>): (r: seq<string>)
    ensures |r| == |parts|
    ensures forall i :: 0 <= i < |parts| ==> r[i] == Capitalize(parts[i])
  {
    if parts == [] then [] else [Capitalize(parts[0])] + CapitalizeAll(parts[1..])
  }

  /**
   * Split on `seps`, capitalise every piece and join with spaces: the
   * result is the character-by-character rule `SpacedName`, so it is as
   * long as `s`.
   */
  function TitleCase(s: string, seps: set<char>): (r: string)
    ensures r == SpacedName(s, seps, true)
    ensures |r| == |s|
  {
    TitleCaseMatchesSpacedName(s, seps);
    Join(CapitalizeAll(Split(s, seps)), " ")
  }

  /**
   * An independent character-by-character reading of split-capitalise-join:
   * each separator becomes a space, a character that opens a piece is
   * upper-cased, every other character is kept.
   */
  function SpacedName(s: string, seps: set<char>, atStart: bool): (r: string)
    ensures |r| == |s|
  {
    if s == [] then []
    else if s[0] in seps then [' '] + SpacedName(s[1..], seps, true)
    else [if atStart then ToUpperChar(s[0]) else s[0]] + SpacedName(s[1..], seps, false)
  }

  lemma JoinFirstCons(c: char, w: string, rest: seq<string>, sep: string)
    ensures Join([[c] + w] + rest, sep) == [c] + Join([w] + rest, sep)
  {
    if rest != [] {
      assert ([[c] + w] + rest)[1..] == rest == ([w] + rest)[1..];
    }
  }

  /** Joining the pieces of a split on one character with that character gives the string back. */
  lemma {:induction false} JoinSplit(s: string, c: char)
    ensures Join(Split(s, {c}), [c]) == s
  {
    if s != [] {
      var rest := Split(s[1..], {c});
      JoinSplit(s[1..], c);
      if s[0] == c {
        assert Split(s, {c}) == [[]] + rest;
        assert ([[]] + rest)[1..] == rest;
        assert s == [c] + s[1..];
      } else {
        assert Split(s, {c}) == [[s[0]] + rest[0]] + rest[1..];
        JoinFirstCons(s[0], rest[0], rest[1..], [c]);
        assert [rest[0]] + rest[1..] == rest;
        assert s == [s[0]] + s[1..];
      }
    }
  }

  /** `Trim(s)` neither starts nor ends with white space and holds only characters of `s`. */
  lemma TrimClean(s: string)
    ensures var t := Trim(s);
            t == [] || (!IsSpace(t[0]) && !IsSpace(t[|t| - 1]))
    ensures forall c :: c in Trim(s) ==> c in s
  {
    var t := TrimStart(s);
    var r := TrimEnd(t);
    assert r == t[..|r|];
    if r != [] {
      assert r[0] == t[0];
    }
    forall c | c in r
      ensures c in s
    {
      var k :| 0 <= k < |r| && r[k] == c;
      assert t[k] == s[|s| - |t| + k];
    }
  }

  /** Character `i` of `SpacedName`: a separator becomes a space, a piece's first character is upper-cased. */
  lemma {:induction false} SpacedNameAt(s: string, seps: set<char>, atStart: bool, i: int)
    requires 0 <= i < |s|
    ensures SpacedName(s, seps, atStart)[i] ==
            if s[i] in seps then ' '
            else if (if i == 0 then atStart else s[i - 1] in seps) then ToUpperChar(s[i])
            else s[i]
  {
    if i > 0 {
      SpacedNameAt(s[1..], seps, s[0] in seps, i - 1);
    }
  }

  /** Splitting, capitalising and joining is the character-by-character rule. */
  lemma {:induction false} TitleCaseMatchesSpacedName(s: string, seps: set<char>)
    ensures Join(CapitalizeAll(Split(s, seps)), " ") == SpacedName(s, seps, true)
    ensures var ws := Split(s, seps);
            Join([ws[0]] + CapitalizeAll(ws[1..]), " ") == SpacedName(s, seps, false)
  {
    if s != [] {
      TitleCaseMatchesSpacedName(s[1..], seps);
      if s[0] in seps {
        TitleCaseAtSeparator(s, seps);
      } else {
        TitleCaseInsidePiece(s, seps);
      }
    }
  }

  lemma TitleCaseAtSeparator(s: string, seps: set<char>)
    requires s != [] && s[0] in seps
    requires Join(CapitalizeAll(Split(s[1..], seps)), " ") == SpacedName(s[1..], seps, true)
    ensures Join(CapitalizeAll(Split(s, seps)), " ") == SpacedName(s, seps, true)
    ensures var ws := Split(s, seps);
            Join([ws[0]] + CapitalizeAll(ws[1..]), " ") == SpacedName(s, seps, false)
  {
    var rest := Split(s[1..], seps);
    var ws := Split(s, seps);
    assert ws == [[]] + rest;
    assert ws[0] == [] && ws[1..] == rest;
    var caps := CapitalizeAll(rest);
    assert |caps| >= 1;
    assert CapitalizeAll(ws) == [[]] + caps;
    assert ([[]] + caps)[1..] == caps;
    var joined := Join([[]] + caps, " ");
    assert joined == " " + Join(caps, " ");
    assert SpacedName(s, seps, true) == [' '] + SpacedName(s[1..], seps, true);
    assert SpacedName(s, seps, false) == [' '] + SpacedName(s[1..], seps, true);
  }

  lemma TitleCaseInsidePiece(s: string, seps: set<char>)
    requires s != [] && s[0] !in seps
    requires var rest := Split(s[1..], seps);
             Join([rest[0]] + CapitalizeAll(rest[1..]), " ") == SpacedName(s[1..], seps, false)
    ensures Join(CapitalizeAll(Split(s, seps)), " ") == SpacedName(s, seps, true)
    ensures var ws := Split(s, seps);
            Join([ws[0]] + CapitalizeAll(ws[1..]), " ") == SpacedName(s, seps, false)
  {
    var rest := Split(s[1..], seps);
    var ws := Split(s, seps);
    assert ws == [[s[0]] + rest[0]] + rest[1..];
    assert ws[1..] == rest[1..];
    assert CapitalizeAll(ws) == [[ToUpperChar(s[0])] + rest[0]] + CapitalizeAll(rest[1..]);
    JoinFirstCons(ToUpperChar(s[0]), rest[0], CapitalizeAll(rest[1..]), " ");
    JoinFirstCons(s[0], rest[0], CapitalizeAll(rest[1..]), " ");
  }

  function DigitChar(d: nat): char
    requires d < 10
  {
    ('0' as int + d) as char
  }

  function DigitValue(c: char): nat
    requires IsDigit(c)
  {
    c as int - '0' as int
  }

  /** `n.toString()` for a natural number: its decimal digits, without leading zeros. */
  function NatToString(n: nat): (r: string)
    ensures |r| > 0 && forall k :: 0 <= k < |r| ==> IsDigit(r[k])
  {
    if n < 10 then [DigitChar(n)] else NatToString(n / 10) + [DigitChar(n % 10)]
  }

  /** The value of a string of decimal digits. */
  function DigitsValue(ds: string): nat
    requires forall k :: 0 <= k < |ds| ==> IsDigit(ds[k])
  {
    if ds == [] then 0 else DigitsValue(ds[..|ds| - 1]) * 10 + DigitValue(ds[|ds| - 1])
  }

  /** The longest prefix of `s` made of decimal digits. */
  function DigitPrefix(s: string): (r: string)
    ensures r <= s
    ensures forall k :: 0 <= k < |r| ==> IsDigit(r[k])
    ensures |r| < |s| ==> !IsDigit(s[|r|])
  {
    if s != [] && IsDigit(s[0]) then [s[0]] + DigitPrefix(s[1..]) else []
  }

  /**
   * JavaScript's `parseInt(s)` for decimal text: leading white space is
   * skipped, one optional sign is read, then the longest run of digits;
   * without any digit the result is NaN, modelled as `None`.
   */
  function ParseInt(s: string): (r: Option<int>)
    ensures r.None? <==> DigitPrefix(StripSign(TrimStart(s))) == []
  {
    var t := TrimStart(s);
    var body := StripSign(t);
    var ds := DigitPrefix(body);
    if ds == [] then None
    else if t != [] && t[0] == '-' then Some(0 - DigitsValue(ds) as int)
    else Some(DigitsValue(ds))
  }

  function StripSign(t: string): string {
    if t != [] && (t[0] == '-' || t[0] == '+') then t[1..] else t
  }

  lemma {:induction false} DigitsValueOfNatToString(n: nat)
    ensures DigitsValue(NatToString(n)) == n
  {
    if n >= 10 {
      DigitsValueOfNatToString(n / 10);
      var r := NatToString(n);
      assert r[..|r| - 1] == NatToString(n / 10);
    }
  }

  lemma {:induction false} DigitPrefixOfDigits(ds: string)
    requires forall k :: 0 <= k < |ds| ==> IsDigit(ds[k])
    ensures DigitPrefix(ds) == ds
  {
    if ds != [] {
      DigitPrefixOfDigits(ds[1..]);
    }
  }

  /** A non-empty run of digits reads back as its value. */
  lemma ParseIntOfDigits(ds: string)
    requires ds != [] && forall k :: 0 <= k < |ds| ==> IsDigit(ds[k])
    ensures ParseInt(ds) == Some(DigitsValue(ds))
  {
    assert !IsSpace(ds[0]);
    assert TrimStart(ds) == ds;
    assert StripSign(ds) == ds;
    DigitPrefixOfDigits(ds);
  }

  /** Reading back the decimal text of a natural number gives the number (`parseInt(n.toString()) === n`). */
  lemma ParseIntOfNatToString(n: nat)
    ensures ParseInt(NatToString(n)) == Some(n)
  {
    ParseIntOfDigits(NatToString(n));
    DigitsValueOfNatToString(n);
  }
}
