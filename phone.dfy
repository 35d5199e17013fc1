// Phone numbers: splitting a number into a country code and a local part,
// joining them back for display, and the length-based validity check.
module Phone {
  import opened Strings

  /** `{ contactCode, contactNumber }` */
  datatype PhoneParts = PhoneParts(contactCode: string, contactNumber: string)

  /** The recognised country codes, in the order they are tried. */
  const COUNTRY_CODES: seq<string> := ["+64", "+61", "+1", "+86", "+44", "+81"]
  const DEFAULT_CODE := "+64"

  predicate IsPhoneChar(c: char) { IsDigit(c) || c == '+' }

  /** `s.replace(/[^\d+]/g, '')`: only the digits and plus signs of `s`, in order. */
  function Clean(s: string): (r: string)
    ensures |r| <= |s|
    ensures forall k :: 0 <= k < |r| ==> IsPhoneChar(r[k])
  {
    if s == [] then []
    else if IsPhoneChar(s[0]) then [s[0]] + Clean(s[1..])
    else Clean(s[1..])
  }

  /** Cleaning a concatenation cleans each part: the kept characters stay in their order. */
  lemma {:induction false} CleanAppend(a: string, b: string)
    ensures Clean(a + b) == Clean(a) + Clean(b)
  {
    if a == [] {
      assert a + b == b;
    } else {
      var ab := a + b;
      assert ab[0] == a[0] && ab[1..] == a[1..] + b;
      CleanAppend(a[1..], b);
      if IsPhoneChar(a[0]) {
        assert Clean(ab) == [a[0]] + (Clean(a[1..]) + Clean(b));
        assert Clean(a) == [a[0]] + Clean(a[1..]);
      } else {
        assert Clean(ab) == Clean(a[1..]) + Clean(b);
      }
    }
  }

  /** One character is kept exactly when it is a digit or a plus sign. */
  lemma CleanOneChar(c: char)
    ensures Clean([c]) == if IsPhoneChar(c) then [c] else []
  {
    assert [c][1..] == [];
  }

  /** Cleaning keeps a string made only of digits and plus signs as it is. */
  lemma {:induction false} CleanKeepsPhoneChars(s: string)
    requires forall k :: 0 <= k < |s| ==> IsPhoneChar(s[k])
    ensures Clean(s) == s
  {
    if s != [] {
      CleanKeepsPhoneChars(s[1..]);
    }
  }

  /** Cleaning twice is cleaning once. */
  lemma CleanIdempotent(s: string)
    ensures Clean(Clean(s)) == Clean(s)
  {
    CleanKeepsPhoneChars(Clean(s));
  }

  /** The local part under a matched code; for New Zealand a single leading 0 is dropped. */
  function LocalPart(code: string, rest: string): string {
    if code == "+64" && rest != [] && rest[0] == '0' then rest[1..] else rest
  }

  /** Try the codes in order against a cleaned number. */
  function MatchCode(clean: string, codes: seq<string>): (r: PhoneParts)
    ensures r.contactCode in codes || r.contactCode == DEFAULT_CODE
    ensures |r.contactNumber| <= |clean| && r.contactNumber == clean[|clean| - |r.contactNumber|..]
  {
    if codes == [] then PhoneParts(DEFAULT_CODE, clean)
    else if codes[0] <= clean then PhoneParts(codes[0], LocalPart(codes[0], clean[|codes[0]|..]))
    else MatchCode(clean, codes[1..])
  }

  /**
   * `parsePhoneNumber`: an empty input gives `+64` and an empty local part;
   * a cleaned number starting with a known code is split after it; anything
   * else is a New Zealand local number.
   */
  function ParsePhoneNumber(phoneNumber: string): (r: PhoneParts)
    ensures r.contactCode in COUNTRY_CODES
    ensures forall k :: 0 <= k < |r.contactNumber| ==> IsPhoneChar(r.contactNumber[k])
    ensures |r.contactNumber| <= |phoneNumber|
  {
    if phoneNumber == "" then PhoneParts(DEFAULT_CODE, "")
    else
      var clean := Clean(phoneNumber);
      if clean != [] && clean[0] == '+' then MatchCode(clean, COUNTRY_CODES)
      else PhoneParts(DEFAULT_CODE, clean)
  }

  /** `formatPhoneNumber`: the code followed by the local part, or nothing without a local part. */
  function FormatPhoneNumber(contactCode: string, contactNumber: string): (r: string)
    ensures contactNumber == "" <==> r == ""
    ensures r != "" ==> contactCode <= r && r[|contactCode|..] == contactNumber
  {
    if contactNumber == "" then "" else contactCode + contactNumber
  }

  /** `validatePhoneNumber`: an international number needs 8 characters after cleaning, a local one 7. */
  function ValidatePhoneNumber(phoneNumber: string): (r: bool)
    ensures r ==> |phoneNumber| >= 7
    ensures r <==> phoneNumber != "" && |Clean(phoneNumber)| >= (if Clean(phoneNumber) != [] && Clean(phoneNumber)[0] == '+' then 8 else 7)
  {
    if phoneNumber == "" then false
    else
      var clean := Clean(phoneNumber);
      if clean != [] && clean[0] == '+' then |clean| >= 8 else |clean| >= 7
  }

  /** The string consists of decimal digits only. */
  predicate DigitsOnly(s: string) { forall k :: 0 <= k < |s| ==> IsDigit(s[k]) }

  /**
   * Formatting a known code with a digits-only local part and parsing the
   * result gives back the same two parts (for New Zealand, when the local
   * part does not start with the 0 the parser drops).
   */
  lemma {:induction false} ParseFormatRoundTrip(code: string, number: string)
    requires code in COUNTRY_CODES
    requires number != "" && DigitsOnly(number)
    requires code == "+64" ==> number[0] != '0'
    ensures ParsePhoneNumber(FormatPhoneNumber(code, number)) == PhoneParts(code, number)
  {
    var s := code + number;
    assert FormatPhoneNumber(code, number) == s;
    CleanKeepsPhoneChars(s);
    assert s[0] == '+';
    var i :| 0 <= i < |COUNTRY_CODES| && COUNTRY_CODES[i] == code;
    MatchCodeFindsCode(s, code, number, i);
  }

  /** Only the intended code matches: no code of the list is a prefix of another code followed by digits. */
  lemma MatchCodeFindsCode(s: string, code: string, number: string, i: nat)
    requires i < |COUNTRY_CODES| && COUNTRY_CODES[i] == code && s == code + number
    requires number != "" && DigitsOnly(number)
    requires code == "+64" ==> number[0] != '0'
    ensures MatchCode(s, COUNTRY_CODES) == PhoneParts(code, number)
  {
    EarlierCodesMiss(s, code, number, i);
    MatchCodeSkips(s, COUNTRY_CODES, i);
    MatchFirstCode(s, COUNTRY_CODES[i..], number);
  }

  /** The codes listed before the one a number starts with are not prefixes of it. */
  lemma EarlierCodesMiss(s: string, code: string, number: string, i: nat)
    requires i < |COUNTRY_CODES| && COUNTRY_CODES[i] == code && s == code + number
    requires number != "" && DigitsOnly(number)
    ensures forall k :: 0 <= k < i ==> !(COUNTRY_CODES[k] <= s)
  {
    assert s[..|code|] == code;
    var c := COUNTRY_CODES;
    if i == 1 {
      NotPrefix(c[0], s, 2);
    } else if 2 <= i {
      NotPrefix(c[0], s, 1);
      NotPrefix(c[1], s, 1);
      if 3 <= i {
        NotPrefix(c[2], s, 1);
      }
      if 4 <= i {
        NotPrefix(c[3], s, if i == 5 then 2 else 1);
      }
      if i == 5 {
        NotPrefix(c[4], s, 1);
      }
    }
  }

  /** A number that starts with the first code splits after it. */
  lemma MatchFirstCode(s: string, codes: seq<string>, number: string)
    requires codes != [] && s == codes[0] + number
    requires codes[0] == "+64" ==> number == [] || number[0] != '0'
    ensures MatchCode(s, codes) == PhoneParts(codes[0], number)
  {
    assert s[..|codes[0]|] == codes[0];
    assert s[|codes[0]|..] == number;
  }

  /** Codes that do not match are passed over. */
  lemma {:induction false} MatchCodeSkips(s: string, codes: seq<string>, j: nat)
    requires j <= |codes| && forall k :: 0 <= k < j ==> !(codes[k] <= s)
    ensures MatchCode(s, codes) == MatchCode(s, codes[j..])
  {
    if j > 0 {
      MatchCodeSkips(s, codes[1..], j - 1);
      assert codes[1..][j - 1..] == codes[j..];
    }
  }

  /** A string that differs from `p` at position `k` does not start with `p`. */
  lemma NotPrefix(p: string, s: string, k: nat)
    requires k < |p| && k < |s| && p[k] != s[k]
    ensures !(p <= s)
  {
  }

  /** A New Zealand number written with its trunk 0 after the code loses that 0. */
  lemma {:induction false} ParseDropsNewZealandTrunkZero(number: string)
    requires number != "" && DigitsOnly(number) && number[0] != '0'
    ensures ParsePhoneNumber("+640" + number) == PhoneParts("+64", number)
  {
    var s := "+640" + number;
    CleanKeepsPhoneChars(s);
    assert s[..3] == "+64";
    assert s[3..] == "0" + number;
  }

  /** A number without a leading plus is read as a New Zealand local number, cleaned. */
  lemma LocalNumberGetsDefaultCode(phoneNumber: string)
    requires phoneNumber != "" && (Clean(phoneNumber) == [] || Clean(phoneNumber)[0] != '+')
    ensures ParsePhoneNumber(phoneNumber) == PhoneParts(DEFAULT_CODE, Clean(phoneNumber))
  {
  }
}
