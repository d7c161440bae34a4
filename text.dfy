/** The string operations the web layer relies on: Python's `str.lower()`,
    the `in` substring test, `str.split("_")[0]` and `int(...)`. */
module Text {
  import opened Wrappers

  /** Why `int(...)` refused its argument (Python raises ValueError). */
  datatype ParseError = NotAnInteger(text: string)

  function LowerChar(c: char): char
  {
    if 'A' <= c <= 'Z' then (c as int - 'A' as int + 'a' as int) as char else c
  }

  /** `s.lower()` on the ASCII letters. */
  function Lower(s: string): (r: string)
    ensures |r| == |s|
    ensures forall i :: 0 <= i < |s| ==> r[i] == LowerChar(s[i])
  {
    if s == [] then [] else [LowerChar(s[0])] + Lower(s[1..])
  }

  lemma {:induction false} LowerSlice(s: string, i: int, j: int)
    requires 0 <= i <= j <= |s|
    ensures Lower(s)[i..j] == Lower(s[i..j])
  {
  }

  /** `sub` occurs in `s` starting at index `i`. */
  ghost predicate OccursAt(s: string, sub: string, i: int)
  {
    0 <= i && i + |sub| <= |s| && s[i..i + |sub|] == sub
  }

  predicate StartsWith(s: string, prefix: string)
  {
    |prefix| <= |s| && s[..|prefix|] == prefix
  }

  /** Python's `sub in s`. */
  predicate Contains(s: string, sub: string)
    decreases |s|
  {
    StartsWith(s, sub) || (s != [] && Contains(s[1..], sub))
  }

  /** `Contains` holds exactly when `sub` occurs at some index of `s`. */
  lemma {:induction false} ContainsIff(s: string, sub: string)
    ensures Contains(s, sub) <==> exists i :: OccursAt(s, sub, i)
    decreases |s|
  {
    if StartsWith(s, sub) {
      assert OccursAt(s, sub, 0);
    } else if s == [] {
      assert forall i :: !OccursAt(s, sub, i);
    } else {
      ContainsIff(s[1..], sub);
      if Contains(s[1..], sub) {
        var i :| OccursAt(s[1..], sub, i);
        assert s[1..][i..i + |sub|] == s[i + 1..i + 1 + |sub|];
        assert OccursAt(s, sub, i + 1);
      } else {
        forall i ensures !OccursAt(s, sub, i) {
          assert OccursAt(s, sub, 0) ==> StartsWith(s, sub);
          if i > 0 && i + |sub| <= |s| {
            assert s[1..][i - 1..i - 1 + |sub|] == s[i..i + |sub|];
            assert OccursAt(s, sub, i) ==> OccursAt(s[1..], sub, i - 1);
          }
        }
      }
    }
  }

  /** `sub` occurs in `s` at index `i` when letter case is ignored. */
  ghost predicate OccursIgnoringCaseAt(s: string, sub: string, i: int)
  {
    0 <= i && i + |sub| <= |s| && Lower(s[i..i + |sub|]) == Lower(sub)
  }

  /** `sub` occurs in `s` when letter case is ignored. */
  ghost predicate ContainsIgnoringCase(s: string, sub: string)
  {
    exists i :: OccursIgnoringCaseAt(s, sub, i)
  }

  /** The test `sub in s.lower()`, for an all-lower-case `sub`, is a
      case-insensitive substring test. */
  lemma ContainsLowerIff(s: string, sub: string)
    requires Lower(sub) == sub
    ensures Contains(Lower(s), sub) <==> ContainsIgnoringCase(s, sub)
  {
    ContainsIff(Lower(s), sub);
    if Contains(Lower(s), sub) {
      var i :| OccursAt(Lower(s), sub, i);
      LowerSlice(s, i, i + |sub|);
      assert OccursIgnoringCaseAt(s, sub, i);
    }
    if ContainsIgnoringCase(s, sub) {
      var i :| OccursIgnoringCaseAt(s, sub, i);
      LowerSlice(s, i, i + |sub|);
      assert OccursAt(Lower(s), sub, i);
    }
  }

  /** No upper-case ASCII letter in `s`. */
  predicate IsLowerCase(s: string)
  {
    forall i :: 0 <= i < |s| ==> !('A' <= s[i] <= 'Z')
  }

  /** The handlers' test `word in s.lower()`, for a lower-case `word`. */
  function ContainsWord(s: string, word: string): (b: bool)
    requires IsLowerCase(word)
    ensures b <==> ContainsIgnoringCase(s, word)
  {
    assert Lower(word) == word;
    ContainsLowerIff(s, word);
    Contains(Lower(s), word)
  }

  /** `s.split("_")[0]`: everything before the first underscore. */
  function FirstField(s: string): (f: string)
    ensures |f| <= |s| && f == s[..|f|]
    ensures '_' !in f
    ensures |f| == |s| || s[|f|] == '_'
  {
    if s == [] || s[0] == '_' then [] else [s[0]] + FirstField(s[1..])
  }

  predicate IsDigit(c: char)
  {
    '0' <= c <= '9'
  }

  predicate AllDigits(s: string)
  {
    forall i :: 0 <= i < |s| ==> IsDigit(s[i])
  }

  /** The value of a string of decimal digits, most significant first. */
  function DigitsValue(s: string): nat
    requires AllDigits(s)
  {
    if s == [] then 0 else 10 * DigitsValue(s[..|s| - 1]) + (s[|s| - 1] as int - '0' as int)
  }

  /** The text `int(...)` accepts here: an optional sign, then at least one digit. */
  ghost predicate IsIntegerText(s: string)
  {
    var digits := if s != [] && (s[0] == '+' || s[0] == '-') then s[1..] else s;
    digits != [] && AllDigits(digits)
  }

  /** Python's `int(s)` on an ASCII decimal literal. */
  function ParseInt(s: string): (r: Result<int, ParseError>)
    ensures r.Ok? <==> IsIntegerText(s)
    ensures r.Err? ==> r.error == NotAnInteger(s)
    ensures r.Ok? && AllDigits(s) ==> r.value == DigitsValue(s)
    ensures r.Ok? && s[0] == '-' ==> r.value == -(DigitsValue(s[1..]) as int)
    ensures r.Ok? && s[0] == '+' ==> r.value == DigitsValue(s[1..])
  {
    var negative := s != [] && s[0] == '-';
    var digits := if s != [] && (s[0] == '+' || s[0] == '-') then s[1..] else s;
    if digits == [] || !AllDigits(digits) then Err(NotAnInteger(s))
    else if negative then Ok(-(DigitsValue(digits) as int))
    else Ok(DigitsValue(digits))
  }

  /** The decimal rendering of `n`, without leading zeros. */
  function Decimal(n: nat): (s: string)
    ensures s != [] && AllDigits(s)
  {
    var d := ['0' + (n % 10) as char];
    if n < 10 then d else Decimal(n / 10) + d
  }

  /** Reading back a rendered number gives the number. */
  lemma {:induction false} DecimalRoundTrip(n: nat)
    ensures DigitsValue(Decimal(n)) == n
    ensures ParseInt(Decimal(n)) == Ok(n)
  {
    var s := Decimal(n);
    if n >= 10 {
      DecimalRoundTrip(n / 10);
      assert s[..|s| - 1] == Decimal(n / 10);
    }
  }
}
