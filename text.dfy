/** The string operations the controller applies to names, paths and identifiers
    (Python's `lower`, `upper`, `replace(" ", "")`, `endswith`, `rstrip('.')`,
    `split("/")[-1]`), on ASCII text. */
module Text {

  /** Python's `c.lower()` restricted to ASCII letters. */
  function LowerChar(c: char): char {
    if 'A' <= c <= 'Z' then (c as int + 32) as char else c
  }

  function UpperChar(c: char): char {
    if 'a' <= c <= 'z' then (c as int - 32) as char else c
  }

  function ToLower(s: string): (r: string)
    ensures |r| == |s|
    ensures forall i :: 0 <= i < |s| ==> r[i] == LowerChar(s[i])
    ensures forall c :: c in r ==> !('A' <= c <= 'Z')
  {
    if s == [] then [] else [LowerChar(s[0])] + ToLower(s[1..])
  }

  function ToUpper(s: string): (r: string)
    ensures |r| == |s|
    ensures forall i :: 0 <= i < |s| ==> r[i] == UpperChar(s[i])
  {
    if s == [] then [] else [UpperChar(s[0])] + ToUpper(s[1..])
  }

  /** `s.replace(" ", "")`: every blank removed, every other character kept in order. */
  function RemoveSpaces(s: string): (r: string)
    ensures ' ' !in r
    ensures forall c :: c in r ==> c in s
    ensures |r| <= |s|
    ensures forall c :: c != ' ' ==> multiset(r)[c] == multiset(s)[c]
  {
    if s == [] then []
    else
      assert s == [s[0]] + s[1..];
      if s[0] == ' ' then RemoveSpaces(s[1..]) else [s[0]] + RemoveSpaces(s[1..])
  }

  /** Removing blanks works piece by piece: the kept characters of a concatenation are
      those of its first part followed by those of its second, so their order is kept. */
  lemma {:induction false} RemoveSpacesAppend(a: string, b: string)
    ensures RemoveSpaces(a + b) == RemoveSpaces(a) + RemoveSpaces(b)
  {
    if a != [] {
      assert (a + b)[0] == a[0] && (a + b)[1..] == a[1..] + b;
      RemoveSpacesAppend(a[1..], b);
    } else {
      assert a + b == b;
    }
  }

  /** One character: a blank vanishes, anything else stays. */
  lemma RemoveSpacesChar(c: char)
    ensures RemoveSpaces([c]) == if c == ' ' then [] else [c]
  {
    assert [c][1..] == [];
  }

  /** `if not s.endswith('.'): s += '.'` */
  function EnsureTrailingDot(s: string): (r: string)
    ensures r != [] && r[|r| - 1] == '.'
    ensures r == s || r == s + "."
    ensures s != [] && s[|s| - 1] == '.' ==> r == s
  {
    if s != [] && s[|s| - 1] == '.' then s else s + "."
  }

  /** `s.rstrip('.')`: the longest prefix of `s` that does not end in a dot and
      after which only dots follow. The three ensures clauses determine the result. */
  function RStripDots(s: string): (r: string)
    ensures r <= s
    ensures r == [] || r[|r| - 1] != '.'
    ensures forall i :: |r| <= i < |s| ==> s[i] == '.'
  {
    if s != [] && s[|s| - 1] == '.' then RStripDots(s[..|s| - 1]) else s
  }

  /** A trailing dot never changes what `rstrip('.')` yields, so "example.com" and
      "example.com." select the same hosted zone. */
  lemma RStripIgnoresTrailingDot(s: string)
    ensures RStripDots(EnsureTrailingDot(s)) == RStripDots(s)
  {
    if !(s != [] && s[|s| - 1] == '.') {
      var t := s + ".";
      assert t[..|t| - 1] == s;
    }
  }

  /** `s.split(sep)[-1]`: the part after the last separator, or all of `s` when it
      holds none. */
  function AfterLast(s: string, sep: char): (r: string)
    ensures sep !in r
    ensures |r| <= |s| && r == s[|s| - |r|..]
    ensures |r| < |s| ==> s[|s| - |r| - 1] == sep
  {
    if s == [] then []
    else if s[|s| - 1] == sep then []
    else AfterLast(s[..|s| - 1], sep) + [s[|s| - 1]]
  }

  /** Splitting `prefix + "/" + x` on "/" gives back `x` whenever `x` holds no separator:
      the identifier a provider wraps in a path is recovered whole. */
  lemma {:induction false} AfterLastOfJoin(prefix: string, sep: char, x: string)
    requires sep !in x
    ensures AfterLast(prefix + [sep] + x, sep) == x
  {
    var s := prefix + [sep] + x;
    if x == [] {
    } else {
      var y := x[..|x| - 1];
      assert s[..|s| - 1] == prefix + [sep] + y;
      AfterLastOfJoin(prefix, sep, y);
      assert x == y + [x[|x| - 1]];
    }
  }

  /** Splitting is idempotent: a value with no separator left is its own last segment. */
  lemma {:induction false} AfterLastOfPlain(s: string, sep: char)
    requires sep !in s
    ensures AfterLast(s, sep) == s
  {
    if s != [] {
      AfterLastOfPlain(s[..|s| - 1], sep);
    }
  }

  function DigitChar(d: nat): char
    requires d < 10
  {
    ['0','1','2','3','4','5','6','7','8','9'][d]
  }

  /** The decimal spelling of `n`, as a provider prints serial numbers in identifiers. */
  function Digits(n: nat): (r: string)
    ensures r != []
    ensures forall i :: 0 <= i < |r| ==> '0' <= r[i] <= '9'
    ensures n >= 10 <==> |r| >= 2
  {
    if n < 10 then [DigitChar(n)] else Digits(n / 10) + [DigitChar(n % 10)]
  }

  lemma DigitCharInjective(a: nat, b: nat)
    requires a < 10 && b < 10 && DigitChar(a) == DigitChar(b)
    ensures a == b
  {
  }

  /** Distinct numbers are spelled differently, so identifiers minted from distinct
      serial numbers never collide. */
  lemma {:induction false} DigitsInjective(a: nat, b: nat)
    requires Digits(a) == Digits(b)
    ensures a == b
  {
    var s := Digits(a);
    if a < 10 && b < 10 {
      DigitCharInjective(a, b);
    } else if a >= 10 && b >= 10 {
      assert Digits(a) == Digits(a / 10) + [DigitChar(a % 10)];
      assert Digits(b) == Digits(b / 10) + [DigitChar(b % 10)];
      assert Digits(a / 10) == s[..|s| - 1] == Digits(b / 10);
      DigitsInjective(a / 10, b / 10);
      DigitCharInjective(a % 10, b % 10);
    }
  }

  /** Two identifiers with the same prefix are equal exactly when their serials are. */
  lemma PrefixedDigitsInjective(prefix: string, a: nat, b: nat)
    requires prefix + Digits(a) == prefix + Digits(b)
    ensures a == b
  {
    assert Digits(a) == (prefix + Digits(a))[|prefix|..];
    assert Digits(b) == (prefix + Digits(b))[|prefix|..];
    DigitsInjective(a, b);
  }
}
