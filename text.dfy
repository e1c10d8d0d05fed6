/** The few string operations of the client: `str.rstrip('/')`, `str.startswith`,
    `str.lower`, `'/'.join`, and the decimal rendering of an int by `str()`/`unicode()`. */
module Text {
  import opened Wrappers

  predicate StartsWith(s: string, prefix: string) {
    |prefix| <= |s| && s[..|prefix|] == prefix
  }

  /** `s.rstrip('/')`: the longest prefix of `s` that does not end in '/', all of whose
      removed characters are '/'. */
  function RStripSlash(s: string): (r: string)
    ensures |r| <= |s| && r == s[..|r|]
    ensures r == [] || r[|r| - 1] != '/'
    ensures forall i :: |r| <= i < |s| ==> s[i] == '/'
  {
    if s == [] || s[|s| - 1] != '/' then s else RStripSlash(s[..|s| - 1])
  }

  /** ASCII case folding, the part of `str.lower` the HTTP verb check relies on. */
  function LowerChar(c: char): char {
    if 'A' <= c <= 'Z' then (c as int + 32) as char else c
  }

  function LowerAscii(s: string): (r: string)
    ensures |r| == |s|
    ensures forall i :: 0 <= i < |s| ==> r[i] == LowerChar(s[i])
  {
    seq(|s|, i requires 0 <= i < |s| => LowerChar(s[i]))
  }

  function UpperChar(c: char): char {
    if 'a' <= c <= 'z' then (c as int - 32) as char else c
  }

  /** `s` spells the lower-case word `word` in any mix of cases. */
  predicate SpellsCaseless(s: string, word: string) {
    |s| == |word| && forall i :: 0 <= i < |s| ==> s[i] == word[i] || s[i] == UpperChar(word[i])
  }

  /** Folding a string gives a lower-case word exactly when the string spells that word in
      any mix of cases. */
  lemma {:induction false} LowerMatches(s: string, word: string)
    requires forall i :: 0 <= i < |word| ==> 'a' <= word[i] <= 'z'
    ensures LowerAscii(s) == word <==> SpellsCaseless(s, word)
  {
    if SpellsCaseless(s, word) {
      forall i | 0 <= i < |s| ensures LowerAscii(s)[i] == word[i] {
        LowerCharOf(s[i], word[i]);
      }
    }
    if LowerAscii(s) == word {
      forall i | 0 <= i < |s| ensures s[i] == word[i] || s[i] == UpperChar(word[i]) {
        LowerCharOf(s[i], word[i]);
      }
    }
  }

  lemma LowerCharOf(c: char, w: char)
    requires 'a' <= w <= 'z'
    ensures LowerChar(c) == w <==> c == w || c == UpperChar(w)
  {
  }

  /** `'/'.join(parts)`. */
  function JoinSlash(parts: seq<string>): string
  {
    if |parts| == 0 then ""
    else if |parts| == 1 then parts[0]
    else parts[0] + "/" + JoinSlash(parts[1..])
  }

  /** `s.split('/')`, the inverse of `JoinSlash` on segments free of '/'. */
  function SplitSlash(s: string): (r: seq<string>)
    ensures |r| >= 1
  {
    if s == [] then [""]
    else
      var rest := SplitSlash(s[1..]);
      if s[0] == '/' then [""] + rest else [[s[0]] + rest[0]] + rest[1..]
  }

  predicate NoSlash(p: string) {
    forall i :: 0 <= i < |p| ==> p[i] != '/'
  }

  lemma {:induction false} SplitSegment(p: string, t: string)
    requires NoSlash(p)
    ensures SplitSlash(p) == [p]
    ensures SplitSlash(p + "/" + t) == [p] + SplitSlash(t)
  {
    if p == [] {
      assert ("/" + t)[1..] == t;
    } else {
      SplitSegment(p[1..], t);
      assert (p + "/" + t)[1..] == p[1..] + "/" + t;
      assert [p[0]] + p[1..] == p;
    }
  }

  /** Joining segments that hold no '/' and splitting the result gives them back. */
  lemma {:induction false} SplitJoin(parts: seq<string>)
    requires |parts| >= 1
    requires forall i :: 0 <= i < |parts| ==> NoSlash(parts[i])
    ensures SplitSlash(JoinSlash(parts)) == parts
  {
    if |parts| == 1 {
      SplitSegment(parts[0], "");
    } else {
      SplitJoin(parts[1..]);
      SplitSegment(parts[0], JoinSlash(parts[1..]));
      assert [parts[0]] + parts[1..] == parts;
    }
  }

  // Decimal text of integers

  predicate IsDigit(c: char) { '0' <= c <= '9' }

  predicate AllDigits(s: string) {
    forall i :: 0 <= i < |s| ==> IsDigit(s[i])
  }

  function DigitChar(d: nat): (c: char)
    requires d < 10
    ensures IsDigit(c)
  {
    ('0' as int + d) as char
  }

  function DigitValue(c: char): nat
    requires IsDigit(c)
  {
    c as int - '0' as int
  }

  /** Decimal digits of a natural number, most significant first, without leading zeros. */
  function NatText(n: nat): (r: string)
    ensures |r| >= 1 && AllDigits(r)
    ensures r[0] == '0' ==> n == 0
    decreases n
  {
    if n < 10 then [DigitChar(n)] else NatText(n / 10) + [DigitChar(n % 10)]
  }

  /** `str(i)`: an optional '-' followed by the digits of `|i|`. */
  function DecimalText(i: int): (r: string)
  {
    if i < 0 then "-" + NatText(-i) else NatText(i)
  }

  function ParseNat(s: string): nat
    requires |s| >= 1 && AllDigits(s)
    decreases |s|
  {
    if |s| == 1 then DigitValue(s[0])
    else 10 * ParseNat(s[..|s| - 1]) + DigitValue(s[|s| - 1])
  }

  /** `int(s)` restricted to the canonical forms that `str` produces. */
  function ParseDecimal(s: string): Option<int>
  {
    if |s| >= 2 && s[0] == '-' && AllDigits(s[1..]) && s[1] != '0' then Some(0 - ParseNat(s[1..]) as int)
    else if |s| >= 1 && AllDigits(s) && (s[0] != '0' || |s| == 1) then Some(ParseNat(s))
    else None
  }

  lemma {:induction false} ParseNatText(n: nat)
    ensures ParseNat(NatText(n)) == n
    decreases n
  {
    if n >= 10 {
      ParseNatText(n / 10);
      var s := NatText(n);
      assert s[..|s| - 1] == NatText(n / 10);
      assert DigitValue(s[|s| - 1]) == n % 10;
    }
  }

  /** The decimal rendering of an int reads back as the same int. */
  lemma DecimalRoundTrip(i: int)
    ensures ParseDecimal(DecimalText(i)) == Some(i)
  {
    if i < 0 {
      NegativeRoundTrip(-i);
    } else {
      ParseNatText(i);
    }
  }

  lemma NegativeRoundTrip(n: nat)
    requires n > 0
    ensures ParseDecimal("-" + NatText(n)) == Some(0 - n)
  {
    var s := "-" + NatText(n);
    assert s[1..] == NatText(n);
    ParseNatText(n);
  }
}
