/** Strings as the Go code uses them: ordering, decimal integers, trimming and splitting.
    A Go string is UTF-8 and compares byte by byte; UTF-8 keeps code-point order, so
    comparing sequences of characters gives the same answer. */
module Text {

  datatype Option<+T> = None | Some(value: T)

  // ---------- The order `<` on strings ----------

  predicate Less(a: string, b: string) {
    b != [] && (a == [] || a[0] < b[0] || (a[0] == b[0] && Less(a[1..], b[1..])))
  }

  /** At the first difference the smaller character decides, and a proper prefix comes first. */
  lemma {:induction false} LessMeans(a: string, b: string)
    ensures Less(a, b)
            <==> a < b || exists i :: 0 <= i < |a| && i < |b| && a[..i] == b[..i] && a[i] < b[i]
  {
    if a != [] && b != [] && a[0] == b[0] {
      LessMeans(a[1..], b[1..]);
      assert a == [a[0]] + a[1..] && b == [b[0]] + b[1..];
      if i :| 0 <= i < |a| - 1 && i < |b| - 1 && a[1..][..i] == b[1..][..i] && a[1..][i] < b[1..][i] {
        assert a[..i + 1] == [a[0]] + a[1..][..i] && b[..i + 1] == [b[0]] + b[1..][..i];
        assert a[..i + 1] == b[..i + 1] && a[i + 1] < b[i + 1];
      }
      if i :| 0 <= i < |a| && i < |b| && a[..i] == b[..i] && a[i] < b[i] {
        assert a[1..][..i - 1] == a[..i][1..] && b[1..][..i - 1] == b[..i][1..];
        assert a[1..][i - 1] < b[1..][i - 1];
      }
    } else if a != [] && b != [] && a[0] < b[0] {
      assert a[..0] == b[..0];
    }
  }

  lemma {:induction false} LessIsTotal(a: string, b: string)
    ensures a == b || Less(a, b) || Less(b, a)
    ensures !(a == b && Less(a, b))
    ensures !(Less(a, b) && Less(b, a))
  {
    if a != [] && b != [] {
      LessIsTotal(a[1..], b[1..]);
      assert a == [a[0]] + a[1..] && b == [b[0]] + b[1..];
    }
  }

  lemma {:induction false} LessIsTransitive(a: string, b: string, c: string)
    requires Less(a, b) && Less(b, c)
    ensures Less(a, c)
  {
    if a != [] && a[0] == b[0] && b[0] == c[0] {
      LessIsTransitive(a[1..], b[1..], c[1..]);
    }
  }

  // ---------- Decimal integers: strconv.Itoa and strconv.Atoi on a 64-bit int ----------

  const MAX_INT := 0x7FFF_FFFF_FFFF_FFFF
  const MIN_INT := -0x8000_0000_0000_0000

  type GoInt = n: int | MIN_INT <= n <= MAX_INT

  /** Two's-complement addition on 64 bits. */
  function WrapAdd(a: GoInt, b: GoInt): GoInt {
    var sum := a + b;
    if sum > MAX_INT then sum - 0x1_0000_0000_0000_0000
    else if sum < MIN_INT then sum + 0x1_0000_0000_0000_0000
    else sum
  }

  function Digit(d: nat): char
    requires d < 10
  {
    ('0' as int + d) as char
  }

  predicate IsDigit(c: char) { '0' <= c <= '9' }

  function FormatNat(n: nat): string {
    (if n < 10 then [] else FormatNat(n / 10)) + [Digit(n % 10)]
  }

  function Itoa(n: GoInt): string {
    if n < 0 then ['-'] + FormatNat(-(n as int)) else FormatNat(n)
  }

  function ParseNat(s: string): Option<nat>
  {
    if s == [] then None
    else
      var last := s[|s| - 1];
      if !IsDigit(last) then None
      else
        var d := last as int - '0' as int;
        if |s| == 1 then Some(d)
        else
          match ParseNat(s[..|s| - 1])
          case None => None
          case Some(n) => Some(10 * n + d)
  }

  /** Optional sign, at least one digit, nothing else, and the value must fit 64 bits. */
  function Atoi(s: string): Option<GoInt> {
    if s == [] then None
    else
      var negative := s[0] == '-';
      var digits := if s[0] == '-' || s[0] == '+' then s[1..] else s;
      match ParseNat(digits)
      case None => None
      case Some(n) =>
        var v := if negative then -(n as int) else n;
        if MIN_INT <= v <= MAX_INT then Some(v) else None
  }

  /** The digits are checked one by one: signs, blanks and the empty text are refused. */
  lemma {:induction false} ParseNatAccepts(s: string)
    ensures ParseNat(s).Some? <==> s != [] && forall i :: 0 <= i < |s| ==> IsDigit(s[i])
  {
    if |s| > 1 {
      ParseNatAccepts(s[..|s| - 1]);
    }
  }

  lemma {:induction false} ParseFormatNat(n: nat)
    ensures ParseNat(FormatNat(n)) == Some(n)
    ensures FormatNat(n) != [] && IsDigit(FormatNat(n)[0])
  {
    var s := FormatNat(n);
    if n >= 10 {
      ParseFormatNat(n / 10);
      assert s[..|s| - 1] == FormatNat(n / 10);
    }
  }

  lemma {:induction false} AtoiItoa(n: GoInt)
    ensures Itoa(n) != []
    ensures Atoi(Itoa(n)) == Some(n)
  {
    if n < 0 {
      ParseFormatNat(-(n as int));
      assert Itoa(n)[1..] == FormatNat(-(n as int));
    } else {
      ParseFormatNat(n);
    }
  }

  function Pow10(k: nat): nat {
    if k == 0 then 1 else 10 * Pow10(k - 1)
  }

  /** The number a row of digits stands for, the first digit counting most. */
  function DecimalValue(digits: string): int {
    if digits == [] then 0
    else (digits[0] as int - 48) * Pow10(|digits| - 1) + DecimalValue(digits[1..])
  }

  lemma {:induction false} DecimalValueSnoc(s: string, c: char)
    ensures DecimalValue(s + [c]) == 10 * DecimalValue(s) + (c as int - 48)
  {
    if s == [] {
      assert Pow10(0) == 1 && (s + [c])[1..] == [];
    } else {
      assert (s + [c])[1..] == s[1..] + [c];
      DecimalValueSnoc(s[1..], c);
      assert Pow10(|s|) == 10 * Pow10(|s| - 1);
      ScaleDigit(s[0] as int - 48, Pow10(|s| - 1));
    }
  }

  lemma ScaleDigit(d: int, p: nat)
    ensures d * (10 * p) == 10 * (d * p)
  {
  }

  /** A text that parses has the value its digits stand for. */
  lemma {:induction false} ParseNatValue(s: string)
    requires ParseNat(s).Some?
    ensures ParseNat(s).value == DecimalValue(s)
  {
    var n := |s| - 1;
    assert s == s[..n] + [s[n]];
    DecimalValueSnoc(s[..n], s[n]);
    if n > 0 { ParseNatValue(s[..n]); }
  }

  /** strconv.Atoi: an optional sign and at least one digit, nothing else, and the value fits 64 bits. */
  lemma AtoiMeans(s: string)
    ensures var digits := if s != [] && s[0] in {'+', '-'} then s[1..] else s;
            var value := if s != [] && s[0] == '-' then -DecimalValue(digits) else DecimalValue(digits);
            && (Atoi(s).Some? <==> && digits != [] && (forall i :: 0 <= i < |digits| ==> '0' <= digits[i] <= '9')
                                   && -0x8000_0000_0000_0000 <= value <= 0x7fff_ffff_ffff_ffff)
            && (Atoi(s).Some? ==> Atoi(s).value == value)
  {
    var digits := if s != [] && s[0] in {'+', '-'} then s[1..] else s;
    ParseNatAccepts(digits);
    if ParseNat(digits).Some? { ParseNatValue(digits); }
  }

  // ---------- strings.ToLower, TrimSpace, Trim and SplitN ----------

  /** Enough of strings.ToLower to compare with an ASCII word that has no `i` and no `k`:
      the only non-ASCII characters with an ASCII lower case map to those two letters. */
  function LowerAscii(s: string): string {
    seq(|s|, i requires 0 <= i < |s| =>
      if 'A' <= s[i] <= 'Z' then (s[i] as int + 32) as char else s[i])
  }

  /** The same letter but for its case. */
  predicate SameLetter(a: char, b: char) {
    || a == b
    || ('A' <= a <= 'Z' && b as int == a as int + 32)
    || ('A' <= b <= 'Z' && a as int == b as int + 32)
  }

  /** Two texts have the same lower case exactly when they are the same letter for letter but for case. */
  lemma SameLowerExactlyWhen(a: string, b: string)
    ensures LowerAscii(a) == LowerAscii(b) <==> |a| == |b| && forall i :: 0 <= i < |a| ==> SameLetter(a[i], b[i])
  {
    if LowerAscii(a) == LowerAscii(b) {
      forall i | 0 <= i < |a| ensures SameLetter(a[i], b[i]) {
        assert LowerAscii(a)[i] == LowerAscii(b)[i];
      }
    }
    if |a| == |b| && forall i :: 0 <= i < |a| ==> SameLetter(a[i], b[i]) {
      assert forall i :: 0 <= i < |a| ==> LowerAscii(a)[i] == LowerAscii(b)[i];
    }
  }

  /** The characters of uuid.NewString. Lower-casing leaves them alone, and no other character but
      the capitals A to F lower-cases to one of them. */
  predicate UuidText(s: string) {
    forall i :: 0 <= i < |s| ==> '0' <= s[i] <= '9' || 'a' <= s[i] <= 'f' || s[i] == '-'
  }

  lemma LowerUuid(s: string)
    requires UuidText(s)
    ensures LowerAscii(s) == s
  {
  }

  /** unicode.IsSpace. */
  predicate IsSpace(c: char) {
    || c == ' ' || '\U{0009}' <= c <= '\U{000D}'
    || c == '\U{0085}' || c == '\U{00A0}' || c == '\U{1680}'
    || '\U{2000}' <= c <= '\U{200A}'
    || c == '\U{2028}' || c == '\U{2029}' || c == '\U{202F}' || c == '\U{205F}' || c == '\U{3000}'
  }

  /** The code points of Unicode's White_Space property. */
  lemma IsSpaceMeans(c: char)
    ensures IsSpace(c) <==> c as int in {9, 10, 11, 12, 13, 32, 0x85, 0xA0, 0x1680, 0x2000, 0x2001, 0x2002, 0x2003, 0x2004, 0x2005,
                                         0x2006, 0x2007, 0x2008, 0x2009, 0x200A, 0x2028, 0x2029, 0x202F, 0x205F, 0x3000}
  {
  }

  predicate IsQuote(c: char) { c == '"' }

  function TrimLeft(s: string, cut: char -> bool): string {
    if s != [] && cut(s[0]) then TrimLeft(s[1..], cut) else s
  }

  function TrimRight(s: string, cut: char -> bool): string {
    if s != [] && cut(s[|s| - 1]) then TrimRight(s[..|s| - 1], cut) else s
  }

  function Trim(s: string, cut: char -> bool): string {
    TrimRight(TrimLeft(s, cut), cut)
  }

  function IndexOf(s: string, c: char): (i: nat)
    requires c in s
    ensures i < |s| && s[i] == c && c !in s[..i]
  {
    if s[0] == c then 0 else 1 + IndexOf(s[1..], c)
  }

  /** strings.SplitN for a one-character separator and n > 0. */
  function SplitN(s: string, sep: char, n: nat): (parts: seq<string>)
    requires n > 0
    ensures 1 <= |parts| <= n
    decreases n
  {
    if n == 1 || sep !in s then [s]
    else
      var i := IndexOf(s, sep);
      [s[..i]] + SplitN(s[i + 1..], sep, n - 1)
  }

  lemma SplitNAt(head: string, tail: string, sep: char, n: nat)
    requires n > 1 && sep !in head
    ensures SplitN(head + [sep] + tail, sep, n) == [head] + SplitN(tail, sep, n - 1)
  {
    var s := head + [sep] + tail;
    assert s[|head|] == sep;
    var i := IndexOf(s, sep);
    assert forall j :: 0 <= j < |head| ==> s[j] == head[j];
    assert forall j :: 0 <= j < i ==> s[..i][j] == s[j];
    assert s[..i] == head && s[i + 1..] == tail;
  }

  /** Trimming cuts a run of cut characters off each end, and as much of them as there is. */
  lemma TrimMeaning(s: string, cut: char -> bool) returns (a: nat, b: nat)
    ensures a <= b <= |s| && Trim(s, cut) == s[a..b]
    ensures forall i :: 0 <= i < a || b <= i < |s| ==> cut(s[i])
    ensures a < b ==> !cut(s[a]) && !cut(s[b - 1])
  {
    a := TrimLeftMeaning(s, cut);
    var n := TrimRightMeaning(s[a..], cut);
    b := a + n;
    assert forall i :: b <= i < |s| ==> s[i] == s[a..][i - a];
    assert s[a..][..n] == s[a..b];
    assert a < b ==> s[b - 1] == s[a..][n - 1];
  }

  lemma {:induction false} TrimLeftMeaning(s: string, cut: char -> bool) returns (a: nat)
    ensures a <= |s| && TrimLeft(s, cut) == s[a..]
    ensures (forall i :: 0 <= i < a ==> cut(s[i])) && (a < |s| ==> !cut(s[a]))
  {
    if s != [] && cut(s[0]) {
      a := TrimLeftMeaning(s[1..], cut);
      a := a + 1;
    } else {
      a := 0;
    }
  }

  lemma {:induction false} TrimRightMeaning(s: string, cut: char -> bool) returns (n: nat)
    ensures n <= |s| && TrimRight(s, cut) == s[..n]
    ensures (forall i :: n <= i < |s| ==> cut(s[i])) && (n > 0 ==> !cut(s[n - 1]))
  {
    if s != [] && cut(s[|s| - 1]) {
      n := TrimRightMeaning(s[..|s| - 1], cut);
    } else {
      n := |s|;
    }
  }

  /** Trimming a wrapped string strips the wrapping and goes on with the inside. */
  lemma {:induction false} TrimWrapped(s: string, c: char, cut: char -> bool)
    requires cut(c)
    ensures Trim([c] + s + [c], cut) == Trim(s, cut)
  {
    var w := [c] + s + [c];
    assert w[1..] == s + [c];
    TrimLeftSnoc(s, c, cut);
    var l := TrimLeft(s, cut);
    if l == [] {
      assert [c][..0] == [];
    } else {
      assert (l + [c])[..|l|] == l;
    }
  }

  lemma {:induction false} TrimLeftSnoc(s: string, c: char, cut: char -> bool)
    requires cut(c)
    ensures TrimLeft(s + [c], cut) == (if TrimLeft(s, cut) == [] then [] else TrimLeft(s, cut) + [c])
  {
    if s == [] {
      assert (s + [c])[1..] == [];
    } else if cut(s[0]) {
      assert (s + [c])[1..] == s[1..] + [c];
      TrimLeftSnoc(s[1..], c, cut);
    } else {
      assert (s + [c])[0] == s[0];
    }
  }

  /** Trimming changes nothing exactly when neither end may be cut. */
  lemma TrimIsIdentity(s: string, cut: char -> bool)
    ensures Trim(s, cut) == s <==> s == [] || (!cut(s[0]) && !cut(s[|s| - 1]))
  {
    TrimLeftShorter(s, cut);
    TrimRightShorter(TrimLeft(s, cut), cut);
  }

  lemma {:induction false} TrimLeftShorter(s: string, cut: char -> bool)
    ensures |TrimLeft(s, cut)| <= |s|
    ensures |TrimLeft(s, cut)| == |s| <==> s == [] || !cut(s[0])
  {
    if s != [] && cut(s[0]) {
      TrimLeftShorter(s[1..], cut);
    }
  }

  lemma {:induction false} TrimRightShorter(s: string, cut: char -> bool)
    ensures |TrimRight(s, cut)| <= |s|
    ensures |TrimRight(s, cut)| == |s| <==> s == [] || !cut(s[|s| - 1])
  {
    if s != [] && cut(s[|s| - 1]) {
      TrimRightShorter(s[..|s| - 1], cut);
    }
  }
}
