/**
 The texts `json.dumps` writes for strings, integers, string-valued objects and flat
 lists, and the fact the cache keys rest on: such a text can be read back in only one
 way, even with more text behind it.
 */
module JsonText {

  // -------------------------------------------------------------- characters

  function HexDigit(n: int): char
    requires 0 <= n < 16
  {
    if n < 10 then '0' + n as char else 'a' + (n - 10) as char
  }

  function Hex4(n: int): string
    requires 0 <= n < 0x10000
  {
    [HexDigit(n / 4096), HexDigit(n / 256 % 16), HexDigit(n / 16 % 16), HexDigit(n % 16)]
  }

  lemma HexDigitInjective(i: int, j: int)
    requires 0 <= i < 16 && 0 <= j < 16 && HexDigit(i) == HexDigit(j)
    ensures i == j
  {
  }

  lemma Digits(n: int)
    requires 0 <= n < 0x10000
    ensures n == 4096 * (n / 4096) + 256 * (n / 256 % 16) + 16 * (n / 16 % 16) + n % 16
  {
    var q := n / 16;
    assert n == 16 * q + n % 16;
    assert n / 256 == q / 16 && n / 4096 == q / 16 / 16;
  }

  lemma Hex4Injective(m: int, n: int)
    requires 0 <= m < 0x10000 && 0 <= n < 0x10000 && Hex4(m) == Hex4(n)
    ensures m == n
  {
    var a, b := Hex4(m), Hex4(n);
    assert a[0] == b[0] && a[1] == b[1] && a[2] == b[2] && a[3] == b[3];
    HexDigitInjective(m / 4096, n / 4096);
    HexDigitInjective(m / 256 % 16, n / 256 % 16);
    HexDigitInjective(m / 16 % 16, n / 16 % 16);
    HexDigitInjective(m % 16, n % 16);
    Digits(m);
    Digits(n);
  }

  /** The short escape of a character, if it has one. */
  function ShortEscape(c: char): string {
    if c == '\"' then "\\\"" else if c == '\\' then "\\\\"
    else if c == '\n' then "\\n" else if c == '\r' then "\\r" else if c == '\t' then "\\t"
    else if c as int == 8 then "\\b" else if c as int == 12 then "\\f"
    else ""
  }

  function High(n: int): int
    requires 0x10000 <= n < 0x110000
  {
    0xd800 + (n - 0x10000) / 0x400
  }

  function Low(n: int): int
    requires 0x10000 <= n < 0x110000
  {
    0xdc00 + (n - 0x10000) % 0x400
  }

  /** One character as `json.dumps` writes it: ASCII only, the rest as UTF-16 escapes. */
  function EscapeChar(c: char): string {
    var n := c as int;
    if ShortEscape(c) != "" then ShortEscape(c)
    else if ' ' <= c <= '~' then [c]
    else if n < 0x10000 then "\\u" + Hex4(n)
    else "\\u" + Hex4(High(n)) + "\\u" + Hex4(Low(n))
  }

  /** An escaped character never starts like the closing quote. */
  lemma EscapeStart(c: char)
    ensures |EscapeChar(c)| > 0 && EscapeChar(c)[0] != '\"'
    ensures EscapeChar(c)[0] == '\\' ==> |EscapeChar(c)| > 1
    ensures EscapeChar(c)[0] != '\\' ==> EscapeChar(c) == [c]
  {
  }

  predicate Unicode(c: char) {
    ShortEscape(c) == "" && !(' ' <= c <= '~')
  }

  lemma UnicodeStart(c: char)
    ensures Unicode(c) <==> |EscapeChar(c)| >= 6 && EscapeChar(c)[..2] == "\\u"
    ensures !Unicode(c) ==> |EscapeChar(c)| <= 2
    ensures Unicode(c) && c as int < 0x10000 ==> EscapeChar(c)[2..6] == Hex4(c as int)
    ensures Unicode(c) && c as int >= 0x10000 ==>
              && |EscapeChar(c)| == 12
              && EscapeChar(c)[2..6] == Hex4(High(c as int))
              && EscapeChar(c)[8..12] == Hex4(Low(c as int))
  {
  }

  /** No escaped character is the beginning of another: reading one off a text is unambiguous. */
  lemma EscapePrefixFree(c: char, d: char, x: string, y: string)
    requires EscapeChar(c) + x == EscapeChar(d) + y
    ensures c == d && x == y
  {
    var e, f, s := EscapeChar(c), EscapeChar(d), EscapeChar(c) + x;
    EscapeStart(c);
    EscapeStart(d);
    assert s[0] == e[0] == f[0];
    if e[0] == '\\' {
      EscapesDiffer(c, d, x, y);
    }
    assert x == s[|e|..] && y == s[|f|..];
  }

  /** UTF-16 is injective: surrogates stand for nothing but halves of a pair. */
  lemma Utf16Injective(c: char, d: char)
    requires c as int < 0x10000 && d as int < 0x10000 ==> Hex4(c as int) == Hex4(d as int)
    requires c as int < 0x10000 && d as int >= 0x10000 ==> Hex4(c as int) == Hex4(High(d as int))
    requires c as int >= 0x10000 && d as int < 0x10000 ==> Hex4(High(c as int)) == Hex4(d as int)
    requires c as int >= 0x10000 && d as int >= 0x10000 ==>
               Hex4(High(c as int)) == Hex4(High(d as int)) && Hex4(Low(c as int)) == Hex4(Low(d as int))
    ensures c == d
  {
    var m, n := c as int, d as int;
    if m < 0x10000 && n < 0x10000 {
      Hex4Injective(m, n);
    } else if m < 0x10000 {
      Hex4Injective(m, High(n));
    } else if n < 0x10000 {
      Hex4Injective(High(m), n);
    } else {
      Hex4Injective(High(m), High(n));
      Hex4Injective(Low(m), Low(n));
    }
  }

  lemma ShortEscapesDiffer(c: char, d: char)
    requires EscapeChar(c)[..1] == EscapeChar(d)[..1] == "\\"
    requires |EscapeChar(c)| > 1 && |EscapeChar(d)| > 1 && EscapeChar(c)[1] == EscapeChar(d)[1]
    ensures c == d || (Unicode(c) && Unicode(d))
  {
  }

  lemma EscapesDiffer(c: char, d: char, x: string, y: string)
    requires EscapeChar(c) + x == EscapeChar(d) + y
    requires EscapeChar(c)[0] == EscapeChar(d)[0] == '\\'
    ensures c == d
  {
    var e, f, s := EscapeChar(c), EscapeChar(d), EscapeChar(c) + x;
    EscapeStart(c);
    EscapeStart(d);
    assert s[1] == e[1] == f[1];
    ShortEscapesDiffer(c, d);
    if c != d {
      UnicodeStart(c);
      UnicodeStart(d);
      assert s[2..6] == e[2..6] == f[2..6];
      if c as int >= 0x10000 && d as int >= 0x10000 {
        assert s[8..12] == e[8..12] == f[8..12];
      }
      Utf16Injective(c, d);
    }
  }

  // ----------------------------------------------------------------- strings
  //
  // Each writer takes the text `k` that follows, so that reading back is by cases.

  /** Equal texts with heads of equal length have equal heads and equal tails. */
  lemma Cut(a: string, b: string, x: string, y: string)
    requires a + x == b + y && |a| == |b|
    ensures a == b && x == y
  {
    assert a == (a + x)[..|a|] && b == (b + y)[..|b|];
    assert x == (a + x)[|a|..] && y == (b + y)[|b|..];
  }

  function EscapedTo(s: string, k: string): string {
    if s == "" then "\"" + k else EscapeChar(s[0]) + EscapedTo(s[1..], k)
  }

  function StringTo(s: string, k: string): string {
    "\"" + EscapedTo(s, k)
  }

  lemma EscapedHead(s: string, k: string)
    ensures EscapedTo(s, k) != ""
    ensures s == "" <==> EscapedTo(s, k)[0] == '\"'
  {
    if s != "" { EscapeStart(s[0]); }
  }

  lemma {:induction false} EscapedPrefixFree(a: string, b: string, x: string, y: string)
    requires EscapedTo(a, x) == EscapedTo(b, y)
    ensures a == b && x == y
    decreases |a|
  {
    EscapedHead(a, x);
    EscapedHead(b, y);
    if a == "" {
      Cut("\"", "\"", x, y);
    } else {
      EscapePrefixFree(a[0], b[0], EscapedTo(a[1..], x), EscapedTo(b[1..], y));
      EscapedPrefixFree(a[1..], b[1..], x, y);
      Cons(a, b);
    }
  }

  lemma Cons<T>(a: seq<T>, b: seq<T>)
    requires a != [] && b != [] && a[0] == b[0] && a[1..] == b[1..]
    ensures a == b
  {
    assert a == [a[0]] + a[1..] && b == [b[0]] + b[1..];
  }

  lemma StringPrefixFree(a: string, b: string, x: string, y: string)
    requires StringTo(a, x) == StringTo(b, y)
    ensures a == b && x == y
  {
    Cut("\"", "\"", EscapedTo(a, x), EscapedTo(b, y));
    EscapedPrefixFree(a, b, x, y);
  }

  // ----------------------------------------------------- objects of strings

  type Pair = (string, string)

  /** A pair as `json.dumps` writes it with its default separators. */
  function PairTo(p: Pair, k: string): string {
    StringTo(p.0, ": " + StringTo(p.1, k))
  }

  /** What follows the first pair of an object. */
  function RestTo(ps: seq<Pair>, k: string): string {
    if ps == [] then "}" + k else ", " + PairTo(ps[0], RestTo(ps[1..], k))
  }

  function ObjectTo(ps: seq<Pair>, k: string): string {
    if ps == [] then "{}" + k else "{" + PairTo(ps[0], RestTo(ps[1..], k))
  }

  lemma PairPrefixFree(p: Pair, q: Pair, x: string, y: string)
    requires PairTo(p, x) == PairTo(q, y)
    ensures p == q && x == y
  {
    var x', y' := StringTo(p.1, x), StringTo(q.1, y);
    StringPrefixFree(p.0, q.0, ": " + x', ": " + y');
    Cut(": ", ": ", x', y');
    StringPrefixFree(p.1, q.1, x, y);
  }

  lemma {:induction false} RestPrefixFree(ps: seq<Pair>, qs: seq<Pair>, x: string, y: string)
    requires RestTo(ps, x) == RestTo(qs, y)
    ensures ps == qs && x == y
    decreases |ps|
  {
    assert RestTo(ps, x)[0] == if ps == [] then '}' else ',';
    assert RestTo(qs, y)[0] == if qs == [] then '}' else ',';
    if ps == [] {
      Cut("}", "}", x, y);
    } else {
      var x', y' := RestTo(ps[1..], x), RestTo(qs[1..], y);
      Cut(", ", ", ", PairTo(ps[0], x'), PairTo(qs[0], y'));
      PairPrefixFree(ps[0], qs[0], x', y');
      RestPrefixFree(ps[1..], qs[1..], x, y);
      Cons(ps, qs);
    }
  }

  /** An object's text can be told apart from whatever follows it. */
  lemma ObjectPrefixFree(ps: seq<Pair>, qs: seq<Pair>, x: string, y: string)
    requires ObjectTo(ps, x) == ObjectTo(qs, y)
    ensures ps == qs && x == y
  {
    assert ObjectTo(ps, x)[1] == if ps == [] then '}' else '\"';
    assert ObjectTo(qs, y)[1] == if qs == [] then '}' else '\"';
    if ps == [] {
      Cut("{}", "{}", x, y);
    } else {
      var x', y' := RestTo(ps[1..], x), RestTo(qs[1..], y);
      Cut("{", "{", PairTo(ps[0], x'), PairTo(qs[0], y'));
      PairPrefixFree(ps[0], qs[0], x', y');
      RestPrefixFree(ps[1..], qs[1..], x, y);
      Cons(ps, qs);
    }
  }

  // ------------------------------------------------------------------ integers

  predicate IsDigit(c: char) {
    '0' <= c <= '9'
  }

  function Decimal(n: nat): (s: string)
    ensures |s| > 0 && forall i :: 0 <= i < |s| ==> IsDigit(s[i])
  {
    if n < 10 then [HexDigit(n)] else Decimal(n / 10) + [HexDigit(n % 10)]
  }

  lemma {:induction false} DecimalInjective(m: nat, n: nat)
    requires Decimal(m) == Decimal(n)
    ensures m == n
  {
    var s := Decimal(m);
    assert s[|s| - 1] == HexDigit(m % 10) == HexDigit(n % 10);
    HexDigitInjective(m % 10, n % 10);
    if m >= 10 && n >= 10 {
      assert Decimal(m / 10) == s[..|s| - 1] == Decimal(n / 10);
      DecimalInjective(m / 10, n / 10);
    }
  }

  predicate NoDigitFirst(x: string) {
    x == "" || !IsDigit(x[0])
  }

  /** The digits of a number end where its text ends. */
  lemma DigitsEnd(a: string, b: string, x: string, y: string)
    requires a + x == b + y && NoDigitFirst(x)
    requires forall i :: 0 <= i < |b| ==> IsDigit(b[i])
    ensures |a| >= |b|
  {
    var s := a + x;
    assert |a| < |s| ==> s[|a|] == x[0];
    assert forall k :: 0 <= k < |b| ==> s[k] == b[k];
  }

  lemma DecimalPrefixFree(m: nat, n: nat, x: string, y: string)
    requires Decimal(m) + x == Decimal(n) + y && NoDigitFirst(x) && NoDigitFirst(y)
    ensures m == n && x == y
  {
    DigitsEnd(Decimal(m), Decimal(n), x, y);
    DigitsEnd(Decimal(n), Decimal(m), y, x);
    Cut(Decimal(m), Decimal(n), x, y);
    DecimalInjective(m, n);
  }

  // --------------------------------------------------- flat lists of scalars

  /** The items a public batch endpoint accepts. */
  datatype Item = Num(n: int) | Str(s: string)

  function ItemTo(i: Item, k: string): string {
    match i
    case Num(n) => if n >= 0 then Decimal(n) + k else "-" + (Decimal(-n) + k)
    case Str(s) => StringTo(s, k)
  }

  lemma ItemHead(i: Item, k: string)
    ensures ItemTo(i, k) != ""
    ensures var c := ItemTo(i, k)[0];
            if i.Str? then c == '\"' else if i.n < 0 then c == '-' else IsDigit(c)
  {
  }

  lemma ItemPrefixFree(i: Item, j: Item, x: string, y: string)
    requires ItemTo(i, x) == ItemTo(j, y) && NoDigitFirst(x) && NoDigitFirst(y)
    ensures i == j && x == y
  {
    ItemHead(i, x);
    ItemHead(j, y);
    match (i, j)
    case (Str(s), Str(t)) => StringPrefixFree(s, t, x, y);
    case (Num(m), Num(n)) =>
      if m >= 0 {
        DecimalPrefixFree(m, n, x, y);
      } else {
        Cut("-", "-", Decimal(-m) + x, Decimal(-n) + y);
        DecimalPrefixFree(-m, -n, x, y);
      }
    case _ =>
  }

  /** An item by itself: the sort key and the duplicate marker of the source. */
  function DumpItem(i: Item): string {
    ItemTo(i, "")
  }

  lemma ItemInjective(i: Item, j: Item)
    requires DumpItem(i) == DumpItem(j)
    ensures i == j
  {
    ItemPrefixFree(i, j, "", "");
  }

  /** What follows the first item of a list, compact separators. */
  function DumpMore(items: seq<Item>): string {
    if items == [] then "]" else "," + ItemTo(items[0], DumpMore(items[1..]))
  }

  function DumpList(items: seq<Item>): string {
    if items == [] then "[]" else "[" + ItemTo(items[0], DumpMore(items[1..]))
  }

  lemma {:induction false} MoreInjective(xs: seq<Item>, ys: seq<Item>)
    requires DumpMore(xs) == DumpMore(ys)
    ensures xs == ys
    decreases |xs|
  {
    assert DumpMore(xs)[0] == if xs == [] then ']' else ',';
    assert DumpMore(ys)[0] == if ys == [] then ']' else ',';
    if xs != [] {
      var x, y := DumpMore(xs[1..]), DumpMore(ys[1..]);
      Cut(",", ",", ItemTo(xs[0], x), ItemTo(ys[0], y));
      ItemPrefixFree(xs[0], ys[0], x, y);
      MoreInjective(xs[1..], ys[1..]);
      Cons(xs, ys);
    }
  }

  /** A batch is determined by its text. */
  lemma ListInjective(xs: seq<Item>, ys: seq<Item>)
    requires DumpList(xs) == DumpList(ys)
    ensures xs == ys
  {
    if xs != [] { ItemHead(xs[0], DumpMore(xs[1..])); }
    if ys != [] { ItemHead(ys[0], DumpMore(ys[1..])); }
    assert xs == [] <==> DumpList(xs)[1] == ']';
    assert ys == [] <==> DumpList(ys)[1] == ']';
    if xs != [] {
      var x, y := DumpMore(xs[1..]), DumpMore(ys[1..]);
      Cut("[", "[", ItemTo(xs[0], x), ItemTo(ys[0], y));
      ItemPrefixFree(xs[0], ys[0], x, y);
      MoreInjective(xs[1..], ys[1..]);
      Cons(xs, ys);
    }
  }

  // ----------------------------------------------------------- what the texts say

  function HexValue(c: char): int {
    if '0' <= c <= '9' then c as int - '0' as int
    else if 'a' <= c <= 'f' then c as int - 'a' as int + 10
    else -1
  }

  /** Four lower-case hexadecimal digits that stand for n. */
  predicate Hex4Reads(h: string, n: int) {
    && |h| == 4 && (forall i :: 0 <= i < 4 ==> HexValue(h[i]) >= 0)
    && n == 4096 * HexValue(h[0]) + 256 * HexValue(h[1]) + 16 * HexValue(h[2]) + HexValue(h[3])
  }

  lemma Hex4IsRead(n: int)
    requires 0 <= n < 0x10000
    ensures Hex4Reads(Hex4(n), n)
  {
    Digits(n);
    assert forall d :: 0 <= d < 16 ==> HexValue(HexDigit(d)) == d;
  }

  /**
   An escaped character stands for itself: quote, backslash and five control characters
   by their short escapes, printable ASCII as it is, any other by its code point or by
   the surrogate pair of it.
   */
  lemma EscapeReads(c: char)
    ensures c == '\"' ==> EscapeChar(c) == "\\\""
    ensures c == '\\' ==> EscapeChar(c) == "\\\\"
    ensures c == '\n' ==> EscapeChar(c) == "\\n"
    ensures c == '\r' ==> EscapeChar(c) == "\\r"
    ensures c == '\t' ==> EscapeChar(c) == "\\t"
    ensures c as int == 8 ==> EscapeChar(c) == "\\b"
    ensures c as int == 12 ==> EscapeChar(c) == "\\f"
    ensures ' ' <= c <= '~' && c != '\"' && c != '\\' ==> EscapeChar(c) == [c]
    ensures (c as int < 32 && c != '\n' && c != '\r' && c != '\t' && c as int != 8 && c as int != 12)
            || 126 < c as int < 0x10000 ==>
              |EscapeChar(c)| == 6 && EscapeChar(c)[..2] == "\\u" && Hex4Reads(EscapeChar(c)[2..], c as int)
    ensures c as int >= 0x10000 ==>
              && |EscapeChar(c)| == 12 && EscapeChar(c)[..2] == "\\u" == EscapeChar(c)[6..8]
              && exists hi, lo :: Hex4Reads(EscapeChar(c)[2..6], hi) && Hex4Reads(EscapeChar(c)[8..], lo)
                   && 0xd800 <= hi < 0xdc00 <= lo < 0xe000
                   && c as int == 0x10000 + 0x400 * (hi - 0xd800) + (lo - 0xdc00)
  {
    var n := c as int;
    if n < 0x10000 {
      Hex4IsRead(n);
      assert ("\\u" + Hex4(n))[2..] == Hex4(n);
    } else {
      Hex4IsRead(High(n));
      Hex4IsRead(Low(n));
      var text := "\\u" + Hex4(High(n)) + "\\u" + Hex4(Low(n));
      assert text[2..6] == Hex4(High(n)) && text[8..] == Hex4(Low(n)) && text[..2] == "\\u" == text[6..8];
    }
  }

  /** The number that decimal digits stand for. */
  function DigitsValue(s: string): int {
    if s == "" then 0 else 10 * DigitsValue(s[..|s| - 1]) + HexValue(s[|s| - 1])
  }

  /** A number is written in decimal digits, without a leading zero. */
  lemma {:induction false} DecimalReads(n: nat)
    ensures DigitsValue(Decimal(n)) == n && (n > 0 ==> Decimal(n)[0] != '0')
  {
    if n >= 10 {
      DecimalReads(n / 10);
      assert Decimal(n)[..|Decimal(n)| - 1] == Decimal(n / 10);
      assert n / 10 > 0 && Decimal(n)[0] == Decimal(n / 10)[0];
      assert HexValue(HexDigit(n % 10)) == n % 10;
    }
  }

  /** A list is its items between brackets, with a comma and nothing else between them. */
  lemma ListExample(n: int, c: char)
    requires 0 < n < 10 && 'a' <= c <= 'z'
    ensures DumpList([]) == "[]"
    ensures DumpList([Num(-n), Str([c])]) == "[" + ("-" + ([HexDigit(n)] + ("," + (['\"', c, '\"'] + "]"))))
  {
    var last := [Str([c])];
    assert [Num(-n), Str([c])][1..] == last && last[1..] == [];
    OneLetter(c, "]");
    assert DumpMore([]) == "]";
    assert DumpMore(last) == "," + (['\"', c, '\"'] + "]");
    assert ItemTo(Num(-n), DumpMore(last)) == "-" + ([HexDigit(n)] + DumpMore(last));
  }

  /** An object has a space after each comma and each colon. */
  lemma ObjectExample(c: char, v: char, d: char, w: char)
    requires 'a' <= c <= 'z' && 'a' <= v <= 'z' && 'a' <= d <= 'z' && 'a' <= w <= 'z'
    ensures ObjectTo([([c], [v]), ([d], [w])], "")
            == "{" + (['\"', c, '\"', ':', ' ', '\"', v, '\"']
                      + (", " + (['\"', d, '\"', ':', ' ', '\"', w, '\"'] + "}")))
  {
    var last := [([d], [w])];
    assert [([c], [v]), ([d], [w])][1..] == last && last[1..] == [];
    assert RestTo([], "") == "}";
    OnePair(d, w, "}");
    OnePair(c, v, RestTo(last, ""));
  }

  lemma OnePair(c: char, v: char, k: string)
    requires 'a' <= c <= 'z' && 'a' <= v <= 'z'
    ensures PairTo(([c], [v]), k) == ['\"', c, '\"', ':', ' ', '\"', v, '\"'] + k
  {
    OneLetter(v, k);
    OneLetter(c, ": " + StringTo([v], k));
  }

  lemma OneLetter(c: char, k: string)
    requires 'a' <= c <= 'z'
    ensures StringTo([c], k) == ['\"', c, '\"'] + k
  {
    assert ShortEscape(c) == "" && EscapeChar(c) == [c];
    assert [c][1..] == "" && EscapedTo("", k) == "\"" + k;
    assert EscapedTo([c], k) == [c] + ("\"" + k);
  }
}
