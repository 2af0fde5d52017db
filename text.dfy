/** String helpers standing in for the Ruby core methods the transforms call:
    `downcase`, `Integer#to_s`, `String#to_i`, `String#split`, `Array#join`,
    `String#<=>` and `Array#uniq.sort`. Strings are sequences of characters; case
    mapping covers ASCII letters only. */
module Text {

  predicate IsUpper(c: char) {
    'A' <= c <= 'Z'
  }

  predicate IsDigit(c: char) {
    '0' <= c <= '9'
  }

  function Lower(c: char): (r: char)
    ensures !IsUpper(r)
    ensures !IsUpper(c) ==> r == c
  {
    if IsUpper(c) then (c as int + 32) as char else c
  }

  predicate HasUpper(s: string) {
    exists i :: 0 <= i < |s| && IsUpper(s[i])
  }

  /** `s.downcase.gsub('_', '-')`: the identifier form required of secret parameter names. */
  function DashedLower(s: string): (r: string)
    ensures |r| == |s|
    ensures forall i :: 0 <= i < |r| ==> !IsUpper(r[i]) && r[i] != '_'
    ensures forall i :: 0 <= i < |s| && !IsUpper(s[i]) && s[i] != '_' ==> r[i] == s[i]
  {
    seq(|s|, i requires 0 <= i < |s| => if s[i] == '_' then '-' else Lower(s[i]))
  }

  // ---------------------------------------------------------------- decimal numbers

  function DigitChar(d: nat): (c: char)
    requires d < 10
    ensures IsDigit(c)
  {
    ('0' as int + d) as char
  }

  function DigitValue(c: char): (d: nat)
    requires IsDigit(c)
    ensures d < 10 && DigitChar(d) == c
  {
    c as int - '0' as int
  }

  /** `Integer#to_s` for a non-negative number. */
  function NatToDecimal(n: nat): (r: string)
    ensures 1 <= |r|
    ensures forall i :: 0 <= i < |r| ==> IsDigit(r[i])
    decreases n
  {
    if n < 10 then [DigitChar(n)] else NatToDecimal(n / 10) + [DigitChar(n % 10)]
  }

  /** `Integer#to_s`: a minus sign appears exactly for negative numbers. */
  function IntToDecimal(i: int): (r: string)
    ensures '-' in r <==> i < 0
  {
    if i < 0 then "-" + NatToDecimal(-i) else NatToDecimal(i)
  }

  /** The number that a string of decimal digits denotes. */
  function DecimalValue(ds: string): nat
    requires forall i :: 0 <= i < |ds| ==> IsDigit(ds[i])
  {
    if ds == [] then 0 else DecimalValue(ds[..|ds| - 1]) * 10 + DigitValue(ds[|ds| - 1])
  }

  /** Length of the longest prefix made of decimal digits. */
  function DigitPrefixLength(s: string): (k: nat)
    ensures k <= |s|
    ensures forall i :: 0 <= i < k ==> IsDigit(s[i])
    ensures k < |s| ==> !IsDigit(s[k])
  {
    if s == [] || !IsDigit(s[0]) then 0 else 1 + DigitPrefixLength(s[1..])
  }

  /** The blanks `String#to_i` skips before a number: space and the characters from tab to
      carriage return. */
  predicate IsBlank(c: char) {
    c == ' ' || '\t' <= c <= '\r'
  }

  /** The text after its leading blanks. */
  function SkipBlanks(s: string): (r: string)
    ensures |r| <= |s| && r == s[|s| - |r|..]
    ensures r != [] ==> !IsBlank(r[0])
  {
    if s != [] && IsBlank(s[0]) then SkipBlanks(s[1..]) else s
  }

  /** The value of the leading digits, 0 when there are none. */
  function Unsigned(s: string): nat {
    DecimalValue(s[..DigitPrefixLength(s)])
  }

  /** `String#to_i`: leading blanks are skipped, then an optional sign, then the leading
      digits count; 0 when there are none. A text without a minus sign reads as a natural
      number. */
  function ToI(s: string): (r: int)
    ensures '-' !in s ==> r >= 0
  {
    var t := SkipBlanks(s);
    assert forall i :: 0 <= i < |t| ==> t[i] == s[|s| - |t| + i];
    if t != [] && t[0] == '+' then Unsigned(t[1..])
    else if t != [] && t[0] == '-' then -(Unsigned(t[1..]) as int)
    else Unsigned(t)
  }

  lemma {:induction false} DecimalValueOfDecimal(n: nat)
    ensures DecimalValue(NatToDecimal(n)) == n
    decreases n
  {
    if n >= 10 {
      var r := NatToDecimal(n);
      assert r[..|r| - 1] == NatToDecimal(n / 10);
      DecimalValueOfDecimal(n / 10);
    }
  }

  /** `n.to_s.to_i == n` for every non-negative n. */
  lemma ToIOfDecimal(n: nat)
    ensures ToI(NatToDecimal(n)) == n
  {
    var r := NatToDecimal(n);
    ToIOfDigits(r);
    UnsignedOfDecimal(n);
  }

  /** A text that starts with a digit has no blanks or sign to skip. */
  lemma ToIOfDigits(t: string)
    requires t != [] && IsDigit(t[0])
    ensures ToI(t) == Unsigned(t)
  {
    assert SkipBlanks(t) == t;
  }

  /** Blanks before the number and a sign in front of its digits are read as Ruby reads
      them: `" +8".to_i == 8`, `"-8".to_i == -8`. */
  lemma ToIOfSigned(blanks: string, sign: char, n: nat)
    requires forall i :: 0 <= i < |blanks| ==> IsBlank(blanks[i])
    requires sign == '+' || sign == '-'
    ensures ToI(blanks + [sign] + NatToDecimal(n)) == if sign == '+' then n else -(n as int)
  {
    var d := NatToDecimal(n);
    var t := [sign] + d;
    SkipBlanksPrefix(blanks, t);
    assert blanks + [sign] + d == blanks + t;
    assert t[1..] == d;
    UnsignedOfDecimal(n);
  }

  lemma UnsignedOfDecimal(n: nat)
    ensures Unsigned(NatToDecimal(n)) == n
  {
    var r := NatToDecimal(n);
    assert r[..|r|] == r;
    DecimalValueOfDecimal(n);
  }

  lemma {:induction false} SkipBlanksPrefix(blanks: string, t: string)
    requires forall i :: 0 <= i < |blanks| ==> IsBlank(blanks[i])
    requires t != [] && !IsBlank(t[0])
    ensures SkipBlanks(blanks + t) == t
    decreases |blanks|
  {
    if blanks != [] {
      assert (blanks + t)[1..] == blanks[1..] + t;
      SkipBlanksPrefix(blanks[1..], t);
    }
  }

  // ---------------------------------------------------------------- split and join

  /** Every field of `s` between occurrences of `sep`, empty ones included. */
  function Fields(s: string, sep: char): (r: seq<string>)
    ensures |r| >= 1
    ensures forall i :: 0 <= i < |r| ==> sep !in r[i]
    decreases |s|
  {
    if s == [] then [""]
    else
      var rest := Fields(s[1..], sep);
      if s[0] == sep then [""] + rest else [[s[0]] + rest[0]] + rest[1..]
  }

  /** `Array#join(sep)`. */
  function Join(parts: seq<string>, sep: char): string
    decreases |parts|
  {
    if parts == [] then ""
    else if |parts| == 1 then parts[0]
    else parts[0] + [sep] + Join(parts[1..], sep)
  }

  function DropTrailingEmpty(fs: seq<string>): (r: seq<string>)
    ensures |r| <= |fs| && r == fs[..|r|]
    ensures r != [] ==> r[|r| - 1] != ""
    ensures forall i :: |r| <= i < |fs| ==> fs[i] == ""
  {
    if fs != [] && fs[|fs| - 1] == "" then DropTrailingEmpty(fs[..|fs| - 1]) else fs
  }

  /** `String#split(sep)` for a one-character separator: the fields, without the empty
      fields at the end. */
  function Split(s: string, sep: char): (r: seq<string>)
    ensures forall i :: 0 <= i < |r| ==> sep !in r[i]
    ensures r != [] ==> r[|r| - 1] != ""
  {
    DropTrailingEmpty(Fields(s, sep))
  }

  lemma {:induction false} JoinFields(s: string, sep: char)
    ensures Join(Fields(s, sep), sep) == s
    decreases |s|
  {
    if s != [] {
      var rest := Fields(s[1..], sep);
      JoinFields(s[1..], sep);
      if s[0] == sep {
        assert ([""] + rest)[1..] == rest;
      } else if |rest| > 1 {
        var fs := [[s[0]] + rest[0]] + rest[1..];
        assert fs[1..] == rest[1..];
        assert Join(rest, sep) == rest[0] + [sep] + Join(rest[1..], sep);
        assert s == [s[0]] + s[1..];
      } else {
        assert s == [s[0]] + s[1..];
      }
    }
  }

  lemma {:induction false} FieldsOfPrefix(p: string, t: string, sep: char)
    requires sep !in p
    ensures Fields(p + t, sep) == [p + Fields(t, sep)[0]] + Fields(t, sep)[1..]
    decreases |p|
  {
    if p == [] {
      assert p + t == t;
      var f := Fields(t, sep);
      assert f == [f[0]] + f[1..];
      assert p + f[0] == f[0];
    } else {
      assert (p + t)[1..] == p[1..] + t;
      assert (p + t)[0] == p[0];
      FieldsOfPrefix(p[1..], t, sep);
      assert [p[0]] + (p[1..] + Fields(t, sep)[0]) == p + Fields(t, sep)[0];
    }
  }

  lemma {:induction false} FieldsOfJoin(parts: seq<string>, sep: char)
    requires |parts| >= 1
    requires forall i :: 0 <= i < |parts| ==> sep !in parts[i]
    ensures Fields(Join(parts, sep), sep) == parts
    decreases |parts|
  {
    if |parts| == 1 {
      FieldsOfPrefix(parts[0], "", sep);
      assert parts[0] + "" == parts[0];
    } else {
      var t := Join(parts[1..], sep);
      FieldsOfJoin(parts[1..], sep);
      FieldsOfPrefix(parts[0], [sep] + t, sep);
      assert parts[0] + [sep] + t == parts[0] + ([sep] + t);
      assert ([sep] + t)[1..] == t;
      assert parts[0] + "" == parts[0];
      assert parts == [parts[0]] + parts[1..];
    }
  }

  /** Splitting a joined list gives the list back, provided no part holds the separator and
      the last part is not empty. */
  lemma SplitJoin(parts: seq<string>, sep: char)
    requires |parts| >= 1 && parts[|parts| - 1] != ""
    requires forall i :: 0 <= i < |parts| ==> sep !in parts[i]
    ensures Split(Join(parts, sep), sep) == parts
  {
    FieldsOfJoin(parts, sep);
  }

  // ---------------------------------------------------------------- ordering

  /** `a < b` under Ruby's `String#<=>`: lexicographic by character code (for UTF-8 text
      this is the same as comparing bytes). */
  predicate Below(a: string, b: string)
    decreases |a|
  {
    b != [] && (a == [] || a[0] < b[0] || (a[0] == b[0] && Below(a[1..], b[1..])))
  }

  lemma {:induction false} BelowIrreflexive(a: string)
    ensures !Below(a, a)
    decreases |a|
  {
    if a != [] {
      BelowIrreflexive(a[1..]);
    }
  }

  lemma {:induction false} BelowTransitive(a: string, b: string, c: string)
    requires Below(a, b) && Below(b, c)
    ensures Below(a, c)
    decreases |a|
  {
    if a != [] && a[0] == b[0] && b[0] == c[0] {
      BelowTransitive(a[1..], b[1..], c[1..]);
    }
  }

  lemma {:induction false} BelowTotal(a: string, b: string)
    requires a != b
    ensures Below(a, b) || Below(b, a)
    decreases |a|
  {
    if a != [] && b != [] && a[0] == b[0] {
      assert a == [a[0]] + a[1..] && b == [b[0]] + b[1..];
      BelowTotal(a[1..], b[1..]);
    }
  }

  /** Strictly increasing: sorted and free of duplicates. */
  predicate Ascending(xs: seq<string>) {
    forall i :: 0 <= i < |xs| - 1 ==> Below(xs[i], xs[i + 1])
  }

  lemma {:induction false} AscendingPair(xs: seq<string>, i: int, j: int)
    requires Ascending(xs) && 0 <= i < j < |xs|
    ensures Below(xs[i], xs[j])
    decreases j - i
  {
    if j > i + 1 {
      AscendingPair(xs, i + 1, j);
      BelowTransitive(xs[i], xs[i + 1], xs[j]);
    }
  }

  lemma AscendingDistinct(xs: seq<string>)
    requires Ascending(xs)
    ensures forall i, j :: 0 <= i < j < |xs| ==> xs[i] != xs[j]
  {
    forall i, j | 0 <= i < j < |xs| ensures xs[i] != xs[j] {
      AscendingPair(xs, i, j);
      BelowIrreflexive(xs[i]);
    }
  }

  /** Inserts `x` into an ascending list unless it is already there. */
  function Insert(x: string, xs: seq<string>): (r: seq<string>)
    requires Ascending(xs)
    ensures Ascending(r)
    ensures forall y :: y in r <==> y == x || y in xs
    ensures r != [] && (r[0] == x || (xs != [] && r[0] == xs[0]))
    decreases |xs|
  {
    if xs == [] then [x]
    else if x == xs[0] then xs
    else if Below(x, xs[0]) then [x] + xs
    else
      BelowTotal(x, xs[0]);
      var tail := Insert(x, xs[1..]);
      assert forall y :: y in xs <==> y == xs[0] || y in xs[1..] by {
        assert xs == [xs[0]] + xs[1..];
      }
      [xs[0]] + tail
  }

  /** `xs.uniq.sort`. */
  function UniqSort(xs: seq<string>): (r: seq<string>)
    ensures Ascending(r)
    ensures forall y :: y in r <==> y in xs
  {
    if xs == [] then []
    else
      var init := xs[..|xs| - 1];
      assert xs == init + [xs[|xs| - 1]];
      Insert(xs[|xs| - 1], UniqSort(init))
  }

  /** An ascending list is determined by its elements: whatever order the input of
      `uniq.sort` comes in, the result depends only on the set of names in it. */
  lemma {:induction false} AscendingDetermined(a: seq<string>, b: seq<string>)
    requires Ascending(a) && Ascending(b)
    requires forall y :: y in a <==> y in b
    ensures a == b
    decreases |a|
  {
    assert b != [] ==> b[0] in b;
    if a != [] {
      assert a[0] in b;
      assert b != [];
      assert b[0] in a;
      if a[0] != b[0] {
        var i :| 0 <= i < |a| && a[i] == b[0];
        var j :| 0 <= j < |b| && b[j] == a[0];
        AscendingPair(a, 0, i);
        AscendingPair(b, 0, j);
        BelowTransitive(a[0], b[0], a[0]);
        BelowIrreflexive(a[0]);
      }
      AscendingDistinct(a);
      AscendingDistinct(b);
      assert a[0] !in a[1..];
      assert b[0] !in b[1..];
      assert a == [a[0]] + a[1..];
      assert b == [b[0]] + b[1..];
      forall y ensures y in a[1..] <==> y in b[1..] {
        assert y in a <==> y == a[0] || y in a[1..];
        assert y in b <==> y == b[0] || y in b[1..];
      }
      AscendingDetermined(a[1..], b[1..]);
      assert a == [a[0]] + a[1..];
      assert b == [b[0]] + b[1..];
    }
  }
}
