/** The Option type every lookup and parse of the model returns. */
module Options {
  datatype Option<+T> = None | Some(value: T)
}

/** Maps built from a partial function, as a loop that fills a mutable map builds them. */
module Maps {
  import opened Options

  /** The defined values of `f` on `keys`, as a map. */
  function Collect<K(!new), V>(keys: set<K>, f: K -> Option<V>): (m: map<K, V>)
    ensures forall k :: k in m <==> k in keys && f(k).Some?
    ensures forall k :: k in m ==> m[k] == f(k).value
  {
    map k | k in keys && f(k).Some? :: f(k).value
  }

  /** Collecting over one more key adds at most that key. */
  lemma CollectAdd<K(!new), V>(keys: set<K>, k: K, f: K -> Option<V>)
    ensures f(k).Some? ==> Collect(keys + {k}, f) == Collect(keys, f)[k := f(k).value]
    ensures f(k).None? ==> Collect(keys + {k}, f) == Collect(keys, f)
  {
    var a, b := Collect(keys + {k}, f), Collect(keys, f);
    if f(k).Some? {
      assert a.Keys == b[k := f(k).value].Keys;
    } else {
      assert a.Keys == b.Keys;
    }
  }

  /** Collecting over one key. */
  lemma CollectOne<K(!new), V>(k: K, f: K -> Option<V>)
    requires f(k).Some?
    ensures Collect({k}, f) == map[k := f(k).value]
  {
    assert Collect({k}, f).Keys == {k};
  }
}

/**
 * The Kotlin string operations the screens rely on, restated over
 * `seq<char>`: `isBlank`, `trim`, `isDigit`, `toIntOrNull`, `Int.toString`,
 * `String.format("%0Nd")`, `"*".repeat(n)`, `uppercase()` and the
 * lexicographic order that `ORDER BY` and `sorted()` apply to text columns.
 */
module Text {
  import opened Options

  const IntMin: int := -0x8000_0000
  const IntMax: int := 0x7FFF_FFFF

  /** A Kotlin/JVM `Int`. */
  predicate IsInt32(x: int) { IntMin <= x <= IntMax }

  /** Two's-complement wrap-around of a mathematical integer to a JVM `Int`. */
  function Wrap32(x: int): (r: int)
    ensures IsInt32(r)
    ensures (r - x) % 0x1_0000_0000 == 0
    ensures IsInt32(x) ==> r == x
  {
    var m := (x - IntMin) % 0x1_0000_0000;
    m + IntMin
  }

  /** Kotlin's `Char.isWhitespace`: the JVM whitespace and space-separator characters. */
  predicate IsWhitespace(c: char) {
    c == ' ' || c == '\t' || c == '\n' || c == '\r' || c == '\U{0B}' || c == '\U{0C}'
    || ('\U{1C}' <= c <= '\U{1F}')
    || c == '\U{A0}' || c == '\U{1680}' || ('\U{2000}' <= c <= '\U{200A}')
    || c == '\U{2028}' || c == '\U{2029}' || c == '\U{202F}' || c == '\U{205F}' || c == '\U{3000}'
  }

  /** Kotlin's `isBlank`: empty or whitespace only. */
  predicate IsBlank(s: string) {
    forall i :: 0 <= i < |s| ==> IsWhitespace(s[i])
  }

  /** Kotlin's `trim()`: drops leading whitespace. */
  function TrimStart(s: string): string {
    if s != [] && IsWhitespace(s[0]) then TrimStart(s[1..]) else s
  }

  /** Kotlin's `trim()`: drops trailing whitespace. */
  function TrimEnd(s: string): string {
    if s != [] && IsWhitespace(s[|s| - 1]) then TrimEnd(s[..|s| - 1]) else s
  }

  /**
   * Kotlin's `trim()`. Its properties are the lemmas below rather than
   * postconditions, so that proofs about text that merely passes through
   * `trim` do not pay for them.
   */
  function Trim(s: string): string {
    TrimEnd(TrimStart(s))
  }

  /** Dropping leading whitespace leaves a suffix that starts with a non-whitespace character. */
  lemma {:induction false} TrimStartShape(s: string)
    ensures |TrimStart(s)| <= |s| && TrimStart(s) == s[|s| - |TrimStart(s)|..]
    ensures TrimStart(s) != [] ==> !IsWhitespace(TrimStart(s)[0])
    ensures forall i :: 0 <= i < |s| - |TrimStart(s)| ==> IsWhitespace(s[i])
  {
    if s != [] && IsWhitespace(s[0]) {
      var r := TrimStart(s[1..]);
      TrimStartShape(s[1..]);
      assert s[1..][|s| - 1 - |r|..] == s[|s| - |r|..];
      forall i | 1 <= i < |s| - |r| ensures IsWhitespace(s[i]) {
        assert s[i] == s[1..][i - 1];
      }
    }
  }

  /** Dropping trailing whitespace leaves a prefix that ends with a non-whitespace character. */
  lemma {:induction false} TrimEndShape(s: string)
    ensures |TrimEnd(s)| <= |s| && TrimEnd(s) == s[..|TrimEnd(s)|]
    ensures TrimEnd(s) != [] ==> !IsWhitespace(TrimEnd(s)[|TrimEnd(s)| - 1])
    ensures forall i :: |TrimEnd(s)| <= i < |s| ==> IsWhitespace(s[i])
  {
    if s != [] && IsWhitespace(s[|s| - 1]) {
      var r := TrimEnd(s[..|s| - 1]);
      TrimEndShape(s[..|s| - 1]);
      assert s[..|s| - 1][..|r|] == s[..|r|];
      forall i | |r| <= i < |s| - 1 ensures IsWhitespace(s[i]) {
        assert s[i] == s[..|s| - 1][i];
      }
    }
  }

  /**
   * `trim()` keeps an infix that neither starts nor ends with whitespace,
   * and it is empty exactly when the text is blank.
   */
  lemma TrimShape(s: string)
    ensures |Trim(s)| <= |s|
    ensures Trim(s) != [] ==> !IsWhitespace(Trim(s)[0]) && !IsWhitespace(Trim(s)[|Trim(s)| - 1])
    ensures Trim(s) == [] <==> IsBlank(s)
  {
    var t := TrimStart(s);
    TrimStartShape(s);
    TrimEndShape(t);
    var r := TrimEnd(t);
    if r != [] {
      assert r[0] == t[0];
    }
    if r == [] {
      assert t == [];
    } else {
      assert s[|s| - |t|] == t[0];
    }
  }

  /** Text that neither starts nor ends with whitespace is its own trim. */
  lemma TrimUnchanged(s: string)
    requires s != [] ==> !IsWhitespace(s[0]) && !IsWhitespace(s[|s| - 1])
    ensures Trim(s) == s
  {
    assert TrimStart(s) == s;
  }

  /** Trimming twice is trimming once. */
  lemma TrimIdempotent(s: string)
    ensures Trim(Trim(s)) == Trim(s)
  {
    TrimShape(s);
    TrimUnchanged(Trim(s));
  }

  /** `"c".repeat(n)`. */
  function Repeat(c: char, n: nat): (r: string)
    ensures |r| == n && forall i :: 0 <= i < n ==> r[i] == c
  {
    if n == 0 then [] else [c] + Repeat(c, n - 1)
  }

  /** `s.takeLast(n)`. */
  function TakeLast(s: string, n: nat): (r: string)
    ensures |r| == if n <= |s| then n else |s|
    ensures r == s[|s| - |r|..]
  {
    if n <= |s| then s[|s| - n..] else s
  }

  /** `s.take(n)`. */
  function Take<T>(s: seq<T>, n: nat): (r: seq<T>)
    ensures |r| == if n <= |s| then n else |s|
    ensures r == s[..|r|]
  {
    if n <= |s| then s[..n] else s
  }

  // ---------------------------------------------------------------- digits

  /** The ASCII decimal digits; Kotlin's `isDigit` also admits other Unicode digits. */
  predicate IsDigit(c: char) { '0' <= c <= '9' }

  predicate AllDigits(s: string) { forall i :: 0 <= i < |s| ==> IsDigit(s[i]) }

  function DigitValue(c: char): (d: nat)
    requires IsDigit(c)
    ensures d < 10
  {
    (c as int - '0' as int)
  }

  function DigitChar(d: nat): (c: char)
    requires d < 10
    ensures IsDigit(c) && DigitValue(c) == d
  {
    (d + '0' as int) as char
  }

  /** The value of a run of decimal digits, most significant first. */
  function DigitsValue(s: string): (v: nat)
    requires AllDigits(s)
  {
    if s == [] then 0 else DigitsValue(s[..|s| - 1]) * 10 + DigitValue(s[|s| - 1])
  }

  /** `n.toString()` for a non-negative number: shortest decimal, no sign. */
  function NatToString(n: nat): (s: string)
    ensures s != [] && AllDigits(s)
    ensures |s| > 1 ==> s[0] != '0'
  {
    if n < 10 then [DigitChar(n)] else NatToString(n / 10) + [DigitChar(n % 10)]
  }

  /** Kotlin's `Int.toString()`. */
  function IntToString(x: int): (s: string)
    ensures s != [] && !IsBlank(s)
  {
    var s := if x < 0 then "-" + NatToString(-x) else NatToString(x);
    assert !IsWhitespace(s[0]);
    s
  }

  /** `String.format("%0<width>d", x)`: zero-padded, the sign counted in the width. */
  function FormatZeroPadded(x: int, width: nat): (s: string)
    ensures |s| >= width
  {
    if x < 0 then
      var digits := NatToString(-x);
      "-" + Repeat('0', if |digits| + 1 < width then width - 1 - |digits| else 0) + digits
    else
      var digits := NatToString(x);
      Repeat('0', if |digits| < width then width - |digits| else 0) + digits
  }

  /**
   * Kotlin's `String.toIntOrNull()`: an optional sign followed by at least one
   * digit, whose value fits in an `Int`; anything else is null.
   */
  function ToIntOrNull(s: string): (r: Option<int>)
    ensures r.Some? ==> IsInt32(r.value) && !IsBlank(s)
  {
    if |s| == 0 then None
    else if s[0] == '-' || s[0] == '+' then
      if |s| == 1 || !AllDigits(s[1..]) then None
      else
        var v := if s[0] == '-' then -(DigitsValue(s[1..]) as int) else DigitsValue(s[1..]);
        if IsInt32(v) then Some(v) else None
    else if AllDigits(s) then
      var v := DigitsValue(s);
      assert !IsWhitespace(s[0]);
      if v <= IntMax then Some(v) else None
    else None
  }

  lemma {:induction false} DigitsOfNatToString(n: nat)
    ensures DigitsValue(NatToString(n)) == n
  {
    var s := NatToString(n);
    if n >= 10 {
      DigitsOfNatToString(n / 10);
      assert s[..|s| - 1] == NatToString(n / 10);
    }
  }

  lemma {:induction false} LeadingZerosIgnored(zeros: nat, s: string)
    requires AllDigits(s)
    ensures AllDigits(Repeat('0', zeros) + s)
    ensures DigitsValue(Repeat('0', zeros) + s) == DigitsValue(s)
    decreases zeros + |s|
  {
    var t := Repeat('0', zeros) + s;
    if s == [] {
      assert t == Repeat('0', zeros);
      if zeros > 0 {
        assert t[..|t| - 1] == Repeat('0', zeros - 1) + [];
        LeadingZerosIgnored(zeros - 1, []);
      }
    } else {
      assert t[..|t| - 1] == Repeat('0', zeros) + s[..|s| - 1];
      LeadingZerosIgnored(zeros, s[..|s| - 1]);
    }
  }

  /** Printing an `Int` and parsing it back gives the same `Int`. */
  lemma IntToStringRoundTrip(x: int)
    requires IsInt32(x)
    ensures ToIntOrNull(IntToString(x)) == Some(x)
  {
    var s := IntToString(x);
    if x < 0 {
      DigitsOfNatToString(-x);
      assert s[1..] == NatToString(-x);
    } else {
      DigitsOfNatToString(x);
    }
  }

  /** A zero-padded non-negative number reads back as that number. */
  lemma ZeroPaddedValue(x: nat, width: nat)
    ensures AllDigits(FormatZeroPadded(x, width))
    ensures DigitsValue(FormatZeroPadded(x, width)) == x
  {
    var digits := NatToString(x);
    DigitsOfNatToString(x);
    LeadingZerosIgnored(if |digits| < width then width - |digits| else 0, digits);
  }

  /** ASCII `uppercase()`: letters a-z become A-Z, every other character is kept. */
  function ToUpper(s: string): (r: string)
    ensures |r| == |s|
    ensures forall i :: 0 <= i < |s| ==> r[i] == if 'a' <= s[i] <= 'z' then (s[i] as int - 32) as char else s[i]
  {
    if s == [] then [] else [if 'a' <= s[0] <= 'z' then (s[0] as int - 32) as char else s[0]] + ToUpper(s[1..])
  }

  // ------------------------------------------------------------ text order

  /**
   * Lexicographic order on code points: SQLite's BINARY collation on the UTF-8
   * encoding and Kotlin's `String.compareTo` agree with it on text that has no
   * characters outside the Basic Multilingual Plane.
   */
  predicate LessEq(a: string, b: string) {
    a == [] || (b != [] && (a[0] < b[0] || (a[0] == b[0] && LessEq(a[1..], b[1..]))))
  }

  predicate Less(a: string, b: string) { LessEq(a, b) && a != b }

  lemma {:induction false} LessEqReflexive(a: string)
    ensures LessEq(a, a)
  {
    if a != [] { LessEqReflexive(a[1..]); }
  }

  lemma LessEqAntisymmetric(a: string, b: string)
    requires LessEq(a, b) && LessEq(b, a)
    ensures a == b
  {
    if a != [] && b != [] { LessEqAntisymmetric(a[1..], b[1..]); }
  }

  lemma LessEqTransitive(a: string, b: string, c: string)
    requires LessEq(a, b) && LessEq(b, c)
    ensures LessEq(a, c)
  {
    if a != [] && b != [] && c != [] && a[0] == b[0] && b[0] == c[0] {
      LessEqTransitive(a[1..], b[1..], c[1..]);
    }
  }

  lemma LessTransitive(a: string, b: string, c: string)
    requires Less(a, b) && LessEq(b, c)
    ensures Less(a, c)
  {
    LessEqTransitive(a, b, c);
    if a == c { LessEqAntisymmetric(a, b); }
  }

  lemma LessEqTotal(a: string, b: string)
    ensures LessEq(a, b) || LessEq(b, a)
  {
    if a != [] && b != [] && a[0] == b[0] { LessEqTotal(a[1..], b[1..]); }
  }
}
