/** Shared vocabulary of the PayGate model: optional values, results and errors,
    whitespace trimming and the int64 arithmetic of the original program. */
module Common {
  datatype Option<+T> = None | Some(value: T)

  datatype Result<+T, +E> = Ok(value: T) | Err(error: E)

  const MAX_INT64: int := 0x7FFF_FFFF_FFFF_FFFF
  const MIN_INT64: int := -0x8000_0000_0000_0000
  const TWO_64: int := 0x1_0000_0000_0000_0000

  predicate Int64(x: int) {
    MIN_INT64 <= x <= MAX_INT64
  }

  /** The zero time of the original program, in milliseconds. */
  const ZERO_INSTANT: int := -62135596800000

  /** The limit of a listing: 100 unless given, and at most 500. */
  function ClampLimit(limit: int): (k: nat)
    ensures 1 <= k <= 500
  {
    if limit <= 0 then 100 else if limit > 500 then 500 else limit
  }

  /** Two's complement wrap-around of a mathematical integer to 64 bits. */
  function Wrap64(x: int): int {
    var m := x % TWO_64;
    if m > MAX_INT64 then m - TWO_64 else m
  }

  predicate IsSpace(c: char) {
    c in {' ', '\t', '\n', '\r', '\U{000B}', '\U{000C}', '\U{0085}', '\U{00A0}', '\U{1680}',
          '\U{2028}', '\U{2029}', '\U{202F}', '\U{205F}', '\U{3000}'}
    || '\U{2000}' <= c <= '\U{200A}'
  }

  function TrimLeft(s: string): string {
    if s != "" && IsSpace(s[0]) then TrimLeft(s[1..]) else s
  }

  function TrimRight(s: string): string {
    if s != "" && IsSpace(s[|s| - 1]) then TrimRight(s[..|s| - 1]) else s
  }

  /** Removes leading and trailing white space. */
  function Trim(s: string): string {
    TrimRight(TrimLeft(s))
  }

  /** Number of bytes in the UTF-8 form of a string (the byte length a Go string reports). */
  function ByteLength(s: string): nat {
    if s == "" then 0
    else
      var c := s[0] as int;
      (if c < 0x80 then 1 else if c < 0x800 then 2 else if c < 0x1_0000 then 3 else 4) + ByteLength(s[1..])
  }

  /** Lower-cases the ASCII letters; the status words compared against are ASCII. */
  function ToLower(s: string): string {
    if s == "" then ""
    else
      [if 'A' <= s[0] <= 'Z' then (s[0] as int + 32) as char else s[0]] + ToLower(s[1..])
  }

  /** A text without surrounding white space and in lower case, as words are compared. */
  function Word(text: string): string {
    ToLower(Trim(text))
  }

  // ----- Trimming -----

  predicate AllSpace(s: string) {
    forall i :: 0 <= i < |s| ==> IsSpace(s[i])
  }

  predicate Tight(s: string) {
    s != "" && !IsSpace(s[0]) && !IsSpace(s[|s| - 1])
  }

  lemma {:induction false} TrimLeftOf(l: string, m: string)
    requires AllSpace(l) && (m == "" || !IsSpace(m[0]))
    ensures TrimLeft(l + m) == m
  {
    if l == "" {
      assert l + m == m;
    } else {
      assert (l + m)[0] == l[0] && (l + m)[1..] == l[1..] + m;
      TrimLeftOf(l[1..], m);
    }
  }

  lemma {:induction false} TrimRightOf(m: string, r: string)
    requires AllSpace(r) && (m == "" || !IsSpace(m[|m| - 1]))
    ensures TrimRight(m + r) == m
  {
    if r == "" {
      assert m + r == m;
    } else {
      assert (m + r)[|m + r| - 1] == r[|r| - 1] && (m + r)[..|m + r| - 1] == m + r[..|r| - 1];
      TrimRightOf(m, r[..|r| - 1]);
    }
  }

  lemma TrimOf(l: string, m: string, r: string)
    requires AllSpace(l) && AllSpace(r) && Tight(m)
    ensures Trim(l + m + r) == m
  {
    assert l + m + r == l + (m + r);
    TrimLeftOf(l, m + r);
    TrimRightOf(m, r);
  }

  lemma TrimOfSpace(s: string)
    requires AllSpace(s)
    ensures Trim(s) == ""
  {
    TrimLeftOf(s, "");
    assert s + "" == s;
  }

  /** Every text is white space, or white space around a tight core. */
  lemma {:induction false} Core(s: string) returns (l: string, m: string, r: string)
    requires !AllSpace(s)
    ensures s == l + m + r && AllSpace(l) && AllSpace(r) && Tight(m)
    ensures (l == "" <==> !IsSpace(s[0])) && (r == "" <==> !IsSpace(s[|s| - 1]))
    decreases |s|
  {
    if IsSpace(s[0]) {
      assert s == [s[0]] + s[1..];
      l, m, r := Core(s[1..]);
      l := [s[0]] + l;
    } else if IsSpace(s[|s| - 1]) {
      assert s == s[..|s| - 1] + [s[|s| - 1]];
      l, m, r := Core(s[..|s| - 1]);
      r := r + [s[|s| - 1]];
    } else {
      l, m, r := "", s, "";
    }
  }

  lemma TrimIsTight(s: string)
    ensures Trim(s) == "" || Tight(Trim(s))
  {
    if AllSpace(s) {
      TrimOfSpace(s);
    } else {
      var l, m, r := Core(s);
      TrimOf(l, m, r);
    }
  }

  lemma TightIsTrimmed(s: string)
    requires Tight(s)
    ensures Trim(s) == s
  {
    TrimOf("", s, "");
    assert "" + s + "" == s;
  }

  predicate NoUpperCase(s: string) {
    forall i :: 0 <= i < |s| ==> !('A' <= s[i] <= 'Z')
  }

  lemma {:induction false} LowerCaseStays(s: string)
    requires NoUpperCase(s)
    ensures ToLower(s) == s
  {
    if s != "" {
      LowerCaseStays(s[1..]);
    }
  }

  /** Lower-casing changes the ASCII capitals, one by one, and nothing else. */
  lemma {:induction false} LowerCaseOf(s: string)
    ensures |ToLower(s)| == |s|
    ensures forall i :: 0 <= i < |s| ==>
              ToLower(s)[i] as int == if 65 <= s[i] as int <= 90 then s[i] as int + 32 else s[i] as int
  {
    if s != "" {
      LowerCaseOf(s[1..]);
      assert forall i :: 0 < i < |s| ==> s[i] == s[1..][i - 1] && ToLower(s)[i] == ToLower(s[1..])[i - 1];
    }
  }

  lemma TrimTwice(s: string)
    ensures Trim(Trim(s)) == Trim(s)
  {
    TrimIsTight(s);
    if Trim(s) == "" { TrimOfSpace(""); } else { TightIsTrimmed(Trim(s)); }
  }

  /** White space is the Unicode property White_Space, by code point. */
  lemma WhiteSpaceIs(c: char)
    ensures IsSpace(c)
       <==> var x := c as int;
            || 9 <= x <= 13 || 8192 <= x <= 8202 || x == 8232 || x == 8233
            || x in {32, 133, 160, 5760, 8239, 8287, 12288}
  {
  }

  /** Wrapping changes a number by a multiple of 2 to the power of 64, into the 64-bit range. */
  lemma WrapsAround(x: int)
    ensures -9223372036854775808 <= Wrap64(x) <= 9223372036854775807 && (Wrap64(x) - x) % 18446744073709551616 == 0
  {
    assert Wrap64(x) - x == -(x / TWO_64) * TWO_64 || Wrap64(x) - x == -(x / TWO_64 + 1) * TWO_64;
  }

  lemma SingletonSet<T>(s: set<T>, x: T)
    requires |s| == 1 && x in s
    ensures s == {x}
  {
    assert |s - {x}| == 0;
    assert s == {x} + (s - {x});
  }

  lemma {:induction false} SubsetSize<T>(a: set<T>, b: set<T>)
    requires a <= b
    ensures |a| <= |b|
  {
    if a != {} {
      var x :| x in a;
      SubsetSize(a - {x}, b - {x});
    }
  }
}
