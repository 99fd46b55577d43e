/** The legacy payload fingerprint: tagged, length-prefixed fields over UTF-8 text, and the
    proof that its bytes determine the fields. */
module Fingerprint {
  import opened Common

  type Bytes = seq<int>

  /** UTF-8 form of one character. */
  function Utf8Char(c: char): Bytes {
    var x := c as int;
    if x < 0x80 then [x]
    else if x < 0x800 then [0xC0 + x / 0x40, 0x80 + x % 0x40]
    else if x < 0x1_0000 then [0xE0 + x / 0x1000, 0x80 + x / 0x40 % 0x40, 0x80 + x % 0x40]
    else [0xF0 + x / 0x4_0000, 0x80 + x / 0x1000 % 0x40, 0x80 + x / 0x40 % 0x40, 0x80 + x % 0x40]
  }

  function Utf8(s: string): Bytes {
    if s == "" then [] else Utf8Char(s[0]) + Utf8(s[1..])
  }

  /** The byte length the service checks against its limits is the length of the UTF-8 form. */
  lemma {:induction false} ByteLengthIsUtf8Length(s: string)
    ensures ByteLength(s) == |Utf8(s)|
  {
    if s != "" { ByteLengthIsUtf8Length(s[1..]); }
  }

  /** binary.BigEndian.PutUint64, most significant byte first. */
  function BigEndian(value: int, n: nat): Bytes
    decreases n
  {
    if n == 0 then [] else BigEndian(value / 0x100, n - 1) + [value % 0x100]
  }

  /** uint64(value) of an int64 */
  function Unsigned(value: int): int {
    value % TWO_64
  }

  function AppendText(dst: Bytes, value: Option<string>): Bytes {
    if value.None? then dst + [0]
    else dst + [1] + BigEndian(|Utf8(value.value)|, 8) + Utf8(value.value)
  }

  function AppendNumber(dst: Bytes, value: Option<int>): Bytes {
    if value.None? then dst + [0]
    else dst + [1] + BigEndian(Unsigned(value.value), 8)
  }

  /** The fields the fingerprint covers. */
  datatype Fields = Fields(package: string, postedAt: int, hint: Option<int>,
                           title: Option<string>, text: Option<string>, bigText: Option<string>)

  function Encode(f: Fields): Bytes {
    var package := AppendText([], Some(f.package));
    var posted := AppendNumber(package, Some(f.postedAt));
    var hint := AppendNumber(posted, f.hint);
    var title := AppendText(hint, f.title);
    var text := AppendText(title, f.text);
    AppendText(text, f.bigText)
  }

  /** What the program's types guarantee: 64-bit numbers and text lengths. */
  predicate Storable(f: Fields) {
    && |Utf8(f.package)| <= MAX_INT64 && Int64(f.postedAt) && (f.hint.Some? ==> Int64(f.hint.value))
    && (f.title.Some? ==> |Utf8(f.title.value)| <= MAX_INT64)
    && (f.text.Some? ==> |Utf8(f.text.value)| <= MAX_INT64)
    && (f.bigText.Some? ==> |Utf8(f.bigText.value)| <= MAX_INT64)
  }

  // ----- Unique decodability -----

  /** The character a UTF-8 sequence stands for. */
  function CodePoint(u: Bytes): int {
    if |u| == 1 then u[0]
    else if |u| == 2 then (u[0] - 0xC0) * 0x40 + (u[1] - 0x80)
    else if |u| == 3 then (u[0] - 0xE0) * 0x1000 + (u[1] - 0x80) * 0x40 + (u[2] - 0x80)
    else if |u| == 4 then (u[0] - 0xF0) * 0x4_0000 + (u[1] - 0x80) * 0x1000 + (u[2] - 0x80) * 0x40 + (u[3] - 0x80)
    else -1
  }

  /** The length of a UTF-8 sequence is read off its first byte. */
  function SequenceLength(first: int): int {
    if first < 0x80 then 1 else if first < 0xE0 then 2 else if first < 0xF0 then 3 else 4
  }

  lemma SixBits(x: int)
    requires 0 <= x
    ensures x == x / 0x40 * 0x40 + x % 0x40
    ensures x / 0x1000 == x / 0x40 / 0x40 && x / 0x4_0000 == x / 0x1000 / 0x40
  {
  }

  lemma Utf8CharDecodes(c: char)
    ensures CodePoint(Utf8Char(c)) == c as int
    ensures |Utf8Char(c)| == SequenceLength(Utf8Char(c)[0])
  {
    var x := c as int;
    SixBits(x);
    SixBits(x / 0x40);
    SixBits(x / 0x1000);
  }

  /** UTF-8 is prefix-free: the first character can be read off the bytes. */
  lemma Utf8CharIsPrefixFree(a: char, b: char, x: Bytes, y: Bytes)
    requires Utf8Char(a) + x == Utf8Char(b) + y
    ensures a == b && x == y
  {
    var u, v := Utf8Char(a), Utf8Char(b);
    Utf8CharDecodes(a);
    Utf8CharDecodes(b);
    hide Utf8Char, CodePoint;
    assert u[0] == (u + x)[0] == (v + y)[0] == v[0];
    SplitAt(u, x, v, y);
    assert a as int == b as int;
  }

  lemma {:induction false} Utf8IsInjective(s: string, t: string)
    requires Utf8(s) == Utf8(t)
    ensures s == t
  {
    if s != "" && t != "" {
      Utf8CharIsPrefixFree(s[0], t[0], Utf8(s[1..]), Utf8(t[1..]));
      Utf8IsInjective(s[1..], t[1..]);
      assert s == [s[0]] + s[1..] && t == [t[0]] + t[1..];
    }
  }

  lemma {:induction false} BigEndianLength(value: int, n: nat)
    ensures |BigEndian(value, n)| == n
    decreases n
  {
    if n > 0 { BigEndianLength(value / 0x100, n - 1); }
  }

  function Pow256(n: nat): int {
    if n == 0 then 1 else 0x100 * Pow256(n - 1)
  }

  lemma {:induction false} BigEndianIsInjective(a: int, b: int, n: nat)
    requires 0 <= a < Pow256(n) && 0 <= b < Pow256(n) && BigEndian(a, n) == BigEndian(b, n)
    ensures a == b
    decreases n
  {
    if n > 0 {
      BigEndianLength(a / 0x100, n - 1);
      BigEndianLength(b / 0x100, n - 1);
      var x, y := BigEndian(a, n), BigEndian(b, n);
      assert x[n - 1] == a % 0x100 && y[n - 1] == b % 0x100;
      assert BigEndian(a / 0x100, n - 1) == x[..n - 1] == y[..n - 1] == BigEndian(b / 0x100, n - 1);
      BigEndianIsInjective(a / 0x100, b / 0x100, n - 1);
    }
  }

  lemma EightBytes()
    ensures Pow256(8) == TWO_64
  {
    assert Pow256(4) == 0x1_0000_0000;
    assert Pow256(8) == 0x100 * (0x100 * (0x100 * (0x100 * Pow256(4))));
  }

  lemma SplitAt(u: Bytes, x: Bytes, v: Bytes, y: Bytes)
    requires |u| == |v| && u + x == v + y
    ensures u == v && x == y
  {
    assert u == (u + x)[..|u|] == (v + y)[..|v|] == v;
    assert x == (u + x)[|u|..] == (v + y)[|v|..] == y;
  }

  lemma TagIsFirst(u: Bytes, x: Bytes, v: Bytes, y: Bytes)
    requires u != [] && v != [] && u + x == v + y
    ensures u[0] == v[0]
  {
    assert u[0] == (u + x)[0] == (v + y)[0] == v[0];
  }

  lemma TaggedSplit(p: Bytes, x: Bytes, q: Bytes, y: Bytes)
    requires |p| == |q| && ([1] + p) + x == ([1] + q) + y
    ensures p == q && x == y
  {
    SplitAt([1] + p, x, [1] + q, y);
    SplitAt([1], p, [1], q);
  }

  lemma UnsignedIsInjective(a: int, b: int)
    requires Int64(a) && Int64(b) && Unsigned(a) == Unsigned(b)
    ensures a == b
  {
    assert a - b == (a / TWO_64 - b / TWO_64) * TWO_64;
  }

  /** A number field followed by anything determines the number and what follows. */
  lemma NumberIsPrefixFree(a: Option<int>, b: Option<int>, x: Bytes, y: Bytes)
    requires a.Some? ==> Int64(a.value)
    requires b.Some? ==> Int64(b.value)
    requires AppendNumber([], a) + x == AppendNumber([], b) + y
    ensures a == b && x == y
  {
    hide BigEndian, Unsigned, Pow256;
    var u, v := AppendNumber([], a), AppendNumber([], b);
    TagIsFirst(u, x, v, y);
    if a.Some? {
      var m, n := Unsigned(a.value), Unsigned(b.value);
      BigEndianLength(m, 8);
      BigEndianLength(n, 8);
      assert u == [1] + BigEndian(m, 8) && v == [1] + BigEndian(n, 8);
      TaggedSplit(BigEndian(m, 8), x, BigEndian(n, 8), y);
      UnsignedRange(a.value);
      UnsignedRange(b.value);
      BigEndianIsInjective(m, n, 8);
      UnsignedIsInjective(a.value, b.value);
    } else {
      SplitAt(u, x, v, y);
    }
  }

  lemma UnsignedRange(a: int)
    ensures 0 <= Unsigned(a) < Pow256(8)
  {
    EightBytes();
  }

  /** So does a text field. */
  lemma TextIsPrefixFree(a: Option<string>, b: Option<string>, x: Bytes, y: Bytes)
    requires a.Some? ==> |Utf8(a.value)| <= MAX_INT64
    requires b.Some? ==> |Utf8(b.value)| <= MAX_INT64
    requires AppendText([], a) + x == AppendText([], b) + y
    ensures a == b && x == y
  {
    hide BigEndian, Utf8, Pow256;
    var u, v := AppendText([], a), AppendText([], b);
    TagIsFirst(u, x, v, y);
    if a.Some? {
      var s, t := Utf8(a.value), Utf8(b.value);
      BigEndianLength(|s|, 8);
      BigEndianLength(|t|, 8);
      Associative([1] + BigEndian(|s|, 8), s, x);
      Associative([1] + BigEndian(|t|, 8), t, y);
      assert u == ([1] + BigEndian(|s|, 8)) + s && v == ([1] + BigEndian(|t|, 8)) + t;
      TaggedSplit(BigEndian(|s|, 8), s + x, BigEndian(|t|, 8), t + y);
      EightBytes();
      BigEndianIsInjective(|s|, |t|, 8);
      SplitAt(s, x, t, y);
      Utf8IsInjective(a.value, b.value);
    } else {
      SplitAt(u, x, v, y);
    }
  }

  lemma AppendsAtTheEnd(dst: Bytes, text: Option<string>, number: Option<int>)
    ensures AppendText(dst, text) == dst + AppendText([], text)
    ensures AppendNumber(dst, number) == dst + AppendNumber([], number)
  {
    hide BigEndian, Utf8, Unsigned;
  }

  lemma Associative(a: Bytes, b: Bytes, c: Bytes)
    ensures (a + b) + c == a + (b + c)
  {
  }

  /** The encoding is the concatenation of the encoded fields. */
  lemma EncodeIsConcatenation(f: Fields)
    ensures Encode(f)
         == AppendText([], Some(f.package)) + (AppendNumber([], Some(f.postedAt)) + (AppendNumber([], f.hint)
      + (AppendText([], f.title) + (AppendText([], f.text) + AppendText([], f.bigText)))))
  {
    var p, n, h := AppendText([], Some(f.package)), AppendNumber([], Some(f.postedAt)), AppendNumber([], f.hint);
    var t, x, b := AppendText([], f.title), AppendText([], f.text), AppendText([], f.bigText);
    AppendsAtTheEnd(p, None, Some(f.postedAt));
    AppendsAtTheEnd(p + n, None, f.hint);
    AppendsAtTheEnd(p + n + h, f.title, None);
    AppendsAtTheEnd(p + n + h + t, f.text, None);
    AppendsAtTheEnd(p + n + h + t + x, f.bigText, None);
    hide AppendText, AppendNumber;
    assert Encode(f) == p + n + h + t + x + b;
    Associative(p + n + h + t, x, b);
    Associative(p + n + h, t, x + b);
    Associative(p + n, h, t + (x + b));
    Associative(p, n, h + (t + (x + b)));
  }

  // ----- What the bytes say -----

  /** The number whose bytes these are, most significant first. */
  function Denoted(bytes: Bytes): int {
    if bytes == [] then 0 else Denoted(bytes[..|bytes| - 1]) * 256 + bytes[|bytes| - 1]
  }

  lemma {:induction false} BigEndianDenotes(value: int, n: nat)
    requires 0 <= value < Pow256(n)
    ensures |BigEndian(value, n)| == n && Denoted(BigEndian(value, n)) == value
    decreases n
  {
    BigEndianLength(value, n);
    if n > 0 {
      BigEndianDenotes(value / 0x100, n - 1);
      var bytes := BigEndian(value, n);
      assert bytes[..|bytes| - 1] == BigEndian(value / 0x100, n - 1);
    }
  }

  /** A field that is there: a one, eight bytes of a number, and what follows. */
  predicate Tagged(bytes: Bytes, number: int, rest: Bytes) {
    && |bytes| == 9 + |rest| && bytes[0] == 1 && Denoted(bytes[1..9]) == number && bytes[9..] == rest
  }

  /** A text is a zero when there is none, else its byte length and its bytes. */
  predicate IsText(bytes: Bytes, text: Option<string>) {
    match text
    case None => bytes == [0]
    case Some(s) => Tagged(bytes, |Utf8(s)|, Utf8(s))
  }

  /** A number is a zero when there is none, else itself in two's complement. */
  predicate IsNumber(bytes: Bytes, number: Option<int>) {
    match number
    case None => bytes == [0]
    case Some(n) => Tagged(bytes, if n < 0 then n + 18446744073709551616 else n, [])
  }

  lemma FieldsAreTagged(text: Option<string>, number: Option<int>)
    requires text.Some? ==> |Utf8(text.value)| <= MAX_INT64
    requires number.Some? ==> Int64(number.value)
    ensures IsText(AppendText([], text), text) && IsNumber(AppendNumber([], number), number)
  {
    EightBytes();
    hide BigEndian, Utf8, Denoted, Pow256;
    if text.Some? {
      var length, s := BigEndian(|Utf8(text.value)|, 8), Utf8(text.value);
      BigEndianDenotes(|s|, 8);
      assert AppendText([], text) == [1] + length + s && ([1] + length + s)[1..9] == length;
    }
    if number.Some? {
      var bytes := BigEndian(Unsigned(number.value), 8);
      UnsignedRange(number.value);
      BigEndianDenotes(Unsigned(number.value), 8);
      assert AppendNumber([], number) == [1] + bytes && ([1] + bytes)[1..9] == bytes;
    }
  }

  /** The fingerprint's bytes are those of the app, the posting time, the hint, the title, the text and the big
      text, in this order. */
  lemma EncodeIsLaidOut(f: Fields) returns (parts: seq<Bytes>)
    requires Storable(f)
    ensures |parts| == 6 && Encode(f) == parts[0] + parts[1] + parts[2] + parts[3] + parts[4] + parts[5]
    ensures IsText(parts[0], Some(f.package)) && IsNumber(parts[1], Some(f.postedAt)) && IsNumber(parts[2], f.hint)
    ensures IsText(parts[3], f.title) && IsText(parts[4], f.text) && IsText(parts[5], f.bigText)
  {
    FieldsAreTagged(Some(f.package), Some(f.postedAt));
    FieldsAreTagged(f.title, f.hint);
    FieldsAreTagged(f.text, None);
    FieldsAreTagged(f.bigText, None);
    EncodeIsConcatenation(f);
    hide Encode, AppendText, AppendNumber, IsText, IsNumber;
    var p, n, h := AppendText([], Some(f.package)), AppendNumber([], Some(f.postedAt)), AppendNumber([], f.hint);
    var t, x, b := AppendText([], f.title), AppendText([], f.text), AppendText([], f.bigText);
    parts := [p, n, h, t, x, b];
    Associative(p + n + h + t, x, b);
    Associative(p + n + h, t, x + b);
    Associative(p + n, h, t + (x + b));
    Associative(p, n, h + (t + (x + b)));
  }

  /** The fingerprint bytes are uniquely decodable: equal bytes mean equal fields. */
  lemma EncodeIsInjective(f: Fields, g: Fields)
    requires Storable(f) && Storable(g) && Encode(f) == Encode(g)
    ensures f == g
  {
    EncodeIsConcatenation(f);
    EncodeIsConcatenation(g);
    hide Encode, AppendText, AppendNumber;
    var f5, g5 := AppendText([], f.bigText), AppendText([], g.bigText);
    var f4, g4 := AppendText([], f.text) + f5, AppendText([], g.text) + g5;
    var f3, g3 := AppendText([], f.title) + f4, AppendText([], g.title) + g4;
    var f2, g2 := AppendNumber([], f.hint) + f3, AppendNumber([], g.hint) + g3;
    var f1, g1 := AppendNumber([], Some(f.postedAt)) + f2, AppendNumber([], Some(g.postedAt)) + g2;
    TextIsPrefixFree(Some(f.package), Some(g.package), f1, g1);
    NumberIsPrefixFree(Some(f.postedAt), Some(g.postedAt), f2, g2);
    NumberIsPrefixFree(f.hint, g.hint, f3, g3);
    TextIsPrefixFree(f.title, g.title, f4, g4);
    TextIsPrefixFree(f.text, g.text, f5, g5);
    assert f5 == f5 + [] && g5 == g5 + [];
    TextIsPrefixFree(f.bigText, g.bigText, [], []);
  }
}
