/** Decimal money: parsing rupee texts to paise and printing paise, at the byte of the text. */
module Money {
  import opened Common

  // ----- Text pieces -----

  predicate IsDigit(c: char) {
    '0' <= c <= '9'
  }

  function DigitValue(c: char): nat
    requires IsDigit(c)
  {
    c as int - '0' as int
  }

  predicate Digits(s: string) {
    s != "" && forall i :: 0 <= i < |s| ==> IsDigit(s[i])
  }

  /** The number a digit string denotes. */
  function Value(s: string): nat
    requires forall i :: 0 <= i < |s| ==> IsDigit(s[i])
  {
    if s == "" then 0 else Value(s[..|s| - 1]) * 10 + DigitValue(s[|s| - 1])
  }

  /** strconv.ParseInt on what the patterns let through: digits, or a range error. */
  function ParseInt(s: string): Option<int>
    requires Digits(s)
  {
    if Value(s) > MAX_INT64 then None else Some(Value(s))
  }

  function RemoveCommas(s: string): string {
    if s == "" then "" else (if s[0] == ',' then "" else [s[0]]) + RemoveCommas(s[1..])
  }

  function IndexOf(s: string, c: char): (n: nat)
    ensures n <= |s| && (n < |s| ==> s[n] == c) && forall i :: 0 <= i < n ==> s[i] != c
  {
    if s == "" || s[0] == c then 0 else 1 + IndexOf(s[1..], c)
  }

  // ----- Parsing -----

  const MAX_REQUESTED_RUPEES: int := (MAX_INT64 - 99) / 100

  /** ^[0-9]+(?:\.[0-9]{1,2})?$ */
  predicate PaisaAmount(s: string) {
    var dot := IndexOf(s, '.');
    Digits(s[..dot]) && (dot == |s| || (Digits(s[dot + 1..]) && |s[dot + 1..]| <= 2))
  }

  /** What the pattern is matched against. */
  function Cleaned(text: string): string {
    RemoveCommas(Trim(text))
  }

  function ParseAmount(text: string): Option<int> {
    var s := Cleaned(text);
    if !PaisaAmount(s) then None
    else
      var dot := IndexOf(s, '.');
      var rupees := ParseInt(s[..dot]);
      if rupees.None? || rupees.value > MAX_REQUESTED_RUPEES then None
      else if dot == |s| then Some(Wrap64(rupees.value * 100))
      else
        var fraction := if |s[dot + 1..]| == 1 then s[dot + 1..] + "0" else s[dot + 1..];
        Some(Wrap64(rupees.value * 100 + Value(fraction)))
  }

  datatype AmountError = Malformed | Unrecognized | NonPayGateAmount

  /** parsePayGateAmount: only amounts with paise can belong to a payment. */
  function ParsePayGateAmount(text: string): Result<int, AmountError> {
    match ParseAmount(text)
    case None => Err(Malformed)
    case Some(amount) =>
      if amount <= 0 then Err(Unrecognized)
      else if amount % 100 == 0 then Err(NonPayGateAmount)
      else Ok(amount)
  }

  /** The decoded text of a whole-rupee request: ^[1-9][0-9]*$, within range. */
  function ParseWholeRupees(text: string): Option<int> {
    var s := Trim(text);
    if !Digits(s) || s[0] == '0' || ParseInt(s).None? || ParseInt(s).value > MAX_REQUESTED_RUPEES then None
    else ParseInt(s)
  }

  function RupeesToPaise(rupees: int): Option<int> {
    if rupees <= 0 || rupees > MAX_REQUESTED_RUPEES then None else Some(Wrap64(rupees * 100))
  }

  // ----- Printing -----

  function Decimal(n: nat): string {
    var digit := [(n % 10 + '0' as int) as char];
    if n < 10 then digit else Decimal(n / 10) + digit
  }

  function FormatInt(n: int): string {
    if n < 0 then "-" + Decimal(-n) else Decimal(n)
  }

  /** %02d */
  function Padded(n: int): string {
    if 0 <= n < 10 then "0" + FormatInt(n) else FormatInt(n)
  }

  /** The quotient and remainder of Go, which truncate toward zero. */
  function Quotient(n: int): int {
    if n < 0 then -(-n / 100) else n / 100
  }

  /** FormatPaise and moneyString. */
  function FormatPaise(paise: int): string {
    FormatInt(Quotient(paise)) + "." + Padded(paise - Quotient(paise) * 100)
  }

  // ----- Commas -----

  lemma {:induction false} RemoveCommasOfConcat(a: string, b: string)
    ensures RemoveCommas(a + b) == RemoveCommas(a) + RemoveCommas(b)
  {
    if a == "" {
      assert a + b == b;
    } else {
      assert (a + b)[0] == a[0] && (a + b)[1..] == a[1..] + b;
      RemoveCommasOfConcat(a[1..], b);
    }
  }

  lemma {:induction false} RemoveCommasKeeps(s: string, c: char)
    requires c != ','
    ensures c in RemoveCommas(s) <==> c in s
  {
    if s != "" {
      RemoveCommasKeeps(s[1..], c);
      assert s == [s[0]] + s[1..];
    }
  }

  /** A comma put there keeps white space from being trimmed away. */
  predicate Strands(a: string, b: string) {
    || (AllSpace(a) && b != "" && IsSpace(b[0]))
    || (AllSpace(b) && a != "" && IsSpace(a[|a| - 1]))
  }

  lemma SpaceIsMalformed(s: string, c: char)
    requires c in s && IsSpace(c)
    ensures !PaisaAmount(s)
  {
    var i :| 0 <= i < |s| && s[i] == c;
    var dot := IndexOf(s, '.');
    if i < dot { assert s[..dot][i] == c; }
    if i > dot { assert s[dot + 1..][i - dot - 1] == c; }
  }

  lemma {:induction false} CommaBetween(u: string, v: string)
    ensures RemoveCommas(u + "," + v) == RemoveCommas(u + v)
  {
    RemoveCommasOfConcat(u + ",", v);
    RemoveCommasOfConcat(u, ",");
    RemoveCommasOfConcat(u, v);
    assert RemoveCommas(",") == "";
  }

  /** A text split where its leading, and one where its trailing white space ends. */
  lemma Front(a: string) returns (l: string, u: string)
    requires !AllSpace(a)
    ensures a == l + u && AllSpace(l) && u != "" && !IsSpace(u[0])
  {
    var x, m, r := Core(a);
    l, u := x, m + r;
    assert a == l + u;
  }

  lemma Back(b: string) returns (v: string, r: string)
    requires !AllSpace(b)
    ensures b == v + r && AllSpace(r) && v != "" && !IsSpace(v[|v| - 1])
  {
    var l, m, x := Core(b);
    v, r := l + m, x;
  }

  lemma CommaInside(a: string, b: string)
    requires !AllSpace(a) && !AllSpace(b)
    ensures Cleaned(a + "," + b) == Cleaned(a + b)
  {
    var l, u := Front(a);
    var v, r := Back(b);
    hide AllSpace, IsSpace, RemoveCommas, Trim;
    assert a + "," + b == l + (u + "," + v) + r;
    assert a + b == l + (u + v) + r;
    TrimOf(l, u + "," + v, r);
    TrimOf(l, u + v, r);
    CommaBetween(u, v);
  }

  lemma CommaInFront(a: string, b: string)
    requires AllSpace(a) && !AllSpace(b)
    ensures if IsSpace(b[0]) then ParseAmount(a + "," + b) == None else Cleaned(a + "," + b) == Cleaned(a + b)
  {
    var l, m, r := Core(b);
    assert a + "," + b == a + ("," + l + m) + r;
    assert a + b == (a + l) + m + r;
    TrimOf(a, "," + l + m, r);
    TrimOf(a + l, m, r);
    assert "," + l + m == "," + (l + m);
    RemoveCommasOfConcat(",", l + m);
    assert RemoveCommas(",") == "";
    assert Cleaned(a + "," + b) == RemoveCommas(l + m);
    if IsSpace(b[0]) {
      assert (l + m)[0] == b[0];
      RemoveCommasKeeps(l + m, b[0]);
      SpaceIsMalformed(RemoveCommas(l + m), b[0]);
    } else {
      assert l + m == m;
    }
  }

  lemma CommaBehind(a: string, b: string)
    requires !AllSpace(a) && AllSpace(b)
    ensures if IsSpace(a[|a| - 1]) then ParseAmount(a + "," + b) == None else Cleaned(a + "," + b) == Cleaned(a + b)
  {
    var l, m, r := Core(a);
    assert a + "," + b == l + (m + r + ",") + b;
    assert a + b == l + m + (r + b);
    TrimOf(l, m + r + ",", b);
    TrimOf(l, m, r + b);
    RemoveCommasOfConcat(m + r, ",");
    assert RemoveCommas(",") == "";
    assert Cleaned(a + "," + b) == RemoveCommas(m + r);
    if IsSpace(a[|a| - 1]) {
      assert (m + r)[|m + r| - 1] == a[|a| - 1];
      RemoveCommasKeeps(m + r, a[|a| - 1]);
      SpaceIsMalformed(RemoveCommas(m + r), a[|a| - 1]);
    } else {
      assert m + r == m;
    }
  }

  lemma CommaAlone(a: string, b: string)
    requires AllSpace(a) && AllSpace(b)
    ensures ParseAmount(a + "," + b) == None == ParseAmount(a + b)
  {
    TrimOf(a, ",", b);
    TrimOfSpace(a + b);
    assert RemoveCommas(",") == "" && RemoveCommas("") == "";
  }

  /** Commas are ignored: one more, anywhere, changes the amount read from a text exactly when it
      strands white space that would otherwise have been trimmed; then the text is refused. */
  lemma CommasAreIgnoredIff(a: string, b: string)
    ensures ParseAmount(a + "," + b) == ParseAmount(a + b) <==> !Strands(a, b) || ParseAmount(a + b).None?
    ensures Strands(a, b) ==> ParseAmount(a + "," + b).None?
  {
    hide Cleaned, PaisaAmount, AllSpace, Trim;
    if AllSpace(a) {
      if AllSpace(b) { CommaAlone(a, b); } else { NotAllSpace(b); CommaInFront(a, b); }
    } else {
      NotAllSpace(a);
      if AllSpace(b) { CommaBehind(a, b); } else { CommaInside(a, b); }
    }
  }

  /** For one: " 5" is five rupees, and ", 5" is refused. */
  lemma StrandedCommaLosesAmount()
    ensures ParseAmount("" + " 5") == Some(500) && ParseAmount("" + "," + " 5") == None
  {
    TrimOf(" ", "5", "");
    assert " " + "5" + "" == " 5" && "" + " 5" == " 5";
    assert RemoveCommas("5") == "5" by { assert "5"[1..] == ""; }
    assert IndexOf("5", '.') == 1 by { assert "5"[1..] == ""; }
    assert "5"[..1] == "5" && "5"[..0] == "";
    assert Value("5") == 5;
    CommasAreIgnoredIff("", " 5");
    assert Strands("", " 5");
  }

  lemma NotAllSpace(s: string)
    requires !AllSpace(s)
    ensures s != ""
  {
  }

  // ----- Round trips -----

  lemma {:induction false} DecimalDenotes(n: nat)
    ensures Digits(Decimal(n)) && Value(Decimal(n)) == n
    ensures n < 10 <==> |Decimal(n)| == 1
    ensures n < 100 ==> |Decimal(n)| <= 2
  {
    var digit := [(n % 10 + '0' as int) as char];
    if n >= 10 {
      DecimalDenotes(n / 10);
      assert Decimal(n)[..|Decimal(n)| - 1] == Decimal(n / 10);
    } else {
      assert Value(digit[..0]) == 0;
    }
  }

  lemma {:induction false} NoCommas(s: string)
    requires ',' !in s
    ensures RemoveCommas(s) == s
  {
    if s != "" {
      NoCommas(s[1..]);
    }
  }

  predicate Plain(c: char) {
    IsDigit(c) || c == '.' || c == '-'
  }

  lemma PlainIsClean(s: string)
    requires s != "" && forall i :: 0 <= i < |s| ==> Plain(s[i])
    ensures Cleaned(s) == s
  {
    assert Plain(s[0]) && Plain(s[|s| - 1]);
    TrimOf("", s, "");
    assert "" + s + "" == s;
    NoCommas(s);
  }

  lemma {:induction false} IndexIs(s: string, c: char, n: nat)
    requires n < |s| && s[n] == c && forall i :: 0 <= i < n ==> s[i] != c
    ensures IndexOf(s, c) == n
  {
    assert IndexOf(s, c) <= n;
  }

  lemma PointSplits(whole: string, fraction: string)
    requires Digits(whole) && Digits(fraction)
    ensures var s := whole + "." + fraction;
      && Cleaned(s) == s && IndexOf(s, '.') == |whole|
      && s[..|whole|] == whole && s[|whole| + 1..] == fraction
  {
    hide IsSpace, Cleaned, IndexOf;
    var s := whole + "." + fraction;
    assert forall i :: 0 <= i < |whole| ==> IsDigit(whole[i]) && s[i] == whole[i];
    PlainIsClean(s);
    IndexIs(s, '.', |whole|);
  }

  /** Digits, a point and two digits are read as they stand, unless too many rupees. */
  lemma {:induction false} PointIsRead(whole: string, fraction: string)
    requires Digits(whole) && Digits(fraction) && |fraction| == 2
    ensures ParseAmount(whole + "." + fraction)
         == if Value(whole) > MAX_REQUESTED_RUPEES then None else Some(Value(whole) * 100 + Value(fraction))
  {
    hide IsSpace, Value, Cleaned, IndexOf;
    PointSplits(whole, fraction);
    ValueOfShort(fraction);
    hide Digits;
  }

  lemma {:induction false} ValueOfShort(s: string)
    requires Digits(s) && |s| == 2
    ensures Value(s) < 100
  {
    assert s[..1][..0] == "";
    assert Value(s[..1]) <= 9;
  }

  lemma PaddedDenotes(n: nat)
    requires n < 100
    ensures Digits(Padded(n)) && |Padded(n)| == 2 && Value(Padded(n)) == n
  {
    DecimalDenotes(n);
    if n < 10 {
      var s := "0" + Decimal(n);
      assert s[..1] == "0" && "0"[..0] == "";
      assert Value("0") == 0;
      assert Decimal(n)[..0] == "";
    }
  }

  lemma MinusIsMalformed(s: string)
    requires s != "" && s[0] == '-'
    ensures ParseAmount(s) == None
  {
    var l, m, r := Core(s);
    TrimOf(l, m, r);
    assert m[0] == '-';
    var c := Cleaned(s);
    assert c[0] == '-';
    assert IndexOf(c, '.') > 0;
    assert c[..IndexOf(c, '.')][0] == '-';
  }

  /** Printing and parsing are inverse exactly on the amounts from zero up to the largest rupee
      count; every other amount, printed, is refused. */
  lemma FormatParsesBackIff(paise: int)
    ensures ParseAmount(FormatPaise(paise)) == Some(paise) <==> 0 <= paise && paise / 100 <= MAX_REQUESTED_RUPEES
    ensures !(0 <= paise && paise / 100 <= MAX_REQUESTED_RUPEES) ==> ParseAmount(FormatPaise(paise)) == None
  {
    hide ParseAmount, Decimal;
    if paise >= 0 {
      var whole, fraction := Decimal(paise / 100), Padded(paise % 100);
      DecimalDenotes(paise / 100);
      PaddedDenotes(paise % 100);
      PointIsRead(whole, fraction);
      hide Value, Padded;
    } else {
      NegativeIsRefused(paise);
    }
  }

  lemma NegativeIsRefused(paise: int)
    requires paise < 0
    ensures ParseAmount(FormatPaise(paise)) == None
  {
    var s := FormatPaise(paise);
    if paise <= -100 {
      MinusIsMalformed(s);
    } else {
      assert s == "0.-" + Decimal(-paise) by {
        assert Decimal(0) == "0" && "0" + "." == "0." && "0." + "-" == "0.-";
        assert "0" + "." + ("-" + Decimal(-paise)) == "0.-" + Decimal(-paise);
      }
      DecimalDenotes(-paise);
      hide *;
      MinusAfterPoint(Decimal(-paise));
    }
  }

  lemma MinusAfterPoint(rest: string)
    requires Digits(rest)
    ensures ParseAmount("0.-" + rest) == None
  {
    hide IsSpace, Value, Cleaned, IndexOf;
    var s := "0.-" + rest;
    assert forall i :: 0 <= i < |s| ==> Plain(s[i]) by {
      assert forall i :: 0 <= i < |rest| ==> IsDigit(rest[i]);
    }
    PlainIsClean(s);
    IndexIs(s, '.', 1);
    assert s[2..][0] == '-';
  }

  /** Whatever text is accepted, the amount fits in an int64 without wrapping, and printing it
      gives a text that means the same amount. */
  lemma AcceptedAmountsFit(text: string)
    requires ParseAmount(text).Some?
    ensures var amount := ParseAmount(text).value;
      0 <= amount <= MAX_INT64 && ParseAmount(FormatPaise(amount)) == Some(amount)
  {
    var s := Cleaned(text);
    hide Cleaned;
    var dot := IndexOf(s, '.');
    hide IndexOf;
    var amount := ParseAmount(text).value;
    assert 0 <= amount && amount / 100 <= MAX_REQUESTED_RUPEES by {
      if dot < |s| {
        ValueOfShort(if |s[dot + 1..]| == 1 then s[dot + 1..] + "0" else s[dot + 1..]);
      }
      hide Value;
    }
    FormatParsesBackIff(amount);
  }

  /** What the matcher compares: a payment's printed payable, read back from a notification,
      is the payable, on every payable the schema admits up to the parser's range. */
  lemma PrintedPayableIsRecognizedIff(payable: int)
    requires payable > 0 && payable % 100 != 0
    ensures ParsePayGateAmount(FormatPaise(payable)) == Ok(payable) <==> payable / 100 <= MAX_REQUESTED_RUPEES
  {
    hide ParseAmount, FormatPaise;
    FormatParsesBackIff(payable);
  }

  /** A whole-rupee request and the same text read as an amount are the same paise, unwrapped. */
  lemma WholeRupeesAgree(text: string)
    requires ParseWholeRupees(text).Some?
    ensures var rupees := ParseWholeRupees(text).value;
      RupeesToPaise(rupees) == Some(rupees * 100) == ParseAmount(text)
  {
    var s := Trim(text);
    NoCommas(s);
    assert IndexOf(s, '.') == |s|;
    assert s[..|s|] == s;
    assert Value(s) > 0 by { LeadingDigit(s); }
  }

  lemma {:induction false} LeadingDigit(s: string)
    requires Digits(s) && s[0] != '0'
    ensures Value(s) > 0
  {
    if |s| > 1 {
      LeadingDigit(s[..|s| - 1]);
    } else {
      assert s[..0] == "";
    }
  }

  // ----- What texts mean -----

  predicate Numeral(s: string) {
    s != "" && forall i :: 0 <= i < |s| ==> 48 <= s[i] as int <= 57
  }

  /** The number a numeral denotes: the digit before, ten times over, and the next. */
  lemma {:induction false} NumeralDenotes(s: string, c: char)
    requires Numeral([c]) && (s == "" || Numeral(s))
    ensures Value(s + [c]) == Value(s) * 10 + (c as int - 48) && (s == "" ==> Value(s) == 0)
  {
    assert (s + [c])[..|s|] == s;
  }

  /** The text is rupees, or rupees, a point and one or two digits of paise. */
  predicate Written(s: string, rupees: string, paise: string) {
    && Numeral(rupees)
    && if paise == "" then s == rupees else Numeral(paise) && |paise| <= 2 && s == rupees + "." + paise
  }

  /** One digit after the point counts tens of paise. */
  function Hundredths(paise: string): int
    requires paise == "" || Numeral(paise)
  {
    if |paise| == 1 then 10 * Value(paise) else Value(paise)
  }

  lemma {:induction false} PointOf(s: string, rupees: string, paise: string)
    requires Written(s, rupees, paise)
    ensures PaisaAmount(s) && Digits(rupees) && IndexOf(s, '.') == |rupees| && s[..|rupees|] == rupees
    ensures if paise == "" then |rupees| == |s| else |rupees| < |s| && s[|rupees| + 1..] == paise && Digits(paise)
  {
    assert forall i :: 0 <= i < |rupees| ==> s[i] == rupees[i] && s[i] != '.';
    if paise != "" {
      IndexIs(s, '.', |rupees|);
    } else {
      assert IndexOf(s, '.') == |s|;
    }
    hide IndexOf;
  }

  lemma {:induction false} HundredthsFit(paise: string)
    requires Digits(paise) && |paise| <= 2
    ensures 0 <= Hundredths(paise) <= 99
    ensures Hundredths(paise) == Value(if |paise| == 1 then paise + "0" else paise)
  {
    if |paise| == 1 {
      NumeralDenotes(paise, '0');
      ValueOfShort(paise + "0");
    } else {
      ValueOfShort(paise);
    }
    hide Value;
  }

  lemma NoPaise()
    ensures Hundredths("") == 0
  {
  }

  lemma FitsUnwrapped(rupees: nat, paise: int)
    requires rupees <= MAX_REQUESTED_RUPEES && 0 <= paise <= 99
    ensures Wrap64(rupees * 100) == rupees * 100 && Wrap64(rupees * 100 + paise) == rupees * 100 + paise
  {
  }

  lemma RangeOfRupees()
    ensures MAX_REQUESTED_RUPEES == 92233720368547757
  {
  }

  lemma ReadAt(text: string, rupees: string, paise: string)
    requires PaisaAmount(Cleaned(text)) && IndexOf(Cleaned(text), '.') == |rupees| <= |Cleaned(text)|
    requires Cleaned(text)[..|rupees|] == rupees && Digits(rupees)
    requires if |rupees| == |Cleaned(text)| then paise == ""
             else Cleaned(text)[|rupees| + 1..] == paise && Digits(paise)
    ensures ParseAmount(text)
         == if Value(rupees) > MAX_REQUESTED_RUPEES then None
            else if paise == "" then Some(Wrap64(Value(rupees) * 100))
            else Some(Wrap64(Value(rupees) * 100 + Value(if |paise| == 1 then paise + "0" else paise)))
  {
    hide Cleaned, IndexOf, PaisaAmount, Value, Wrap64;
  }

  /** An amount, without commas and surrounding white space, is its rupees and paise, up to
      92233720368547757 rupees; more are refused. */
  lemma {:induction false} AmountIsReadAs(text: string, rupees: string, paise: string)
    requires Written(RemoveCommas(Trim(text)), rupees, paise)
    ensures ParseAmount(text)
         == if Value(rupees) > 92233720368547757 then None else Some(Value(rupees) * 100 + Hundredths(paise))
  {
    hide ParseAmount, Value, Hundredths, Wrap64, IndexOf, PaisaAmount;
    PointOf(Cleaned(text), rupees, paise);
    hide Written, Cleaned;
    ReadAt(text, rupees, paise);
    if paise != "" { HundredthsFit(paise); }
    hide Digits, Numeral;
    NoPaise();
    RangeOfRupees();
    if Value(rupees) <= MAX_REQUESTED_RUPEES { FitsUnwrapped(Value(rupees), Hundredths(paise)); }
  }

  /** Every other text is refused. */
  lemma AcceptedIsWritten(text: string) returns (rupees: string, paise: string)
    requires ParseAmount(text).Some?
    ensures Written(RemoveCommas(Trim(text)), rupees, paise)
  {
    var s := Cleaned(text);
    var dot := IndexOf(s, '.');
    rupees, paise := s[..dot], if dot == |s| then "" else s[dot + 1..];
    assert dot < |s| ==> s == s[..dot] + "." + s[dot + 1..];
  }

  /** Of an amount in a notification, a text that is none is malformed, nothing is unrecognized, whole rupees
      belong to no payment, and anything else is the amount. */
  lemma PayGateAmountIs(text: string)
    ensures ParsePayGateAmount(text)
         == match ParseAmount(text)
            case None => Err(Malformed)
            case Some(paise) =>
              if paise == 0 then Err(Unrecognized) else if paise % 100 == 0 then Err(NonPayGateAmount) else Ok(paise)
  {
    hide ParseAmount, FormatPaise;
    if ParseAmount(text).Some? { AcceptedAmountsFit(text); }
  }

  /** A request is whole rupees without a leading zero, from 1 to 92233720368547757. */
  lemma WholeRupeesAreReadAs(text: string)
    ensures var s := Trim(text);
      && (ParseWholeRupees(text).Some? <==> Numeral(s) && s[0] != '0' && Value(s) <= 92233720368547757)
      && (ParseWholeRupees(text).Some? ==> ParseWholeRupees(text).value == Value(s))
      && forall rupees :: RupeesToPaise(rupees)
                          == if 1 <= rupees <= 92233720368547757 then Some(rupees * 100) else None
  {
    hide Trim, Value;
  }

  function TwoDigits(n: nat): string
    requires n < 100
  {
    [(48 + n / 10) as char, (48 + n % 10) as char]
  }

  lemma PaddedIs(n: nat)
    requires n < 100
    ensures Padded(n) == TwoDigits(n)
  {
    if n < 10 {
      assert Decimal(n) == [(48 + n) as char];
    } else {
      assert Decimal(n / 10) == [(48 + n / 10) as char];
      assert Decimal(n) == Decimal(n / 10) + [(48 + n % 10) as char];
    }
  }

  /** Amounts are printed as rupees, a point and two digits; of a negative one both parts, where they are not
      zero, have the sign. */
  lemma PaiseArePrinted(paise: int)
    requires paise >= 0
    ensures FormatPaise(paise) == Decimal(paise / 100) + "." + TwoDigits(paise % 100)
    ensures paise > 0 ==>
              FormatPaise(-paise)
              == (if paise < 100 then "0" else "-" + Decimal(paise / 100)) + "."
              + (if paise % 100 == 0 then "00" else "-" + Decimal(paise % 100))
  {
    PaddedIs(paise % 100);
    PaddedIs(0);
    assert Decimal(0) == "0";
    assert TwoDigits(0) == "00";
    hide Decimal, TwoDigits;
    var rupees := Quotient(-paise);
    assert rupees == -(paise / 100) && -paise - rupees * 100 == -(paise % 100);
  }
}
