/**
 FixedBuffer and LogStream's printing of integers and pointers: digit generation from the least
 significant end with truncated division, then a reversal in place.
 */
module LogText {

  const SMALL_BUFFER: nat := 4096
  const MAX_NUMERIC_SIZE: nat := 48

  const INT64_MIN: int := -0x8000_0000_0000_0000
  const UINT64_MAX: int := 0xFFFF_FFFF_FFFF_FFFF

  // ---------------------------------------------------------------- numerals

  function Base(hex: bool): nat {
    if hex then 16 else 10
  }

  function Quotient(n: nat, hex: bool): nat {
    if hex then n / 16 else n / 10
  }

  function Remainder(n: nat, hex: bool): (r: nat)
    ensures r < Base(hex)
  {
    if hex then n % 16 else n % 10
  }

  const HEX_DIGITS: string := "0123456789ABCDEF"

  function DigitChar(d: nat): char
    requires d < 16
  {
    HEX_DIGITS[d]
  }

  /** The numeral of `n`, most significant digit first. */
  function Numeral(n: nat, hex: bool): string {
    if Quotient(n, hex) == 0 then [DigitChar(Remainder(n, hex))]
    else Numeral(Quotient(n, hex), hex) + [DigitChar(Remainder(n, hex))]
  }

  predicate IsDigit(ch: char, hex: bool) {
    '0' <= ch <= '9' || (hex && 'A' <= ch <= 'F')
  }

  function DigitValue(ch: char): nat {
    if '0' <= ch <= '9' then ch as int - '0' as int
    else if 'A' <= ch <= 'F' then 10 + ch as int - 'A' as int
    else 0
  }

  function Value(text: string, hex: bool): nat {
    if text == "" then 0
    else if hex then Value(text[..|text| - 1], hex) * 16 + DigitValue(text[|text| - 1])
    else Value(text[..|text| - 1], hex) * 10 + DigitValue(text[|text| - 1])
  }

  /** A numeral as people write it: digits only, and no leading zero. */
  predicate Canonical(text: string, hex: bool) {
    && text != "" && (forall i :: 0 <= i < |text| ==> IsDigit(text[i], hex))
    && (|text| > 1 ==> text[0] != '0')
  }

  lemma DigitRoundTrip(d: nat, hex: bool)
    requires d < Base(hex)
    ensures IsDigit(DigitChar(d), hex) && DigitValue(DigitChar(d)) == d
    ensures DigitChar(d) == '0' <==> d == 0
  {
  }

  lemma CharRoundTrip(ch: char, hex: bool)
    requires IsDigit(ch, hex)
    ensures DigitValue(ch) < Base(hex) && DigitChar(DigitValue(ch)) == ch
  {
  }

  /** Reading a printed numeral gives the number back. */
  lemma {:induction false} NumeralRoundTrip(n: nat, hex: bool)
    ensures Value(Numeral(n, hex), hex) == n
    decreases n
  {
    var d := Remainder(n, hex);
    DigitRoundTrip(d, hex);
    var text := Numeral(n, hex);
    if Quotient(n, hex) == 0 {
      assert text[..0] == "";
    } else {
      NumeralRoundTrip(Quotient(n, hex), hex);
      assert text[..|text| - 1] == Numeral(Quotient(n, hex), hex);
    }
  }

  lemma {:induction false} NumeralCanonical(n: nat, hex: bool)
    ensures Canonical(Numeral(n, hex), hex)
    ensures n != 0 ==> Numeral(n, hex)[0] != '0'
    decreases n
  {
    DigitRoundTrip(Remainder(n, hex), hex);
    if Quotient(n, hex) != 0 {
      NumeralCanonical(Quotient(n, hex), hex);
    }
  }

  lemma {:induction false} ValuePositive(text: string, hex: bool)
    requires text != "" && text[0] != '0' && forall i :: 0 <= i < |text| ==> IsDigit(text[i], hex)
    ensures Value(text, hex) > 0
  {
    if |text| == 1 {
      assert text[..0] == "";
    } else {
      ValuePositive(text[..|text| - 1], hex);
    }
  }

  lemma LastDigit(q: nat, d: nat, hex: bool)
    requires d < Base(hex)
    ensures var n := if hex then q * 16 + d else q * 10 + d; Quotient(n, hex) == q && Remainder(n, hex) == d
  {
  }

  /** The printed numeral is the only canonical text for its value. */
  lemma {:induction false} NumeralUnique(text: string, hex: bool)
    requires Canonical(text, hex)
    ensures Numeral(Value(text, hex), hex) == text
  {
    var init, ch := text[..|text| - 1], text[|text| - 1];
    CharRoundTrip(ch, hex);
    var q, d := Value(init, hex), DigitValue(ch);
    LastDigit(q, d, hex);
    assert Value(text, hex) == if hex then q * 16 + d else q * 10 + d;
    assert text == init + [DigitChar(d)];
    if |text| == 1 {
      assert init == "";
    } else {
      ValuePositive(init, hex);
      NumeralUnique(init, hex);
    }
  }

  function Power(k: nat, hex: bool): nat {
    if k == 0 then 1 else if hex then 16 * Power(k - 1, hex) else 10 * Power(k - 1, hex)
  }

  lemma {:induction false} NumeralLength(n: nat, k: nat, hex: bool)
    requires k > 0 && n < Power(k, hex)
    ensures |Numeral(n, hex)| <= k
    decreases k
  {
    if Quotient(n, hex) != 0 {
      NumeralLength(Quotient(n, hex), k - 1, hex);
    }
  }

  /** What formatInteger prints. */
  function Decimal(num: int): string {
    if num < 0 then "-" + Numeral(Abs(num), false) else Numeral(Abs(num), false)
  }

  function ParseDecimal(text: string): int {
    if text != "" && text[0] == '-' then 0 - Value(text[1..], false) else Value(text, false)
  }

  predicate CanonicalDecimal(text: string) {
    if text != "" && text[0] == '-' then text != "-0" && Canonical(text[1..], false) else Canonical(text, false)
  }

  /** Printing then parsing is the identity on every integer, the text is canonical, and it is the
      only canonical text for that integer. */
  lemma DecimalRoundTrip(num: int)
    ensures ParseDecimal(Decimal(num)) == num && CanonicalDecimal(Decimal(num))
  {
    var n := if num < 0 then -num else num;
    NumeralRoundTrip(n, false);
    NumeralCanonical(n, false);
    assert num < 0 ==> Decimal(num)[1..] == Numeral(n, false);
  }

  lemma NegativeUnique(text: string)
    requires text != "" && text[0] == '-' && CanonicalDecimal(text)
    ensures Decimal(ParseDecimal(text)) == text
  {
    var digits := text[1..];
    NumeralUnique(digits, false);
    NonZeroValue(digits);
    assert text == "-" + digits;
  }

  lemma NonZeroValue(digits: string)
    requires Canonical(digits, false) && "-" + digits != "-0"
    ensures Value(digits, false) > 0
  {
    if digits[0] != '0' {
      ValuePositive(digits, false);
    }
  }

  lemma DecimalUnique(text: string)
    requires CanonicalDecimal(text)
    ensures Decimal(ParseDecimal(text)) == text
  {
    if text[0] == '-' {
      NegativeUnique(text);
    } else {
      NumeralUnique(text, false);
    }
  }

  /** Text and terminator of every 64-bit value fit the reservation. */
  lemma DecimalFits(num: int)
    requires INT64_MIN <= num <= UINT64_MAX
    ensures 1 <= |Decimal(num)| <= 20 && |Decimal(num)| + 1 <= MAX_NUMERIC_SIZE
  {
    assert Power(3, false) == 1000 && Power(5, false) == 100_000 && Power(7, false) == 10_000_000;
    assert Power(9, false) == 1_000_000_000 && Power(11, false) == 100_000_000_000;
    assert Power(13, false) == 10_000_000_000_000 && Power(15, false) == 1_000_000_000_000_000;
    assert Power(17, false) == 100_000_000_000_000_000 && Power(19, false) == 10_000_000_000_000_000_000;
    if num < 0 {
      NumeralLength(-num, 19, false);
    } else {
      NumeralLength(num, 20, false);
    }
    NumeralCanonical(if num < 0 then -num else num, false);
  }

  /** What the pointer overload prints. */
  function PointerText(value: nat): string {
    "0x" + Numeral(value, true)
  }

  lemma PointerRoundTrip(value: nat)
    requires value <= UINT64_MAX
    ensures PointerText(value)[..2] == "0x"
    ensures Value(PointerText(value)[2..], true) == value && Canonical(PointerText(value)[2..], true)
    ensures |PointerText(value)| <= 18 && |PointerText(value)| + 1 <= MAX_NUMERIC_SIZE
  {
    assert PointerText(value)[2..] == Numeral(value, true);
    NumeralRoundTrip(value, true);
    NumeralCanonical(value, true);
    HexFits(value);
  }

  lemma HexFits(value: nat)
    requires value <= UINT64_MAX
    ensures |Numeral(value, true)| <= 16
  {
    assert Power(2, true) == 0x100 && Power(4, true) == 0x1_0000 && Power(6, true) == 0x100_0000;
    assert Power(8, true) == 0x1_0000_0000 && Power(10, true) == 0x100_0000_0000;
    assert Power(12, true) == 0x1_0000_0000_0000 && Power(14, true) == 0x100_0000_0000_0000;
    NumeralLength(value, 16, true);
  }

  // ---------------------------------------------------------------- C++ arithmetic

  /** Division and remainder that truncate towards zero. */
  function TruncDiv(a: int, b: nat): int
    requires b > 0
  {
    if a < 0 then -((-a) / b) else a / b
  }

  function TruncMod(a: int, b: nat): int
    requires b > 0
  {
    if a < 0 then -((-a) % b) else a % b
  }

  const DIGITS: string := "9876543210123456789"

  function Abs(num: int): nat {
    if num < 0 then -num else num
  }

  /** The mirrored table turns a remainder of either sign into the digit of its magnitude. */
  lemma MirroredDigit(num: int)
    ensures -9 <= TruncMod(num, 10) <= 9
    ensures DIGITS[9 + TruncMod(num, 10)] == DigitChar(Remainder(Abs(num), false))
    ensures Abs(TruncDiv(num, 10)) == Quotient(Abs(num), false)
  {
  }

  function Reversed(s: string): (r: string)
    ensures |r| == |s|
  {
    if s == "" then "" else [s[|s| - 1]] + Reversed(s[..|s| - 1])
  }

  lemma {:induction false} ReversedAt(s: string, k: nat)
    requires k < |s|
    ensures Reversed(s)[k] == s[|s| - 1 - k]
  {
    if k > 0 {
      ReversedAt(s[..|s| - 1], k - 1);
    } else if |s| > 1 {
      ReversedAt(s[..|s| - 1], 0);
    }
  }

  lemma ReversedSnoc(s: string, ch: char)
    ensures Reversed(s + [ch]) == [ch] + Reversed(s)
  {
    assert (s + [ch])[..|s|] == s;
  }

  /** A digit loop at work on the numeral `text`: `done` holds the low digits, least significant
      first, and the digits of `n` are still to come if there are more. */
  predicate Emitting(text: string, n: nat, more: bool, done: string, hex: bool) {
    text == (if more then Numeral(n, hex) else "") + Reversed(done)
  }

  lemma EmitStart(n: nat, hex: bool)
    ensures Emitting(Numeral(n, hex), n, true, "", hex)
  {
  }

  lemma EmitTurn(text: string, n: nat, done: string, hex: bool)
    requires Emitting(text, n, true, done, hex)
    ensures |done| < |text|
    ensures var q := Quotient(n, hex); Emitting(text, q, q != 0, done + [DigitChar(Remainder(n, hex))], hex)
  {
    ReversedSnoc(done, DigitChar(Remainder(n, hex)));
  }

  lemma EmitEnd(text: string, n: nat, done: string, hex: bool)
    requires Emitting(text, n, false, done, hex)
    ensures |done| == |text| && Reversed(done) == text
  {
  }

  // ---------------------------------------------------------------- the classes

  class FixedBuffer {
    const data: array<char>
    var cur: nat

    ghost predicate Valid()
      reads this
    {
      cur <= data.Length
    }

    /** A byte is free; every operation but a bare Add keeps it so. */
    ghost predicate Spare()
      reads this
    {
      cur < data.Length
    }

    ghost function Contents(): string
      requires Valid()
      reads this, data
    {
      data[..cur]
    }

    function Avail(): nat
      requires Valid()
      reads this
    {
      data.Length - cur
    }

    constructor (size: nat)
      requires size > 0
      ensures Valid() && Spare() && fresh(data) && Contents() == "" && data.Length == size
    {
      data := new char[size](_ => '\0');
      cur := 0;
    }

    /** Appends all of `text`, or nothing if that would leave no byte free. */
    method Append(text: string)
      requires Valid()
      modifies `cur, data
      ensures Valid() && (old(Spare()) ==> Spare())
      ensures Contents() == if old(Avail()) > |text| then old(Contents()) + text else old(Contents())
    {
      if Avail() > |text| {
        var i := 0;
        while i < |text|
          invariant 0 <= i <= |text| && cur == old(cur)
          invariant forall k :: 0 <= k < i ==> data[cur + k] == text[k]
          invariant data[..cur] == old(data[..cur])
        {
          data[cur + i] := text[i];
          i := i + 1;
        }
        cur := cur + |text|;
        assert data[..cur] == data[..cur - |text|] + data[cur - |text|..cur];
        assert data[cur - |text|..cur] == text;
      }
    }

    method Add(len: nat)
      requires Valid() && len <= Avail()
      modifies `cur
      ensures Valid() && cur == old(cur) + len && (len < old(Avail()) ==> Spare())
    {
      cur := cur + len;
    }

    method Reset()
      requires Valid()
      modifies `cur
      ensures Valid() && Contents() == ""
    {
      cur := 0;
    }
  }

  lemma ReversedStep(was: string, now: string, next: string, i: nat)
    requires i < |was| / 2 && |now| == |was| == |next|
    requires PartlyReversed(was, now, i)
    requires next == now[i := now[|was| - 1 - i]][|was| - 1 - i := now[i]]
    ensures PartlyReversed(was, next, i + 1)
  {
    var j, i' := |was| - 1 - i, i + 1;
    assert Kept(was, now, i, i) && Kept(was, now, i, j);
    forall k | 0 <= k < |was| ensures Kept(was, next, i', k) {
      assert Kept(was, now, i, k);
    }
  }

  predicate Kept(was: string, now: string, i: nat, k: nat)
    requires |now| == |was| && k < |was|
  {
    now[k] == if k < i || |was| - i <= k then was[|was| - 1 - k] else was[k]
  }

  /** The outer `i` characters on each side have been exchanged. */
  predicate PartlyReversed(was: string, now: string, i: nat) {
    && |now| == |was| && i <= |was| / 2
    && forall k :: 0 <= k < |was| ==> Kept(was, now, i, k)
  }

  lemma FullyReversed(was: string, now: string)
    requires PartlyReversed(was, now, |was| / 2)
    ensures now == Reversed(was)
  {
    forall k | 0 <= k < |was| ensures now[k] == Reversed(was)[k] {
      assert Kept(was, now, |was| / 2, k);
      ReversedAt(was, k);
    }
  }

  /** std::reverse on `data[lo..hi]`. */
  method ReverseRange(data: array<char>, lo: nat, hi: nat)
    requires lo <= hi <= data.Length
    modifies data
    ensures data[lo..hi] == Reversed(old(data[lo..hi]))
    ensures data[..lo] == old(data[..lo])
  {
    var n := hi - lo;
    ghost var was := data[lo..hi];
    var i := 0;
    while i < n / 2
      invariant 0 <= i <= n / 2
      invariant PartlyReversed(was, data[lo..hi], i)
      invariant data[..lo] == old(data[..lo])
    {
      ghost var now := data[lo..hi];
      SwapEnds(data, lo, hi, i);
      ReversedStep(was, now, data[lo..hi], i);
      i := i + 1;
    }
    FullyReversed(was, data[lo..hi]);
  }

  /** Exchanges the characters at distance `i` from both ends of the range. */
  method SwapEnds(data: array<char>, lo: nat, hi: nat, i: nat)
    requires lo <= hi <= data.Length && i < (hi - lo) / 2
    modifies data
    ensures var now, j := old(data[lo..hi]), hi - lo - 1 - i; data[lo..hi] == now[i := now[j]][j := now[i]]
    ensures data[..lo] == old(data[..lo])
  {
    data[lo + i], data[hi - 1 - i] := data[hi - 1 - i], data[lo + i];
  }

  class LogStream {
    const buffer: FixedBuffer

    constructor ()
      ensures fresh(buffer) && fresh(buffer.data) && buffer.Valid() && buffer.Spare()
      ensures buffer.data.Length == SMALL_BUFFER && buffer.Contents() == ""
    {
      buffer := new FixedBuffer(SMALL_BUFFER);
    }

    /** Appends the decimal text of `num`, or nothing when fewer than MAX_NUMERIC_SIZE bytes are free. */
    method FormatInteger(num: int)
      requires buffer.Valid() && INT64_MIN <= num <= UINT64_MAX
      modifies buffer`cur, buffer.data
      ensures buffer.Valid() && (old(buffer.Spare()) ==> buffer.Spare())
      ensures old(buffer.Avail()) >= MAX_NUMERIC_SIZE ==> buffer.Contents() == old(buffer.Contents()) + Decimal(num)
      ensures old(buffer.Avail()) < MAX_NUMERIC_SIZE ==> buffer.Contents() == old(buffer.Contents())
    {
      if buffer.Avail() >= MAX_NUMERIC_SIZE {
        DecimalFits(num);
        var data, start := buffer.data, buffer.cur;
        var len := ConvertDecimal(data, start, num);
        buffer.Add(len);
      }
    }

    /** Appends 0x and the hexadecimal text of a pointer, under the same reservation. */
    method FormatPointer(value: nat)
      requires buffer.Valid() && value <= UINT64_MAX
      modifies buffer`cur, buffer.data
      ensures buffer.Valid() && (old(buffer.Spare()) ==> buffer.Spare())
      ensures old(buffer.Avail()) >= MAX_NUMERIC_SIZE ==> buffer.Contents() == old(buffer.Contents()) + PointerText(value)
      ensures old(buffer.Avail()) < MAX_NUMERIC_SIZE ==> buffer.Contents() == old(buffer.Contents())
    {
      if buffer.Avail() >= MAX_NUMERIC_SIZE {
        HexFits(value);
        var data, start := buffer.data, buffer.cur;
        ghost var before := data[..start];
        data[start] := '0';
        data[start + 1] := 'x';
        assert data[..start + 2] == before + "0x";
        var len := ConvertHex(data, start + 2, value);
        buffer.Add(len + 2);
        assert (before + "0x") + Numeral(value, true) == before + PointerText(value);
      }
    }
  }

  /** The digit loop of formatInteger: leaves the digits of `num` least significant first. */
  method DecimalDigits(data: array<char>, start: nat, num: int) returns (cur: nat)
    requires start + |Numeral(Abs(num), false)| <= data.Length
    modifies data
    ensures cur == start + |Numeral(Abs(num), false)|
    ensures Reversed(data[start..cur]) == Numeral(Abs(num), false)
    ensures data[..start] == old(data[..start])
  {
    cur := start;
    var n, more := num, true;
    ghost var text, done := Numeral(Abs(num), false), "";
    EmitStart(Abs(num), false);
    while more
      invariant start <= cur <= data.Length && data[..start] == old(data[..start])
      invariant Emitting(text, Abs(n), more, done, false) && data[start..cur] == done
      decreases more, Abs(n)
    {
      MirroredDigit(n);
      EmitTurn(text, Abs(n), done, false);
      data[cur] := DIGITS[9 + TruncMod(n, 10)];
      done := done + [data[cur]];
      cur := cur + 1;
      n := TruncDiv(n, 10);
      more := n != 0;
    }
    EmitEnd(text, Abs(n), done, false);
  }

  /** Digits, sign and terminator, then the reversal; returns the length of the text. */
  method ConvertDecimal(data: array<char>, start: nat, num: int) returns (len: nat)
    requires start + |Decimal(num)| < data.Length
    modifies data
    ensures len == |Decimal(num)| && data[..start + len] == old(data[..start]) + Decimal(num)
  {
    var cur := DecimalDigits(data, start, num);
    ghost var digits := data[start..cur];
    DecimalReversed(num, digits);
    len := FinishSigned(data, start, cur, num < 0, digits);
  }

  method FinishSigned(data: array<char>, start: nat, cur: nat, negative: bool, ghost digits: string) returns (len: nat)
    requires start <= cur < data.Length && data[start..cur] == digits
    requires start + |Signed(digits, negative)| < data.Length
    modifies data
    ensures len == |Signed(digits, negative)| && data[..start + len] == old(data[..start]) + Reversed(Signed(digits, negative))
  {
    var after := PutSign(data, start, cur, negative, digits);
    FinishText(data, start, after, Signed(digits, negative));
    len := after - start;
  }

  /** Digits and sign as they are before the reversal. */
  function Signed(digits: string, negative: bool): string {
    if negative then digits + ['-'] else digits
  }

  lemma DecimalReversed(num: int, digits: string)
    requires Reversed(digits) == Numeral(Abs(num), false)
    ensures Reversed(Signed(digits, num < 0)) == Decimal(num)
  {
    ReversedSnoc(digits, '-');
  }

  method PutSign(data: array<char>, start: nat, cur: nat, negative: bool, ghost digits: string) returns (after: nat)
    requires start <= cur < data.Length && data[start..cur] == digits
    modifies data
    ensures after == start + |Signed(digits, negative)| <= data.Length && data[start..after] == Signed(digits, negative)
    ensures data[..start] == old(data[..start])
  {
    after := cur;
    if negative {
      data[cur] := '-';
      after := cur + 1;
      assert data[start..after] == data[start..cur] + ['-'];
    }
  }

  /** Terminator and reversal. */
  method FinishText(data: array<char>, start: nat, cur: nat, ghost text: string)
    requires start <= cur < data.Length && data[start..cur] == text
    modifies data
    ensures data[..cur] == old(data[..start]) + Reversed(text)
  {
    data[cur] := '\0';
    assert data[start..cur] == text && data[..start] == old(data[..start]);
    ReverseRange(data, start, cur);
    assert data[..cur] == data[..start] + data[start..cur];
  }

  /** The digit loop of convertHex, leaving room for the terminator. */
  method HexDigits(data: array<char>, start: nat, value: nat) returns (p: nat)
    requires start + |Numeral(value, true)| <= data.Length
    modifies data
    ensures p == start + |Numeral(value, true)|
    ensures Reversed(data[start..p]) == Numeral(value, true)
    ensures data[..start] == old(data[..start])
  {
    p := start;
    var i, more := value, true;
    ghost var text, done := Numeral(value, true), "";
    EmitStart(value, true);
    while more
      invariant start <= p <= data.Length && data[..start] == old(data[..start])
      invariant Emitting(text, i, more, done, true) && data[start..p] == done
      decreases more, i
    {
      EmitTurn(text, i, done, true);
      var lsd := i % 16;
      data[p] := HEX_DIGITS[lsd];
      done := done + [data[p]];
      p := p + 1;
      i := i / 16;
      more := i != 0;
    }
    EmitEnd(text, i, done, true);
  }

  /** Writes the hexadecimal text of `value` and a terminator, and returns the length of the text. */
  method ConvertHex(data: array<char>, start: nat, value: nat) returns (len: nat)
    requires start + |Numeral(value, true)| < data.Length
    modifies data
    ensures len == |Numeral(value, true)| && data[..start + len] == old(data[..start]) + Numeral(value, true)
  {
    var p := HexDigits(data, start, value);
    FinishText(data, start, p, data[start..p]);
    len := p - start;
  }
}
