/** The screen's digit editor, as pure functions: the weight (in hundredths) is
    shown as the fixed-point text f"{w:05.2f}", one cell of that text is
    selected by a cursor, and an edit bumps the selected digit and reads the
    text back as a decimal.  Also the priority in which the polling loop reads
    the two buttons. */
module DigitEdit {

  // ---------------------------------------------------------------------------
  // Characters and digit strings

  predicate IsDigit(c: char) {
    '0' <= c <= '9'
  }

  predicate AllDigits(s: seq<char>) {
    forall i :: 0 <= i < |s| ==> IsDigit(s[i])
  }

  function DigitChar(d: nat): (c: char)
    requires d < 10
    ensures IsDigit(c)
  {
    (('0' as int) + d) as char
  }

  function DigitValue(c: char): (d: nat)
    requires IsDigit(c)
    ensures d < 10 && DigitChar(d) == c
  {
    (c as int) - ('0' as int)
  }

  lemma DigitValueOfChar(d: nat)
    requires d < 10
    ensures DigitValue(DigitChar(d)) == d
  {
  }

  /** str((int(c) + 1) % 10): the next digit, 9 wrapping to 0. */
  function Succ(c: char): (c': char)
    requires IsDigit(c)
    ensures IsDigit(c') && DigitValue(c') == (DigitValue(c) + 1) % 10
  {
    DigitValueOfChar((DigitValue(c) + 1) % 10);
    DigitChar((DigitValue(c) + 1) % 10)
  }

  /** The decimal digits of n, most significant first, without leading zeros. */
  function NatDigits(n: nat): (s: seq<char>)
    ensures 1 <= |s| && AllDigits(s)
    ensures n < 10 <==> |s| == 1
  {
    if n < 10 then [DigitChar(n)] else NatDigits(n / 10) + [DigitChar(n % 10)]
  }

  /** The value of a digit string. */
  function ParseNat(s: seq<char>): nat
    requires AllDigits(s)
  {
    if s == [] then 0 else ParseNat(s[..|s| - 1]) * 10 + DigitValue(s[|s| - 1])
  }

  lemma ParseNatAppend(s: seq<char>, c: char)
    requires AllDigits(s) && IsDigit(c)
    ensures AllDigits(s + [c])
    ensures ParseNat(s + [c]) == ParseNat(s) * 10 + DigitValue(c)
  {
    assert (s + [c])[..|s|] == s;
  }

  /** Reading back the digits of n gives n. */
  lemma {:induction false} ParseNatDigits(n: nat)
    ensures ParseNat(NatDigits(n)) == n
  {
    if n < 10 {
      assert NatDigits(n)[..0] == [];
    } else {
      ParseNatDigits(n / 10);
      ParseNatAppend(NatDigits(n / 10), DigitChar(n % 10));
      DigitValueOfChar(n % 10);
    }
  }

  // ---------------------------------------------------------------------------
  // The fixed-point display text

  /** Digits, a decimal point, and exactly two digits after it. */
  predicate WellFormed(s: seq<char>) {
    |s| >= 4 && s[|s| - 3] == '.' && AllDigits(s[..|s| - 3]) && AllDigits(s[|s| - 2..])
  }

  type Digit = d: nat | d < 10

  /** The four decimal places of a weight below 100.00, one per editable cell of "DD.DD". */
  datatype Places = Places(tens: Digit, units: Digit, tenths: Digit, hundredths: Digit)

  /** The weight, in hundredths, that four decimal places spell. */
  function Hundredths(p: Places): (h: nat)
    ensures h < 10000
  {
    1000 * p.tens + 100 * p.units + 10 * p.tenths + p.hundredths
  }

  /** The decimal places of a weight below 100.00. */
  function PlacesOf(h: nat): (p: Places)
    requires h < 10000
    ensures Hundredths(p) == h
  {
    SplitPlaces(h);
    Places(h / 10 / 10 / 10, h / 10 / 10 % 10, h / 10 % 10, h % 10)
  }

  lemma SplitPlaces(h: nat)
    requires h < 10000
    ensures h / 10 / 10 / 10 < 10 && h / 10 / 10 % 10 < 10 && h / 10 % 10 < 10 && h % 10 < 10
    ensures h == 1000 * (h / 10 / 10 / 10) + 100 * (h / 10 / 10 % 10) + 10 * (h / 10 % 10) + h % 10
  {
    var a := h / 10;
    var b := a / 10;
    assert h == 10 * a + h % 10;
    assert a == 10 * b + a % 10;
    assert b == 10 * (b / 10) + b % 10;
  }

  /** Dividing 10q + r by ten, for a digit r. */
  lemma DivTen(q: nat, r: nat)
    requires r < 10
    ensures (10 * q + r) / 10 == q && (10 * q + r) % 10 == r
  {
  }

  /** Distinct places spell distinct weights: PlacesOf inverts Hundredths. */
  lemma PlacesOfValue(p: Places)
    ensures PlacesOf(Hundredths(p)) == p
  {
    var h := Hundredths(p);
    DivTen(100 * p.tens + 10 * p.units + p.tenths, p.hundredths);
    DivTen(10 * p.tens + p.units, p.tenths);
    DivTen(p.tens, p.units);
    DivTen(0, p.tens);
  }

  /** The five cells "D0 D1 . D3 D4" showing four decimal places. */
  function Text(p: Places): (s: seq<char>)
    ensures |s| == 5 && s[2] == '.'
  {
    [DigitChar(p.tens), DigitChar(p.units), '.', DigitChar(p.tenths), DigitChar(p.hundredths)]
  }

  /** f"{w:05.2f}" for a weight w of h hundredths: the whole part zero-padded to
      at least two digits, a point, two decimals.  The padding adds a zero only
      below 10.00, so below 100.00 the text is the five cells of the four decimal
      places, and from 100.00 on it is the plain digits of the whole part. */
  function Format(h: nat): (s: seq<char>)
    ensures |s| >= 5
    ensures h < 10000 <==> |s| == 5
  {
    if h < 10000 then
      Text(PlacesOf(h))
    else
      NatDigitsLength(h / 100);
      NatDigits(h / 100) + ['.', DigitChar(h / 10 % 10), DigitChar(h % 10)]
  }

  lemma NatDigitsLength(n: nat)
    ensures n < 100 <==> |NatDigits(n)| <= 2
  {
    if n >= 10 {
      assert |NatDigits(n)| == |NatDigits(n / 10)| + 1;
      assert n / 10 < 10 <==> n < 100;
    }
  }

  /** Decimal(s) for a fixed-point text, in hundredths. */
  function ParseFixed(s: seq<char>): nat
    requires WellFormed(s)
  {
    ParseNat(s[..|s| - 3]) * 100 + ParseNat(s[|s| - 2..])
  }

  /** What Decimal(s) reads: the whole part before the point, plus the two
      decimals after it as tenths and hundredths, which add less than one whole. */
  lemma ParseFixedParts(s: seq<char>)
    requires WellFormed(s)
    ensures ParseFixed(s) == ParseNat(s[..|s| - 3]) * 100 + DigitValue(s[|s| - 2]) * 10 + DigitValue(s[|s| - 1])
    ensures ParseNat(s[..|s| - 3]) * 100 <= ParseFixed(s) < (ParseNat(s[..|s| - 3]) + 1) * 100
  {
    assert s[|s| - 2..] == [s[|s| - 2], s[|s| - 1]];
    ParseTwo(s[|s| - 2], s[|s| - 1]);
  }

  lemma ParseTwo(a: char, b: char)
    requires IsDigit(a) && IsDigit(b)
    ensures ParseNat([a, b]) == DigitValue(a) * 10 + DigitValue(b)
  {
    assert [a, b] == [a] + [b] && [a] == [] + [a];
    ParseNatAppend([], a);
    ParseNatAppend([a], b);
  }

  /** A five-cell text reads as the weight its places spell. */
  lemma ParseText(p: Places)
    ensures WellFormed(Text(p)) && ParseFixed(Text(p)) == Hundredths(p)
  {
    var s := Text(p);
    assert s[..2] == [DigitChar(p.tens), DigitChar(p.units)];
    assert s[3..] == [DigitChar(p.tenths), DigitChar(p.hundredths)];
    ParseTwo(DigitChar(p.tens), DigitChar(p.units));
    ParseTwo(DigitChar(p.tenths), DigitChar(p.hundredths));
    DigitValueOfChar(p.tens);
    DigitValueOfChar(p.units);
    DigitValueOfChar(p.tenths);
    DigitValueOfChar(p.hundredths);
  }

  lemma SplitHundredths(h: nat)
    ensures h / 10 % 10 < 10 && h % 10 < 10
    ensures h / 100 * 100 + (h / 10 % 10) * 10 + h % 10 == h
  {
  }

  lemma ParseFormatLong(h: nat)
    requires h >= 10000
    ensures WellFormed(Format(h)) && ParseFixed(Format(h)) == h
  {
    var s := Format(h);
    var whole := NatDigits(h / 100);
    var c, d := DigitChar(h / 10 % 10), DigitChar(h % 10);
    assert s == whole + ['.', c, d];
    assert s[..|s| - 3] == whole;
    assert s[|s| - 2..] == [c, d];
    ParseNatDigits(h / 100);
    ParseTwo(c, d);
    DigitValueOfChar(h / 10 % 10);
    DigitValueOfChar(h % 10);
    SplitHundredths(h);
  }

  /** Round trip: the display text of any weight is well formed and reads back as that weight. */
  lemma ParseFormat(h: nat)
    ensures WellFormed(Format(h)) && ParseFixed(Format(h)) == h
  {
    if h < 10000 {
      ParseText(PlacesOf(h));
    } else {
      ParseFormatLong(h);
    }
  }

  /** Round trip the other way: every five-cell fixed-point text is the display
      text of the weight it reads as. */
  lemma FormatParseShort(s: seq<char>)
    requires WellFormed(s) && |s| == 5
    ensures ParseFixed(s) < 10000 && Format(ParseFixed(s)) == s
  {
    assert s[..2] == [s[0], s[1]] && s[3..] == [s[3], s[4]];
    var p := Places(DigitValue(s[0]), DigitValue(s[1]), DigitValue(s[3]), DigitValue(s[4]));
    assert s == Text(p);
    ParseText(p);
    PlacesOfValue(p);
  }

  // ---------------------------------------------------------------------------
  // Editing one digit

  /** The cells a cursor may select: every cell of "DD.DD" except the point. */
  predicate IsCursor(i: int) {
    i == 0 || i == 1 || i == 3 || i == 4
  }

  /** The place shown in cursor cell i. */
  function Get(p: Places, i: nat): Digit
    requires IsCursor(i)
  {
    if i == 0 then p.tens else if i == 1 then p.units else if i == 3 then p.tenths else p.hundredths
  }

  /** p with the place shown in cursor cell i replaced by v. */
  function Set(p: Places, i: nat, v: Digit): (q: Places)
    requires IsCursor(i)
    ensures Get(q, i) == v
    ensures forall j :: IsCursor(j) && j != i ==> Get(q, j) == Get(p, j)
  {
    if i == 0 then p.(tens := v) else if i == 1 then p.(units := v) else if i == 3 then p.(tenths := v) else p.(hundredths := v)
  }

  /** Each cursor cell of the text shows its place. */
  lemma TextCells(p: Places, i: nat)
    requires IsCursor(i)
    ensures Text(p)[i] == DigitChar(Get(p, i))
  {
  }

  /** The in-place edit of one cell: a digit becomes its successor mod 10; any
      other character is left as it is. */
  function Bump(s: seq<char>, i: nat): (r: seq<char>)
    requires i < |s|
    ensures |r| == |s|
    ensures forall j :: 0 <= j < |s| && j != i ==> r[j] == s[j]
    ensures IsDigit(s[i]) ==> r[i] == Succ(s[i])
    ensures !IsDigit(s[i]) ==> r == s
  {
    if IsDigit(s[i]) then s[i := Succ(s[i])] else s
  }

  /** Bumping a cell keeps the text well formed. */
  lemma BumpWellFormed(s: seq<char>, i: nat)
    requires WellFormed(s) && i < |s|
    ensures WellFormed(Bump(s, i))
  {
    var r := Bump(s, i);
    forall j | 0 <= j < |r| && j != |r| - 3
      ensures IsDigit(r[j])
    {
      if j < |s| - 3 {
        assert s[..|s| - 3][j] == s[j];
      } else {
        assert s[|s| - 2..][j - (|s| - 2)] == s[j];
      }
    }
    assert AllDigits(r[..|r| - 3]);
    assert AllDigits(r[|r| - 2..]);
  }

  /** increment_digit on the weight: bump the selected cell of the display text
      and read the text back. */
  function IncrementWeight(h: nat, i: nat): nat
    requires IsCursor(i)
  {
    var s := Format(h);
    ParseFormat(h);
    BumpWellFormed(s, i);
    ParseFixed(Bump(s, i))
  }

  /** The bumped display text is a decimal, and reading it back is the increment. */
  lemma IncrementReadsBump(h: nat, i: nat)
    requires IsCursor(i)
    ensures WellFormed(Bump(Format(h), i)) && IncrementWeight(h, i) == ParseFixed(Bump(Format(h), i))
  {
    ParseFormat(h);
    BumpWellFormed(Format(h), i);
  }

  /** The isdigit guard: a cell that is not a digit (the point, once the whole
      part has three digits or more) leaves the weight as it was. */
  lemma IncrementNonDigit(h: nat, i: nat)
    requires IsCursor(i) && !IsDigit(Format(h)[i])
    ensures IncrementWeight(h, i) == h
  {
    ParseFormat(h);
  }

  /** p with the place under cursor cell i advanced k times, mod 10. */
  function Roll(p: Places, i: nat, k: nat): (q: Places)
    requires IsCursor(i)
    ensures Get(q, i) == (Get(p, i) + k) % 10
    ensures forall j :: IsCursor(j) && j != i ==> Get(q, j) == Get(p, j)
  {
    Set(p, i, (Get(p, i) + k) % 10)
  }

  /** Advancing j times and then k times is advancing j + k times; ten times is no change. */
  lemma RollTwice(p: Places, i: nat, j: nat, k: nat)
    requires IsCursor(i)
    ensures Roll(Roll(p, i, j), i, k) == Roll(p, i, j + k)
    ensures k % 10 == 0 ==> Roll(p, i, k) == p
  {
    RollAdd(p, i, j, k);
    if k % 10 == 0 {
      RollWhole(p, i, k);
    }
  }

  lemma RollAdd(p: Places, i: nat, j: nat, k: nat)
    requires IsCursor(i)
    ensures Roll(Roll(p, i, j), i, k) == Roll(p, i, j + k)
  {
    var a := (Get(p, i) + j) % 10;
    SetTwice(p, i, a, (a + k) % 10);
    ModAdd(Get(p, i) + j, k);
  }

  lemma RollWhole(p: Places, i: nat, k: nat)
    requires IsCursor(i) && k % 10 == 0
    ensures Roll(p, i, k) == p
  {
    ModAdd(Get(p, i), k);
    SetSame(p, i);
  }

  /** Writing a place twice keeps the second value. */
  lemma SetTwice(p: Places, i: nat, v: Digit, w: Digit)
    requires IsCursor(i)
    ensures Set(Set(p, i, v), i, w) == Set(p, i, w)
  {
  }

  /** Writing back the value a place holds changes nothing. */
  lemma SetSame(p: Places, i: nat)
    requires IsCursor(i)
    ensures Set(p, i, Get(p, i)) == p
  {
  }

  lemma ModAdd(x: nat, k: nat)
    ensures (x % 10 + k) % 10 == (x + k) % 10
    ensures k % 10 == 0 ==> (x + k) % 10 == x % 10
  {
    ModShift(x % 10 + k, x / 10);
    if k % 10 == 0 {
      ModShift(x, k / 10);
    }
  }

  /** Adding whole tens does not change the last digit. */
  lemma ModShift(y: nat, m: nat)
    ensures (y + 10 * m) % 10 == y % 10
  {
  }

  /** Bumping a cursor cell of a five-cell text advances that place once. */
  lemma BumpText(p: Places, i: nat)
    requires IsCursor(i)
    ensures Bump(Text(p), i) == Text(Roll(p, i, 1))
  {
    DigitValueOfChar(Get(p, i));
  }

  /** Within the display range an increment advances the selected decimal place
      by one, mod 10, and changes no other place: there is no carry. */
  lemma IncrementPlaces(p: Places, i: nat)
    requires IsCursor(i)
    ensures IncrementWeight(Hundredths(p), i) == Hundredths(Roll(p, i, 1))
  {
    PlacesOfValue(p);
    BumpText(p, i);
    ParseText(Roll(p, i, 1));
  }

  /** The same, for a weight below 100.00: the digit d in the selected place becomes
      (d + 1) mod 10 and the weight stays below 100.00. */
  lemma IncrementValue(h: nat, i: nat)
    requires IsCursor(i) && h < 10000
    ensures IncrementWeight(h, i) == Hundredths(Roll(PlacesOf(h), i, 1)) < 10000
  {
    IncrementPlaces(PlacesOf(h), i);
  }

  /** The display text after an increment differs from the one before in the
      selected cell only, which holds the next digit, and stays five cells long. */
  lemma IncrementShape(h: nat, i: nat)
    requires IsCursor(i) && h < 10000
    ensures IsDigit(Format(h)[i])
    ensures IncrementWeight(h, i) < 10000
    ensures Format(IncrementWeight(h, i)) == Bump(Format(h), i) == Format(h)[i := Succ(Format(h)[i])]
  {
    var p := PlacesOf(h);
    IncrementValue(h, i);
    PlacesOfValue(Roll(p, i, 1));
    BumpText(p, i);
  }

  /** n increments at the same cursor. */
  function IncrementTimes(h: nat, i: nat, n: nat): nat
    requires IsCursor(i)
  {
    if n == 0 then h else IncrementWeight(IncrementTimes(h, i, n - 1), i)
  }

  /** After n increments the selected place holds the original digit plus n, mod
      10, and every other place is unchanged. */
  lemma {:induction false} IncrementTimesPlaces(p: Places, i: nat, n: nat)
    requires IsCursor(i)
    ensures IncrementTimes(Hundredths(p), i, n) == Hundredths(Roll(p, i, n))
    decreases n, 1
  {
    if n == 0 {
      RollTwice(p, i, 0, 0);
    } else {
      IncrementTimesStep(p, i, n);
    }
  }

  /** The induction step of IncrementTimesPlaces: n - 1 increments, then one more. */
  lemma IncrementTimesStep(p: Places, i: nat, n: nat)
    requires IsCursor(i) && n > 0
    ensures IncrementTimes(Hundredths(p), i, n) == Hundredths(Roll(p, i, n))
    decreases n, 0
  {
    IncrementTimesPlaces(p, i, n - 1);
    IncrementAfterRoll(p, i, n - 1);
  }

  lemma IncrementAfterRoll(p: Places, i: nat, k: nat)
    requires IsCursor(i)
    ensures IncrementWeight(Hundredths(Roll(p, i, k)), i) == Hundredths(Roll(p, i, k + 1))
  {
    IncrementPlaces(Roll(p, i, k), i);
    RollTwice(p, i, k, 1);
  }

  /** Any multiple of ten increments of the same cell gives back the original weight. */
  lemma TenIncrementsRestore(h: nat, i: nat, n: nat)
    requires IsCursor(i) && h < 10000 && n % 10 == 0
    ensures IncrementTimes(h, i, n) == h
  {
    var p := PlacesOf(h);
    IncrementTimesPlaces(p, i, n);
    RollTwice(p, i, 0, n);
    RollTwice(p, i, 0, 0);
  }

  /** Between 100.00 and 999.99 the text has six cells and cursor 3 sits on the
      decimal point, where an increment changes nothing. */
  lemma IncrementOnPoint(h: nat)
    requires 10000 <= h < 100000
    ensures Format(h)[3] == '.'
    ensures IncrementWeight(h, 3) == h
  {
    ThreeDigits(h / 100);
    assert Format(h) == NatDigits(h / 100) + ['.', DigitChar(h / 10 % 10), DigitChar(h % 10)];
    IncrementNonDigit(h, 3);
  }

  /** Between 1000.00 and 9999.99 the text has seven cells: cursor 3 is a digit
      of the whole part and cursor 4 sits on the decimal point, where an
      increment changes nothing. */
  lemma IncrementOnPointThousands(h: nat)
    requires 100000 <= h < 1000000
    ensures IsDigit(Format(h)[3]) && Format(h)[4] == '.'
    ensures IncrementWeight(h, 4) == h
  {
    FourDigits(h / 100);
    assert Format(h) == NatDigits(h / 100) + ['.', DigitChar(h / 10 % 10), DigitChar(h % 10)];
    IncrementNonDigit(h, 4);
  }

  lemma ThreeDigits(w: nat)
    requires 100 <= w < 1000
    ensures |NatDigits(w)| == 3
  {
    NatDigitsLength(w / 10);
  }

  lemma FourDigits(w: nat)
    requires 1000 <= w < 10000
    ensures |NatDigits(w)| == 4
  {
    ThreeDigits(w / 10);
  }

  // ---------------------------------------------------------------------------
  // The cursor

  /** move_to_next_digit: advance modulo 5 and step over the point. */
  function NextCursor(i: nat): (j: nat)
    ensures IsCursor(j)
    ensures IsCursor(i) ==> j == (if i == 4 then 0 else if i == 1 then 3 else i + 1)
  {
    var k := (i + 1) % 5;
    if k == 2 then 3 else k
  }

  /** Four advances bring the cursor back, visiting 0, 1, 3, 4 in turn. */
  lemma CursorCycle(i: nat)
    requires IsCursor(i)
    ensures NextCursor(0) == 1 && NextCursor(1) == 3 && NextCursor(3) == 4 && NextCursor(4) == 0
    ensures NextCursor(NextCursor(NextCursor(NextCursor(i)))) == i
  {
  }

  // ---------------------------------------------------------------------------
  // Button priority

  /** One sample of the two buttons (button2 also reports a hold past its hold time). */
  datatype Buttons = Buttons(button1Pressed: bool, button2Pressed: bool, button2Held: bool)

  datatype Action = Shutdown | ToggleMode | Increment | Advance | Idle

  /** The polling loop's priority: hold of button 2, both pressed, button 1, button 2. */
  function Dispatch(b: Buttons): (a: Action)
    ensures a == Shutdown <==> b.button2Held
    ensures a == ToggleMode <==> !b.button2Held && b.button1Pressed && b.button2Pressed
    ensures a == Increment <==> !b.button2Held && b.button1Pressed && !b.button2Pressed
    ensures a == Advance <==> !b.button2Held && !b.button1Pressed && b.button2Pressed
    ensures a == Idle <==> !b.button2Held && !b.button1Pressed && !b.button2Pressed
  {
    if b.button2Held then Shutdown
    else if b.button1Pressed && b.button2Pressed then ToggleMode
    else if b.button1Pressed then Increment
    else if b.button2Pressed then Advance
    else Idle
  }
}
