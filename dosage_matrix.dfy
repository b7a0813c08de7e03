/** The dosage editor of one prescribed drug (`DosageMatrix`): four on/off dosage slots
    shown in a fixed order, a timing relation chosen from four options, and a time
    offset in minutes read with JavaScript's `parseInt(...) || 0`. Every control reports
    its change as a patch holding only the field it edits. */
module Dosage {
  import opened Options
  import opened Text

  datatype Slot = Morning | Afternoon | Evening | Night

  datatype Frequency = Frequency(morning: bool, afternoon: bool, evening: bool, night: bool)

  /** `drug.frequency[time]`. */
  function Taken(f: Frequency, s: Slot): bool {
    match s
    case Morning => f.morning
    case Afternoon => f.afternoon
    case Evening => f.evening
    case Night => f.night
  }

  /** Two frequency records are equal when they agree on every slot. */
  lemma FrequencyBySlots(f: Frequency, g: Frequency)
    requires forall s: Slot :: Taken(f, s) == Taken(g, s)
    ensures f == g
  {
    assert Taken(f, Morning) == Taken(g, Morning) && Taken(f, Afternoon) == Taken(g, Afternoon);
    assert Taken(f, Evening) == Taken(g, Evening) && Taken(f, Night) == Taken(g, Night);
  }

  /** `{ ...drug.frequency, [time]: !drug.frequency[time] }`: slot `s` flipped, the other
      three copied. */
  function Flip(f: Frequency, s: Slot): (g: Frequency)
    ensures Taken(g, s) == !Taken(f, s)
    ensures forall t: Slot :: t != s ==> Taken(g, t) == Taken(f, t)
  {
    match s
    case Morning => f.(morning := !f.morning)
    case Afternoon => f.(afternoon := !f.afternoon)
    case Evening => f.(evening := !f.evening)
    case Night => f.(night := !f.night)
  }

  /** Toggling the same slot twice restores the record. */
  lemma FlipTwice(f: Frequency, s: Slot)
    ensures Flip(Flip(f, s), s) == f
  {
    var g := Flip(Flip(f, s), s);
    forall t: Slot ensures Taken(g, t) == Taken(f, t) {
    }
    FrequencyBySlots(g, f);
  }

  /** Toggles of different slots commute. */
  lemma FlipCommutes(f: Frequency, s: Slot, t: Slot)
    ensures Flip(Flip(f, s), t) == Flip(Flip(f, t), s)
  {
    if s != t {
      var g := Flip(Flip(f, s), t);
      var h := Flip(Flip(f, t), s);
      forall u: Slot ensures Taken(g, u) == Taken(h, u) {
      }
      FrequencyBySlots(g, h);
    }
  }

  /** The object a control hands to `onChange`, which the prescription page spreads over
      the drug: a field is present (Some) only when the control sets it. */
  datatype DrugPatch = DrugPatch(
    name: Option<string>, kind: Option<string>, strength: Option<string>,
    frequency: Option<Frequency>, timingRelation: Option<string>,
    timeOffsetMinutes: Option<int>, notes: Option<string>)

  const NoChange := DrugPatch(None, None, None, None, None, None, None)

  /** `toggleFrequency(time)`: a patch holding only `frequency`, with slot `s` flipped. */
  function ToggleFrequency(current: Frequency, s: Slot): (patch: DrugPatch)
    ensures patch.frequency.Some?
    ensures Taken(patch.frequency.value, s) != Taken(current, s)
    ensures forall t: Slot :: t != s ==> Taken(patch.frequency.value, t) == Taken(current, t)
    ensures patch.(frequency := None) == NoChange
  {
    NoChange.(frequency := Some(Flip(current, s)))
  }

  /** The slots as the matrix lays them out. */
  const SlotOrder: seq<Slot> := [Morning, Afternoon, Evening, Night]

  function SlotKey(s: Slot): string {
    match s
    case Morning => "morning"
    case Afternoon => "afternoon"
    case Evening => "evening"
    case Night => "night"
  }

  function UpperChar(c: char): char {
    if 'a' <= c <= 'z' then (c as int - 32) as char else c
  }

  /** `key.charAt(0).toUpperCase() + key.slice(1)`. */
  function Capitalize(key: string): (shown: string)
    ensures |shown| == |key|
    ensures key != [] ==> shown[0] == UpperChar(key[0]) && shown[1..] == key[1..]
  {
    if key == [] then [] else [UpperChar(key[0])] + key[1..]
  }

  function Label(s: Slot): string {
    Capitalize(SlotKey(s))
  }

  /** Every slot appears exactly once, in the order morning, afternoon, evening, night,
      labelled with its key's first letter in upper case. */
  lemma SlotLayout()
    ensures forall s: Slot :: s in SlotOrder
    ensures forall i, j :: 0 <= i < j < |SlotOrder| ==> SlotOrder[i] != SlotOrder[j]
    ensures seq(|SlotOrder|, i requires 0 <= i < |SlotOrder| => Label(SlotOrder[i]))
              == ["Morning", "Afternoon", "Evening", "Night"]
  {
    forall s: Slot ensures s in SlotOrder {
      match s
      case Morning => assert SlotOrder[0] == s;
      case Afternoon => assert SlotOrder[1] == s;
      case Evening => assert SlotOrder[2] == s;
      case Night => assert SlotOrder[3] == s;
    }
    assert Label(Morning) == "Morning" && Label(Afternoon) == "Afternoon";
    assert Label(Evening) == "Evening" && Label(Night) == "Night";
  }

  /** The values the timing select offers. */
  const TimingOptions: seq<string> := ["After Food", "Before Food", "With Food", "Empty Stomach"]

  /** Choosing option `k` of the select: a patch holding only `timingRelation`, which is
      one of the four options. */
  function ChooseTiming(k: nat): (patch: DrugPatch)
    requires k < |TimingOptions|
    ensures patch.timingRelation.Some? && patch.timingRelation.value in TimingOptions
    ensures patch.(timingRelation := None) == NoChange
  {
    NoChange.(timingRelation := Some(TimingOptions[k]))
  }

  // ----- parseInt -----

  /** JavaScript's white space and line terminators, which `parseInt` skips first. */
  predicate IsJsSpace(c: char) {
    c == '\t' || c == '\n' || c == '\U{B}' || c == '\U{C}' || c == '\r' || c == ' '
    || c == '\U{A0}' || c == '\U{1680}' || ('\U{2000}' <= c <= '\U{200A}')
    || c == '\U{2028}' || c == '\U{2029}' || c == '\U{202F}' || c == '\U{205F}'
    || c == '\U{3000}' || c == '\U{FEFF}'
  }

  function TrimStartJs(s: string): (r: string)
    ensures |r| <= |s| && r == s[|s| - |r|..]
    ensures forall i :: 0 <= i < |s| - |r| ==> IsJsSpace(s[i])
    ensures r == [] || !IsJsSpace(r[0])
  {
    if s == [] || !IsJsSpace(s[0]) then s else TrimStartJs(s[1..])
  }

  /** The value of `c` as a digit in base `radix` (10 or 16), if it is one. */
  function RadixDigit(c: char, radix: nat): (d: Option<nat>)
    ensures d.Some? ==> d.value < radix
    ensures radix == 10 ==> (d.Some? <==> IsDigit(c)) && (d.Some? ==> d.value == DigitValue(c))
  {
    var v :=
      if '0' <= c <= '9' then Some(c as int - '0' as int)
      else if 'a' <= c <= 'z' then Some(c as int - 'a' as int + 10)
      else if 'A' <= c <= 'Z' then Some(c as int - 'A' as int + 10)
      else None;
    if v.Some? && v.value < radix then Some(v.value as nat) else None
  }

  predicate AllRadixDigits(s: string, radix: nat) {
    forall i :: 0 <= i < |s| ==> RadixDigit(s[i], radix).Some?
  }

  /** The length of the longest prefix of `s` made of digits of base `radix`. */
  function DigitRun(s: string, radix: nat): (n: nat)
    ensures n <= |s| && AllRadixDigits(s[..n], radix)
    ensures n < |s| ==> RadixDigit(s[n], radix).None?
  {
    if s == [] || RadixDigit(s[0], radix).None? then 0
    else
      var n := DigitRun(s[1..], radix);
      assert s[..n + 1] == [s[0]] + s[1..][..n];
      n + 1
  }

  function RadixValue(s: string, radix: nat): nat
    requires AllRadixDigits(s, radix)
    decreases |s|
  {
    if s == [] then 0
    else
      assert forall i :: 0 <= i < |s| - 1 ==> s[..|s| - 1][i] == s[i];
      RadixValue(s[..|s| - 1], radix) * radix + RadixDigit(s[|s| - 1], radix).value
  }

  /** The digits at the start of `v`, in base `radix`; none is NaN. */
  function ParseDigits(v: string, radix: nat): Option<nat> {
    var n := DigitRun(v, radix);
    if n == 0 then None else Some(RadixValue(v[..n], radix))
  }

  /** An unsigned numeral: base 16 after a `0x` or `0X` prefix, base 10 otherwise. */
  function ParseMagnitude(u: string): Option<nat> {
    if |u| >= 2 && u[0] == '0' && (u[1] == 'x' || u[1] == 'X') then ParseDigits(u[2..], 16)
    else ParseDigits(u, 10)
  }

  /** `parseInt(s)` with no radix argument: skip white space, take one sign, then read an
      unsigned numeral, stopping at the first character that is not a digit; no digit at
      all is NaN (None). */
  function ParseInt(s: string): (r: Option<int>)
  {
    ParseSigned(TrimStartJs(s))
  }

  /** `parseInt` is NaN exactly when, after the white space and one sign, no numeral
      begins, and only a leading `-` gives a negative number. */
  lemma ParseIntNaN(s: string)
    ensures ParseInt(s).None? <==> !StartsNumeral(Unsigned(TrimStartJs(s)))
    ensures ParseInt(s).Some? && ParseInt(s).value < 0 ==> TrimStartJs(s)[0] == '-'
  {
    SignedNaN(TrimStartJs(s));
  }

  /** After the white space: the sign is dropped before the numeral is read. */
  lemma SignedNaN(t: string)
    ensures ParseSigned(t).None? <==> !StartsNumeral(Unsigned(t))
    ensures ParseSigned(t).Some? && ParseSigned(t).value < 0 ==> t[0] == '-'
  {
    MagnitudeNaN(Unsigned(t));
  }

  lemma MagnitudeNaN(u: string)
    ensures ParseMagnitude(u).None? <==> !StartsNumeral(u)
  {
    if |u| >= 2 && u[0] == '0' && (u[1] == 'x' || u[1] == 'X') {
      DigitsNaN(u[2..], 16);
      assert |u| >= 3 ==> u[2..][0] == u[2];
    } else {
      DigitsNaN(u, 10);
    }
  }

  /** No digit at all exactly when the first character is not a digit of the base. */
  lemma DigitsNaN(v: string, radix: nat)
    ensures ParseDigits(v, radix).None? <==> v == [] || RadixDigit(v[0], radix).None?
  {
    var n := DigitRun(v, radix);
    if n > 0 {
      assert RadixDigit(v[..n][0], radix).Some?;
    }
  }

  /** `t` without its one leading sign, if it has one. */
  function Unsigned(t: string): string {
    if t != [] && (t[0] == '-' || t[0] == '+') then t[1..] else t
  }

  /** An unsigned numeral begins here: a decimal digit, or `0x`/`0X` followed by a
      hexadecimal digit. */
  predicate StartsNumeral(u: string) {
    if |u| >= 2 && u[0] == '0' && (u[1] == 'x' || u[1] == 'X') then |u| >= 3 && RadixDigit(u[2], 16).Some?
    else u != [] && IsDigit(u[0])
  }

  /** An optional sign, then an unsigned numeral. */
  function ParseSigned(t: string): Option<int> {
    if t != [] && t[0] == '-' then Negated(ParseMagnitude(t[1..]))
    else if t != [] && t[0] == '+' then Widened(ParseMagnitude(t[1..]))
    else Widened(ParseMagnitude(t))
  }

  function Widened(m: Option<nat>): Option<int> {
    if m.None? then None else Some(m.value as int)
  }

  function Negated(m: Option<nat>): Option<int> {
    if m.None? then None else Some(-(m.value as int))
  }

  /** `parseInt(e.target.value) || 0`: NaN and 0 are both falsy, so both give 0. */
  function OffsetMinutes(input: string): (minutes: int)
    ensures ParseInt(input).None? ==> minutes == 0
    ensures ParseInt(input).Some? ==> minutes == ParseInt(input).value
  {
    match ParseInt(input)
    case None => 0
    case Some(v) => if v == 0 then 0 else v
  }

  /** The offset input: a patch holding only `timeOffsetMinutes`. */
  function OffsetPatch(input: string): (patch: DrugPatch)
    ensures patch.timeOffsetMinutes == Some(OffsetMinutes(input))
    ensures patch.(timeOffsetMinutes := None) == NoChange
  {
    NoChange.(timeOffsetMinutes := Some(OffsetMinutes(input)))
  }

  lemma {:induction false} RadixValueDecimal(s: string)
    requires AllDigits(s)
    ensures AllRadixDigits(s, 10) && RadixValue(s, 10) == DigitsValue(s)
    decreases |s|
  {
    if s != [] {
      RadixValueDecimal(s[..|s| - 1]);
    }
  }

  /** The digit run is determined by where the first non-digit stands. */
  lemma RunEndsAt(s: string, k: nat, radix: nat)
    requires k <= |s| && AllRadixDigits(s[..k], radix)
    requires k < |s| ==> RadixDigit(s[k], radix).None?
    ensures DigitRun(s, radix) == k
  {
  }

  /** A run of decimal digits ended by a non-digit is read whole. */
  lemma DecimalRun(digits: string, rest: string)
    requires |digits| >= 1 && AllDigits(digits)
    requires rest == [] || !IsDigit(rest[0])
    ensures ParseDigits(digits + rest, 10) == Some(DigitsValue(digits))
  {
    var s := digits + rest;
    assert s[..|digits|] == digits;
    if rest != [] {
      assert s[|digits|] == rest[0];
    }
    RadixValueDecimal(digits);
    RunEndsAt(s, |digits|, 10);
  }

  lemma NoLeadingSpace(s: string)
    requires s != [] && !IsJsSpace(s[0])
    ensures TrimStartJs(s) == s
  {
  }

  /** Input that starts with a digit has no white space or sign to skip. */
  lemma UnsignedStart(s: string)
    requires s != [] && IsDigit(s[0])
    ensures ParseInt(s) == Widened(ParseMagnitude(s))
  {
    NoLeadingSpace(s);
  }

  /** Without a `0x` or `0X` prefix the numeral is decimal. */
  lemma DecimalMagnitude(u: string)
    requires !(|u| >= 2 && u[0] == '0' && (u[1] == 'x' || u[1] == 'X'))
    ensures ParseMagnitude(u) == ParseDigits(u, 10)
  {
  }

  /** An unsigned decimal numeral that is not a `0x` prefix is read as decimal. */
  lemma ParseNumeral(digits: string, rest: string)
    requires |digits| >= 1 && AllDigits(digits)
    requires rest == [] || !IsDigit(rest[0])
    requires digits == "0" && rest != [] ==> rest[0] != 'x' && rest[0] != 'X'
    ensures ParseInt(digits + rest) == Some(DigitsValue(digits) as int)
  {
    var s := digits + rest;
    assert s[0] == digits[0];
    UnsignedStart(s);
    assert !(|s| >= 2 && s[0] == '0' && (s[1] == 'x' || s[1] == 'X')) by {
      if |s| >= 2 && s[0] == '0' {
        if |digits| >= 2 {
          assert s[1] == digits[1];
        } else {
          assert digits == "0" && s[1] == rest[0];
        }
      }
    }
    DecimalMagnitude(s);
    DecimalRun(digits, rest);
  }

  /** Reading a decimal numeral followed by anything that does not continue it gives the
      numeral's value: `parseInt("15")` is 15 and `parseInt("1.5")` and `parseInt("1e3")`
      are 1. After a lone `0`, an `x` would start a hexadecimal numeral instead. */
  lemma ParseDecimal(n: nat, rest: string)
    requires rest == [] || !IsDigit(rest[0])
    requires n == 0 && rest != [] ==> rest[0] != 'x' && rest[0] != 'X'
    ensures ParseInt(NatToString(n) + rest) == Some(n)
  {
    var digits := NatToString(n);
    if digits == "0" {
      assert digits[0] == '0';
    }
    ParseNumeral(digits, rest);
    NatToStringValue(n);
  }

  /** A leading minus sign negates. */
  lemma ParseNegative(n: nat)
    ensures ParseInt("-" + NatToString(n)) == Some(-(n as int))
  {
    var digits := NatToString(n);
    NatToStringValue(n);
    NegatedDecimal("-" + digits);
  }

  /** A minus sign followed only by decimal digits. */
  lemma NegatedDecimal(s: string)
    requires |s| >= 2 && s[0] == '-' && AllDigits(s[1..])
    requires s[1] == '0' ==> |s| == 2
    ensures ParseInt(s) == Some(-(DigitsValue(s[1..]) as int))
  {
    var digits := s[1..];
    assert ParseInt(s) == Negated(ParseMagnitude(digits)) by {
      NegativeStart(s);
    }
    assert ParseMagnitude(digits) == Some(DigitsValue(digits)) by {
      assert digits[0] == s[1];
      DecimalMagnitude(digits);
      DecimalWhole(digits);
    }
  }

  /** A numeral made only of decimal digits is read whole. */
  lemma DecimalWhole(digits: string)
    requires |digits| >= 1 && AllDigits(digits)
    ensures ParseDigits(digits, 10) == Some(DigitsValue(digits))
  {
    assert digits + [] == digits;
    DecimalRun(digits, []);
  }

  /** Input that starts with a minus sign has no white space to skip. */
  lemma NegativeStart(s: string)
    requires s != [] && s[0] == '-'
    ensures ParseInt(s) == Negated(ParseMagnitude(s[1..]))
  {
    NoLeadingSpace(s);
  }

  lemma {:induction false} TrimSpaces(ws: string, s: string)
    requires forall i :: 0 <= i < |ws| ==> IsJsSpace(ws[i])
    ensures TrimStartJs(ws + s) == TrimStartJs(s)
    decreases |ws|
  {
    if ws == [] {
      assert ws + s == s;
    } else {
      assert (ws + s)[0] == ws[0];
      assert (ws + s)[1..] == ws[1..] + s;
      TrimSpaces(ws[1..], s);
    }
  }

  /** Leading white space is skipped. */
  lemma SpacesSkipped(ws: string, s: string)
    requires forall i :: 0 <= i < |ws| ==> IsJsSpace(ws[i])
    ensures ParseInt(ws + s) == ParseInt(s)
  {
    TrimSpaces(ws, s);
  }

  /** Input that starts with a letter is NaN, so the offset becomes 0. */
  lemma NotANumber(s: string)
    requires s != [] && 'a' <= s[0] <= 'z'
    ensures ParseInt(s) == None && OffsetMinutes(s) == 0
  {
    NoLeadingSpace(s);
    assert ParseSigned(s) == Widened(ParseMagnitude(s));
    assert RadixDigit(s[0], 10).None?;
    assert ParseMagnitude(s) == ParseDigits(s, 10);
  }

  /** An input that is empty or only white space is NaN too. */
  lemma BlankNotANumber(s: string)
    requires forall i :: 0 <= i < |s| ==> IsJsSpace(s[i])
    ensures ParseInt(s) == None && OffsetMinutes(s) == 0
  {
    var t := TrimStartJs(s);
    assert t == [];
    assert DigitRun(t, 10) == 0;
    DecimalMagnitude(t);
  }

  /** So is a `0x` or `0X` prefix with no hexadecimal digit after it. */
  lemma BareHexNotANumber(s: string)
    requires |s| >= 2 && s[0] == '0' && (s[1] == 'x' || s[1] == 'X')
    requires |s| == 2 || RadixDigit(s[2], 16).None?
    ensures ParseInt(s) == None && OffsetMinutes(s) == 0
  {
    UnsignedStart(s);
    var v := s[2..];
    assert v != [] ==> v[0] == s[2];
    assert DigitRun(v, 16) == 0;
  }

  /** Hexadecimal after `0x`: `parseInt("0x1A")` is 26. */
  lemma HexPrefix()
    ensures ParseInt("0x1A") == Some(26)
  {
    var s := "0x1A";
    assert !IsJsSpace(s[0]) && TrimStartJs(s) == s;
    var v := s[2..];
    assert v == "1A";
    assert DigitRun(v, 16) == 2 by {
      assert v[1..] == "A";
      assert DigitRun(v[1..][1..], 16) == 0;
    }
    assert v[..2] == v;
    assert v[..1] == "1";
    assert RadixValue(v[..1], 16) == 1 by {
      assert v[..1][..0] == [];
    }
  }
}
