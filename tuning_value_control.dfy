/**
 * The keyboard entry of a tuning value (n/d)^(pn/pd) in Tsumiki.View/TuningValueControl.Text.cs:
 * four three-digit buffers with their lengths, the focused part, commit on focus loss with
 * clamping, reload from the parameters, and a copy/paste clipboard shared by all controls.
 */
module TuningValueControl {
  import opened Common

  datatype FocusPart = N | D | Pn | Pd

  function Ord(p: FocusPart): (k: nat)
    ensures k < 4
  {
    match p
    case N => 0
    case D => 1
    case Pn => 2
    case Pd => 3
  }

  /** `_focusedPart--` from a part after N. */
  function Prev(p: FocusPart): (q: FocusPart)
    requires p != N
    ensures Ord(q) + 1 == Ord(p)
  {
    match p
    case D => N
    case Pn => D
    case Pd => Pn
  }

  /** The keys the control maps through its key-code table; every other key is OtherKey. */
  datatype VirtualKeyCode = Back | Divide | NumPad(digit: int) | OtherKey(code: int)

  const ValidChars: seq<char> := "0123456789^/cv"

  /** ValidKeyCodes as a lookup: Divide gives '/', NumPad0..NumPad9 their digits, Back '\b'. */
  function KeyCodeChar(k: VirtualKeyCode): (c: Option<char>)
    ensures c.Some? <==> k.Back? || k.Divide? || (k.NumPad? && 0 <= k.digit <= 9)
    ensures k.NumPad? && 0 <= k.digit <= 9 ==> c == Some(ValidChars[k.digit])
  {
    match k
    case Back => Some(8 as char)
    case Divide => Some('/')
    case NumPad(d) => if 0 <= d <= 9 then Some(ValidChars[d]) else None
    case OtherKey(_) => None
  }

  /** OnKeyUp: the key is consumed exactly when it is one the control handles. */
  function OnKeyUp(key: char, keyCode: VirtualKeyCode): (handled: bool)
    ensures handled <==> key in ValidChars || KeyCodeChar(keyCode).Some?
    ensures key == 'c' || key == 'v' || key == '^' || key == '/' ==> handled
    ensures keyCode == Back ==> handled
  {
    key in ValidChars || KeyCodeChar(keyCode).Some?
  }

  // ---------------------------------------------------------------------------
  // Digits as values

  /** The fold `value = value * 10 + digit` over the entered digits. */
  function DigitsValue(s: seq<byte>): (v: int)
    ensures v >= 0
    decreases |s|
  {
    if s == [] then 0 else DigitsValue(s[..|s| - 1]) * 10 + s[|s| - 1] as int
  }

  /** GetValue: an empty part reads as 1, so an untouched control means (1/1)^(1/1). */
  function ReadValue(s: seq<byte>): (v: int)
    ensures s == [] ==> v == 1
    ensures s != [] ==> v == DigitsValue(s)
  {
    if s == [] then 1 else DigitsValue(s)
  }

  /** The digits LoadValue writes: a single 0 for 0, else hundreds, tens and units as far as they are present. */
  function Decimal(value: int): (s: seq<byte>)
    ensures |s| <= 3
    ensures value < 0 ==> s == []
    ensures value == 0 ==> s == [0]
    ensures 1 <= value < 10 ==> |s| == 1
    ensures 10 <= value < 100 ==> |s| == 2
    ensures value >= 100 ==> |s| == 3
  {
    if value == 0 then [0]
    else
      (if value >= 100 then [ToByte(value / 100)] else []) +
      (if value >= 10 then [ToByte(value / 10 % 10)] else []) +
      (if value >= 1 then [ToByte(value % 10)] else [])
  }

  /** LoadOrClearValue: the value 1 is shown as an empty part. */
  function LoadOrClear(value: int): (s: seq<byte>)
    ensures value == 1 ==> s == []
    ensures value != 1 ==> s == Decimal(value)
  {
    if value == 1 then [] else Decimal(value)
  }

  lemma DigitsValueSnoc(s: seq<byte>, x: byte)
    ensures DigitsValue(s + [x]) == DigitsValue(s) * 10 + x as int
  {
    assert (s + [x])[..|s|] == s;
  }

  /** For 0 <= v <= 999, loading v and reading it back gives v, with one decimal digit per buffer cell. */
  lemma DecimalRoundTrip(v: int)
    requires 0 <= v <= 999
    ensures ReadValue(Decimal(v)) == v
    ensures forall i :: 0 <= i < |Decimal(v)| ==> Decimal(v)[i] < 10
  {
    var s := Decimal(v);
    var q, c := v / 10, v % 10;
    var a, b := q / 10, q % 10;
    assert v == q * 10 + c;
    assert q == a * 10 + b;
    DigitsValueSnoc([], c as byte);
    if v >= 100 {
      assert v == a * 100 + (b * 10 + c);
      DivModUnique(v, 100, a, b * 10 + c);
      assert s == [a as byte] + [b as byte] + [c as byte];
      DigitsValueSnoc([], a as byte);
      DigitsValueSnoc([a as byte], b as byte);
      DigitsValueSnoc([a as byte] + [b as byte], c as byte);
    } else if v >= 10 {
      assert a == 0;
      assert s == [b as byte] + [c as byte];
      DigitsValueSnoc([], b as byte);
      DigitsValueSnoc([b as byte], c as byte);
    } else if v >= 1 {
      assert s == [] + [c as byte];
    }
  }

  /** A part shown with LoadOrClear reads back as the value, for every value of 0..999. */
  lemma LoadOrClearRoundTrip(v: int)
    requires 0 <= v <= 999
    ensures ReadValue(LoadOrClear(v)) == v
  {
    if v != 1 {
      DecimalRoundTrip(v);
    }
  }

  /** The part LoadParameters leaves focused: the last one it loaded with LoadValue. */
  function LoadFocus(dValue: int, pnValue: int, pdValue: int): (p: FocusPart)
    ensures pnValue == 1 && pdValue == 1 ==> (p == N <==> dValue == 1) && (p == D <==> dValue != 1)
    ensures !(pnValue == 1 && pdValue == 1) ==> (p == Pn <==> pdValue == 1) && (p == Pd <==> pdValue != 1)
  {
    if pnValue == 1 && pdValue == 1 then (if dValue == 1 then N else D)
    else if pdValue == 1 then Pn else Pd
  }

  /** FocusBackPart on an empty part: the nearest earlier part with digits, or N. */
  function BackTarget(p: FocusPart, lens: seq<int>): (q: FocusPart)
    requires |lens| == 4
    ensures Ord(q) <= Ord(p)
    ensures p != N ==> Ord(q) < Ord(p)
    ensures q != N ==> lens[Ord(q)] > 0
    ensures forall k :: Ord(q) < k < Ord(p) ==> lens[k] <= 0
    decreases Ord(p)
  {
    if p == N then N
    else if lens[Ord(Prev(p))] > 0 then Prev(p)
    else BackTarget(Prev(p), lens)
  }

  // ---------------------------------------------------------------------------
  // The parameters the control edits

  datatype Edit = BeginEdit | SetValue(value: int) | EndEdit | ResetToDefault(value: int)

  /** The edits SetParameterValue makes: one begin/set/end group, only when the value changes. */
  function EditsFor(before: int, after: int): (es: seq<Edit>)
    ensures before == after ==> es == []
    ensures before != after ==> es == [BeginEdit, SetValue(after), EndEdit]
  {
    if before != after then [BeginEdit, SetValue(after), EndEdit] else []
  }

  /** An integer range parameter of the view model, with the log of what the control did to it. */
  class RangeParameter {
    const id: int
    const minValue: int
    const maxValue: int
    const defaultValue: int
    var value: int
    var edits: seq<Edit>

    constructor (id: int, minValue: int, maxValue: int, defaultValue: int, value: int)
      ensures this.id == id && this.minValue == minValue && this.maxValue == maxValue
      ensures this.defaultValue == defaultValue && this.value == value && edits == []
    {
      this.id := id;
      this.minValue := minValue;
      this.maxValue := maxValue;
      this.defaultValue := defaultValue;
      this.value := value;
      edits := [];
    }

    /** `NormalizedValue = DefaultNormalizedValue`. */
    method Reset()
      modifies this
      ensures value == defaultValue && edits == old(edits) + [ResetToDefault(defaultValue)]
    {
      value := defaultValue;
      edits := edits + [ResetToDefault(defaultValue)];
    }

    /** SetParameterValue: an edit bracketed by BeginEdit and EndEdit, only when the value changes. */
    method SetIfChanged(v: int)
      modifies this
      ensures value == v
      ensures edits == old(edits) + EditsFor(old(value), v)
    {
      if value != v {
        edits := edits + [BeginEdit];
        value := v;
        edits := edits + [SetValue(v)];
        edits := edits + [EndEdit];
      }
    }
  }

  /** The static Copied* fields, shared by every control; all start at 1. */
  class Clipboard {
    var n: int
    var d: int
    var pn: int
    var pd: int

    constructor ()
      ensures n == 1 && d == 1 && pn == 1 && pd == 1
    {
      n, d, pn, pd := 1, 1, 1, 1;
    }
  }

  // ---------------------------------------------------------------------------
  // The control

  class TuningValueControl {
    const n: RangeParameter
    const d: RangeParameter
    const pn: RangeParameter
    const pd: RangeParameter
    const clipboard: Clipboard
    const nDigits: array<byte>
    const dDigits: array<byte>
    const pnDigits: array<byte>
    const pdDigits: array<byte>
    var nLength: int
    var dLength: int
    var pnLength: int
    var pdLength: int
    var focusedPart: FocusPart
    /** The focus flag of the base control; its bookkeeping is not part of this model. */
    var isFocused: bool

    ghost predicate Valid()
      reads this
    {
      nDigits.Length == 3 && dDigits.Length == 3 && pnDigits.Length == 3 && pdDigits.Length == 3 &&
      nDigits != dDigits && nDigits != pnDigits && nDigits != pdDigits &&
      dDigits != pnDigits && dDigits != pdDigits && pnDigits != pdDigits &&
      n != d && n != pn && n != pd && d != pn && d != pd && pn != pd &&
      0 <= nLength <= 3 && 0 <= dLength <= 3 && 0 <= pnLength <= 3 && 0 <= pdLength <= 3 &&
      n.minValue <= n.maxValue && d.minValue <= d.maxValue &&
      pn.minValue <= pn.maxValue && pd.minValue <= pd.maxValue
    }

    constructor (n: RangeParameter, d: RangeParameter, pn: RangeParameter, pd: RangeParameter, clipboard: Clipboard)
      requires n != d && n != pn && n != pd && d != pn && d != pd && pn != pd
      requires n.minValue <= n.maxValue && d.minValue <= d.maxValue
      requires pn.minValue <= pn.maxValue && pd.minValue <= pd.maxValue
      ensures Valid()
      ensures this.n == n && this.d == d && this.pn == pn && this.pd == pd && this.clipboard == clipboard
      ensures Lens() == [0, 0, 0, 0] && focusedPart == N && !isFocused
      ensures fresh(nDigits) && fresh(dDigits) && fresh(pnDigits) && fresh(pdDigits)
    {
      this.n, this.d, this.pn, this.pd := n, d, pn, pd;
      this.clipboard := clipboard;
      nDigits := new byte[3];
      dDigits := new byte[3];
      pnDigits := new byte[3];
      pdDigits := new byte[3];
      nLength, dLength, pnLength, pdLength := 0, 0, 0, 0;
      focusedPart := N;
      isFocused := false;
    }

    function Digits(p: FocusPart): array<byte>
      reads this
    {
      match p
      case N => nDigits
      case D => dDigits
      case Pn => pnDigits
      case Pd => pdDigits
    }

    function Length(p: FocusPart): int
      reads this
    {
      match p
      case N => nLength
      case D => dLength
      case Pn => pnLength
      case Pd => pdLength
    }

    function Parameter(p: FocusPart): RangeParameter
      reads this
    {
      match p
      case N => n
      case D => d
      case Pn => pn
      case Pd => pd
    }

    ghost function Lens(): seq<int>
      reads this
    {
      [nLength, dLength, pnLength, pdLength]
    }

    /** What part p shows: its first Length(p) digits. */
    ghost function Entered(p: FocusPart): seq<byte>
      requires Valid()
      reads this, Digits(p)
    {
      Digits(p)[..Length(p)]
    }

    /** The display after LoadParameters(a, b, c, e). */
    ghost predicate Shows(a: int, b: int, c: int, e: int)
      requires Valid()
      reads this, nDigits, dDigits, pnDigits, pdDigits
    {
      Entered(N) == Decimal(a) && Entered(D) == LoadOrClear(b) &&
      (if c == 1 && e == 1 then Entered(Pn) == [] && Entered(Pd) == []
       else Entered(Pn) == Decimal(c) && Entered(Pd) == LoadOrClear(e))
    }

    /** The ref assignment through FocusedPartLength. */
    method SetLength(p: FocusPart, len: int)
      requires Valid() && 0 <= len <= 3
      modifies this
      ensures Valid()
      ensures Lens() == old(Lens())[Ord(p) := len]
      ensures Length(p) == len && forall q :: q != p ==> Length(q) == old(Length(q))
      ensures focusedPart == old(focusedPart) && isFocused == old(isFocused)
    {
      match p
      case N => nLength := len;
      case D => dLength := len;
      case Pn => pnLength := len;
      case Pd => pdLength := len;
    }

    lemma DistinctDigits(p: FocusPart, q: FocusPart)
      requires Valid() && p != q
      ensures Digits(p) != Digits(q)
    {
    }

    /** The local GetValue of OnLostFocus. */
    method GetValue(p: FocusPart) returns (value: int)
      requires Valid()
      ensures value == ReadValue(Entered(p))
    {
      var digits := Digits(p);
      var length := Length(p);
      if length == 0 {
        return 1;
      }
      value := 0;
      var i := 0;
      while i < length
        invariant 0 <= i <= length
        invariant value == DigitsValue(digits[..i])
      {
        assert digits[..i + 1][..i] == digits[..i];
        value := value * 10 + digits[i] as int;
        i := i + 1;
      }
      assert digits[..length] == Entered(p);
    }

    /** LoadValue: focuses the part and writes the decimal digits of the value. */
    method LoadValue(p: FocusPart, value: int)
      requires Valid()
      modifies this, Digits(p)
      ensures Valid()
      ensures focusedPart == p && Entered(p) == Decimal(value)
      ensures Lens() == old(Lens())[Ord(p) := |Decimal(value)|]
      ensures forall q :: q != p ==> Entered(q) == old(Entered(q))
      ensures isFocused == old(isFocused)
    {
      focusedPart := p;
      var length := WriteDecimal(Digits(p), value);
      SetLength(p, length);
      forall q | q != p
        ensures Entered(q) == old(Entered(q))
      {
        DistinctDigits(p, q);
      }
    }

    /** The digit writes of LoadValue, into a three-cell buffer. */
    static method WriteDecimal(digits: array<byte>, value: int) returns (length: int)
      requires digits.Length == 3
      modifies digits
      ensures 0 <= length <= 3 && digits[..length] == Decimal(value)
    {
      if value == 0 {
        digits[0] := 0;
        return 1;
      }
      length := 0;
      ghost var shown: seq<byte> := [];
      if value >= 100 {
        digits[length] := ToByte(value / 100);
        shown := shown + [ToByte(value / 100)];
        length := length + 1;
      }
      assert digits[..length] == shown;
      if value >= 10 {
        digits[length] := ToByte(value / 10 % 10);
        shown := shown + [ToByte(value / 10 % 10)];
        length := length + 1;
      }
      assert digits[..length] == shown;
      if value >= 1 {
        digits[length] := ToByte(value % 10);
        shown := shown + [ToByte(value % 10)];
        length := length + 1;
      }
      assert digits[..length] == shown;
    }

    method ClearValue(p: FocusPart)
      requires Valid()
      modifies this
      ensures Valid()
      ensures Entered(p) == [] && Lens() == old(Lens())[Ord(p) := 0]
      ensures forall q :: q != p ==> Entered(q) == old(Entered(q))
      ensures focusedPart == old(focusedPart) && isFocused == old(isFocused)
    {
      SetLength(p, 0);
    }

    method LoadOrClearValue(p: FocusPart, value: int)
      requires Valid()
      modifies this, Digits(p)
      ensures Valid()
      ensures Entered(p) == LoadOrClear(value)
      ensures forall q :: q != p ==> Entered(q) == old(Entered(q))
      ensures focusedPart == (if value == 1 then old(focusedPart) else p)
      ensures isFocused == old(isFocused)
    {
      if value == 1 {
        ClearValue(p);
      } else {
        LoadValue(p, value);
      }
    }

    /** Shows the four values: D cleared when 1, Pn and Pd cleared when both are 1. */
    method LoadParameters(nValue: int, dValue: int, pnValue: int, pdValue: int)
      requires Valid()
      modifies this, nDigits, dDigits, pnDigits, pdDigits
      ensures Valid()
      ensures Shows(nValue, dValue, pnValue, pdValue)
      ensures focusedPart == LoadFocus(dValue, pnValue, pdValue)
      ensures isFocused == old(isFocused)
    {
      LoadValue(N, nValue);
      LoadOrClearValue(D, dValue);
      if pnValue == 1 && pdValue == 1 {
        ClearValue(Pn);
        ClearValue(Pd);
      } else {
        LoadValue(Pn, pnValue);
        LoadOrClearValue(Pd, pdValue);
      }
    }

    /** SetParameter of OnLostFocus for one part: the clamped typed value, written only if it differs. */
    method SetParameter(p: FocusPart)
      requires Valid()
      modifies Parameter(p)
      ensures Parameter(p).value == old(Committed(p))
      ensures Parameter(p).edits == old(Parameter(p).edits) + EditsFor(old(Parameter(p).value), Parameter(p).value)
    {
      var parameter := Parameter(p);
      var typed := GetValue(p);
      var value := ClampInt(typed, parameter.minValue, parameter.maxValue);
      parameter.SetIfChanged(value);
    }

    /** The value OnLostFocus commits for part p when it does not reset: the typed value clamped to the range. */
    ghost function Committed(p: FocusPart): int
      requires Valid()
      reads this, Digits(p), Parameter(p)
    {
      ClampInt(ReadValue(Entered(p)), Parameter(p).minValue, Parameter(p).maxValue)
    }

    /** The commit branch of OnLostFocus. */
    method SetParameters()
      requires Valid()
      modifies n, d, pn, pd
      ensures n.value == old(Committed(N)) && n.edits == old(n.edits) + EditsFor(old(n.value), n.value)
      ensures d.value == old(Committed(D)) && d.edits == old(d.edits) + EditsFor(old(d.value), d.value)
      ensures pn.value == old(Committed(Pn)) && pn.edits == old(pn.edits) + EditsFor(old(pn.value), pn.value)
      ensures pd.value == old(Committed(Pd)) && pd.edits == old(pd.edits) + EditsFor(old(pd.value), pd.value)
    {
      SetParameter(N);
      SetParameter(D);
      SetParameter(Pn);
      SetParameter(Pd);
    }

    /** The reset branch of OnLostFocus. */
    method ResetParameters()
      requires Valid()
      modifies n, d, pn, pd
      ensures n.value == n.defaultValue && n.edits == old(n.edits) + [ResetToDefault(n.defaultValue)]
      ensures d.value == d.defaultValue && d.edits == old(d.edits) + [ResetToDefault(d.defaultValue)]
      ensures pn.value == pn.defaultValue && pn.edits == old(pn.edits) + [ResetToDefault(pn.defaultValue)]
      ensures pd.value == pd.defaultValue && pd.edits == old(pd.edits) + [ResetToDefault(pd.defaultValue)]
    {
      n.Reset();
      d.Reset();
      pn.Reset();
      pd.Reset();
    }

    /**
     * OnLostFocus: an empty N with the focus on it resets all four parameters to their defaults;
     * otherwise each parameter takes the clamped typed value. Then the display is reloaded.
     */
    method OnLostFocus()
      requires Valid()
      modifies this, nDigits, dDigits, pnDigits, pdDigits, n, d, pn, pd
      ensures Valid()
      ensures old(focusedPart == N && nLength == 0) ==>
                n.value == n.defaultValue && n.edits == old(n.edits) + [ResetToDefault(n.defaultValue)] &&
                d.value == d.defaultValue && d.edits == old(d.edits) + [ResetToDefault(d.defaultValue)] &&
                pn.value == pn.defaultValue && pn.edits == old(pn.edits) + [ResetToDefault(pn.defaultValue)] &&
                pd.value == pd.defaultValue && pd.edits == old(pd.edits) + [ResetToDefault(pd.defaultValue)]
      ensures !old(focusedPart == N && nLength == 0) ==>
                n.value == old(Committed(N)) && n.edits == old(n.edits) + EditsFor(old(n.value), n.value) &&
                d.value == old(Committed(D)) && d.edits == old(d.edits) + EditsFor(old(d.value), d.value) &&
                pn.value == old(Committed(Pn)) && pn.edits == old(pn.edits) + EditsFor(old(pn.value), pn.value) &&
                pd.value == old(Committed(Pd)) && pd.edits == old(pd.edits) + EditsFor(old(pd.value), pd.value)
      ensures Shows(n.value, d.value, pn.value, pd.value)
      ensures focusedPart == LoadFocus(d.value, pn.value, pd.value)
    {
      if focusedPart == N && nLength == 0 {
        ResetParameters();
      } else {
        SetParameters();
      }
      LoadParameters(n.value, d.value, pn.value, pd.value);
    }

    /** FocusBackPart: deletes the last digit, or on an empty part moves back to the nearest part with digits. */
    method FocusBackPart()
      requires Valid()
      modifies this
      ensures Valid()
      ensures old(Length(focusedPart)) > 0 ==>
                focusedPart == old(focusedPart) &&
                Lens() == old(Lens())[Ord(focusedPart) := old(Length(focusedPart)) - 1] &&
                Entered(focusedPart) == old(Entered(focusedPart))[..old(Length(focusedPart)) - 1]
      ensures old(Length(focusedPart)) <= 0 ==>
                focusedPart == BackTarget(old(focusedPart), old(Lens())) && Lens() == old(Lens())
      ensures forall q :: q != old(focusedPart) || old(Length(focusedPart)) <= 0 ==> Entered(q) == old(Entered(q))
      ensures isFocused == old(isFocused)
    {
      var length := Length(focusedPart);
      if length > 0 {
        SetLength(focusedPart, length - 1);
      } else {
        var part := focusedPart;
        while N != part
          invariant BackTarget(old(focusedPart), Lens()) == BackTarget(part, Lens())
          decreases Ord(part)
        {
          part := Prev(part);
          if 0 < Length(part) {
            break;
          }
        }
        focusedPart := part;
      }
    }

    /** AddDigit: appends a digit unless the part already holds three. */
    method AddDigit(p: FocusPart, value: byte)
      requires Valid()
      modifies this, Digits(p)
      ensures Valid()
      ensures old(Length(p)) < 3 ==> Entered(p) == old(Entered(p)) + [value] && Lens() == old(Lens())[Ord(p) := old(Length(p)) + 1]
      ensures old(Length(p)) >= 3 ==> Entered(p) == old(Entered(p)) && Lens() == old(Lens())
      ensures forall q :: q != p ==> Entered(q) == old(Entered(q))
      ensures focusedPart == old(focusedPart) && isFocused == old(isFocused)
    {
      var length := Length(p);
      var digits := Digits(p);
      if length < digits.Length {
        digits[length] := value;
        SetLength(p, length + 1);
        assert Entered(p) == old(Entered(p)) + [value];
      }
      forall q | q != p
        ensures Entered(q) == old(Entered(q))
      {
        DistinctDigits(p, q);
      }
    }

    /** The key a character stands for, as OnKeyDown selects it: the character itself if valid, else the key-code table. */
    static function TargetChar(key: char, keyCode: VirtualKeyCode): (c: Option<char>)
      ensures key in ValidChars ==> c == Some(key)
      ensures key !in ValidChars ==> c == KeyCodeChar(keyCode)
    {
      if key in ValidChars then Some(key) else KeyCodeChar(keyCode)
    }

    /** '/' on N or Pn: an empty part becomes 1 and the focus moves to the next part. */
    method Slash()
      requires Valid()
      modifies this, nDigits, pnDigits
      ensures Valid()
      ensures old(focusedPart) == N || old(focusedPart) == Pn ==>
                Ord(focusedPart) == Ord(old(focusedPart)) + 1 &&
                Entered(old(focusedPart)) == (if old(Length(focusedPart)) == 0 then [1] else old(Entered(focusedPart))) &&
                Lens() == old(Lens())[Ord(old(focusedPart)) := |Entered(old(focusedPart))|]
      ensures old(focusedPart) == D || old(focusedPart) == Pd ==> Lens() == old(Lens()) && focusedPart == old(focusedPart)
      ensures forall q :: q != old(focusedPart) || old(focusedPart) == D || old(focusedPart) == Pd ==> Entered(q) == old(Entered(q))
      ensures isFocused == old(isFocused)
    {
      if focusedPart == N || focusedPart == Pn {
        if Length(focusedPart) == 0 {
          AddDigit(focusedPart, 1);
        }
        focusedPart := if focusedPart == N then D else Pd;
      }
    }

    /** '^' on N or D: an empty N becomes 1 and the focus jumps to the exponent's numerator. */
    method Hat()
      requires Valid()
      modifies this, nDigits
      ensures Valid()
      ensures old(focusedPart) == N || old(focusedPart) == D ==>
                focusedPart == Pn &&
                Entered(N) == (if old(nLength) == 0 then [1] else old(Entered(N))) &&
                Lens() == old(Lens())[0 := |Entered(N)|]
      ensures old(focusedPart) == Pn || old(focusedPart) == Pd ==> Lens() == old(Lens()) && focusedPart == old(focusedPart)
      ensures forall q :: q != N || old(focusedPart) == Pn || old(focusedPart) == Pd ==> Entered(q) == old(Entered(q))
      ensures isFocused == old(isFocused)
    {
      if focusedPart == N || focusedPart == D {
        if Length(N) == 0 {
          AddDigit(N, 1);
        }
        focusedPart := Pn;
      }
    }

    /**
     * OnKeyDown: Back edits backwards, 'c' copies the four parameter values, 'v' shows the copied
     * values, '/' and '^' move between parts, a digit is appended; any other key is not handled.
     */
    method OnKeyDown(key: char, keyCode: VirtualKeyCode) returns (handled: bool)
      requires Valid()
      modifies this, nDigits, dDigits, pnDigits, pdDigits, clipboard
      ensures Valid()
      ensures handled <==> keyCode == Back || TargetChar(key, keyCode).Some?
      ensures keyCode == Back && old(Length(focusedPart)) > 0 ==>
                focusedPart == old(focusedPart) &&
                Lens() == old(Lens())[Ord(focusedPart) := old(Length(focusedPart)) - 1] &&
                Entered(focusedPart) == old(Entered(focusedPart))[..old(Length(focusedPart)) - 1]
      ensures keyCode == Back && old(Length(focusedPart)) <= 0 ==>
                focusedPart == BackTarget(old(focusedPart), old(Lens())) && Lens() == old(Lens())
      ensures keyCode == Back ==>
                forall q :: q != old(focusedPart) || old(Length(focusedPart)) <= 0 ==> Entered(q) == old(Entered(q))
      ensures keyCode != Back && key != 'c' && key != 'v' && TargetChar(key, keyCode) == Some('/') ==>
                if old(focusedPart) == N || old(focusedPart) == Pn then
                  Ord(focusedPart) == Ord(old(focusedPart)) + 1 &&
                  Entered(old(focusedPart)) == (if old(Length(focusedPart)) == 0 then [1] else old(Entered(focusedPart))) &&
                  Lens() == old(Lens())[Ord(old(focusedPart)) := |Entered(old(focusedPart))|]
                else Lens() == old(Lens()) && focusedPart == old(focusedPart)
      ensures keyCode != Back && key != 'c' && key != 'v' && TargetChar(key, keyCode) == Some('/') ==>
                forall q :: q != old(focusedPart) || old(focusedPart) == D || old(focusedPart) == Pd ==> Entered(q) == old(Entered(q))
      ensures keyCode != Back && key != 'c' && key != 'v' && TargetChar(key, keyCode) == Some('^') ==>
                if old(focusedPart) == N || old(focusedPart) == D then
                  focusedPart == Pn &&
                  Entered(N) == (if old(nLength) == 0 then [1] else old(Entered(N))) &&
                  Lens() == old(Lens())[0 := |Entered(N)|]
                else Lens() == old(Lens()) && focusedPart == old(focusedPart)
      ensures keyCode != Back && key != 'c' && key != 'v' && TargetChar(key, keyCode) == Some('^') ==>
                forall q :: q != N || old(focusedPart) == Pn || old(focusedPart) == Pd ==> Entered(q) == old(Entered(q))
      ensures keyCode != Back && key == 'c' ==>
                clipboard.n == n.value && clipboard.d == d.value && clipboard.pn == pn.value && clipboard.pd == pd.value &&
                Lens() == old(Lens()) && focusedPart == old(focusedPart) &&
                forall q :: Entered(q) == old(Entered(q))
      ensures keyCode != Back && key != 'c' && key == 'v' ==>
                Shows(clipboard.n, clipboard.d, clipboard.pn, clipboard.pd) &&
                focusedPart == LoadFocus(clipboard.d, clipboard.pn, clipboard.pd)
      ensures keyCode != Back && key != 'c' ==> unchanged(clipboard)
      ensures keyCode != Back && key != 'c' && key != 'v' && TargetChar(key, keyCode).Some? &&
              '0' <= TargetChar(key, keyCode).value <= '9' ==>
                focusedPart == old(focusedPart) &&
                Entered(focusedPart) == old(Entered(focusedPart)) +
                  (if old(Length(focusedPart)) < 3 then [(TargetChar(key, keyCode).value as int - '0' as int) as byte] else []) &&
                Lens() == old(Lens())[Ord(focusedPart) := MinInt(old(Length(focusedPart)) + 1, 3)] &&
                forall q :: q != focusedPart ==> Entered(q) == old(Entered(q))
      ensures !handled ==>
                Lens() == old(Lens()) && focusedPart == old(focusedPart) && forall q :: Entered(q) == old(Entered(q))
      ensures isFocused == old(isFocused)
    {
      if keyCode == Back {
        FocusBackPart();
      } else if key == 'c' {
        clipboard.n := n.value;
        clipboard.d := d.value;
        clipboard.pn := pn.value;
        clipboard.pd := pd.value;
        return true;
      } else if key == 'v' {
        LoadParameters(clipboard.n, clipboard.d, clipboard.pn, clipboard.pd);
        return true;
      } else {
        var target := TargetChar(key, keyCode);
        if target.None? {
          return false;
        }
        TypeCharacter(target.value);
      }
      return true;
    }

    /** The character branch of OnKeyDown: '/' and '^' move between parts, any other character is a digit. */
    method TypeCharacter(c: char)
      requires Valid()
      modifies this, nDigits, dDigits, pnDigits, pdDigits
      ensures Valid()
      ensures c == '/' ==>
                if old(focusedPart) == N || old(focusedPart) == Pn then
                  Ord(focusedPart) == Ord(old(focusedPart)) + 1 &&
                  Entered(old(focusedPart)) == (if old(Length(focusedPart)) == 0 then [1] else old(Entered(focusedPart))) &&
                  Lens() == old(Lens())[Ord(old(focusedPart)) := |Entered(old(focusedPart))|]
                else Lens() == old(Lens()) && focusedPart == old(focusedPart)
      ensures c == '/' ==>
                forall q :: q != old(focusedPart) || old(focusedPart) == D || old(focusedPart) == Pd ==> Entered(q) == old(Entered(q))
      ensures c == '^' ==>
                if old(focusedPart) == N || old(focusedPart) == D then
                  focusedPart == Pn &&
                  Entered(N) == (if old(nLength) == 0 then [1] else old(Entered(N))) &&
                  Lens() == old(Lens())[0 := |Entered(N)|]
                else Lens() == old(Lens()) && focusedPart == old(focusedPart)
      ensures c == '^' ==>
                forall q :: q != N || old(focusedPart) == Pn || old(focusedPart) == Pd ==> Entered(q) == old(Entered(q))
      ensures '0' <= c <= '9' ==>
                focusedPart == old(focusedPart) &&
                Entered(focusedPart) == old(Entered(focusedPart)) +
                  (if old(Length(focusedPart)) < 3 then [(c as int - '0' as int) as byte] else []) &&
                Lens() == old(Lens())[Ord(focusedPart) := MinInt(old(Length(focusedPart)) + 1, 3)] &&
                forall q :: q != focusedPart ==> Entered(q) == old(Entered(q))
      ensures isFocused == old(isFocused) && unchanged(clipboard)
    {
      if c == '/' {
        Slash();
      } else if c == '^' {
        Hat();
      } else {
        AddDigit(focusedPart, ToByte(c as int - '0' as int));
      }
    }

    /** OnParameterChanged: any of the four ids reloads the display, but only while the control is not focused. */
    method OnParameterChanged(parameterId: int)
      requires Valid()
      modifies this, nDigits, dDigits, pnDigits, pdDigits
      ensures Valid()
      ensures (parameterId == n.id || parameterId == d.id || parameterId == pn.id || parameterId == pd.id) && !isFocused ==>
                Shows(n.value, d.value, pn.value, pd.value) && focusedPart == LoadFocus(d.value, pn.value, pd.value)
      ensures !((parameterId == n.id || parameterId == d.id || parameterId == pn.id || parameterId == pd.id) && !isFocused) ==>
                Lens() == old(Lens()) && focusedPart == old(focusedPart) &&
                unchanged(nDigits) && unchanged(dDigits) && unchanged(pnDigits) && unchanged(pdDigits)
      ensures isFocused == old(isFocused)
    {
      if parameterId == n.id || parameterId == d.id || parameterId == pn.id || parameterId == pd.id {
        if !isFocused {
          LoadParameters(n.value, d.value, pn.value, pd.value);
        }
      }
    }
  }

  /** After LoadParameters of values in 0..999, committing each part reads back exactly the loaded values. */
  lemma ShownValuesReadBack(a: int, b: int, c: int, e: int, na: seq<byte>, nb: seq<byte>, nc: seq<byte>, ne: seq<byte>)
    requires 0 <= a <= 999 && 0 <= b <= 999 && 0 <= c <= 999 && 0 <= e <= 999
    requires na == Decimal(a) && nb == LoadOrClear(b)
    requires if c == 1 && e == 1 then nc == [] && ne == [] else nc == Decimal(c) && ne == LoadOrClear(e)
    ensures ReadValue(na) == a && ReadValue(nb) == b && ReadValue(nc) == c && ReadValue(ne) == e
  {
    DecimalRoundTrip(a);
    LoadOrClearRoundTrip(b);
    DecimalRoundTrip(c);
    LoadOrClearRoundTrip(e);
  }
}
