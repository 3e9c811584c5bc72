/**
  The phone-number input mask. The same `input` handler is attached in two
  places: to every `tel` input by the site script and to the `phone` input of
  the request page; both compute `FormatPhone`.
 */
module PhoneMask {
  import opened JsText

  // ---------------------------------------------------------------------------
  // The template `+7 (ddd) ddd-dd-dd`
  // ---------------------------------------------------------------------------

  /** A cell of the template: a fixed character, or the slot of the k-th digit after the leading 7. */
  datatype Cell = Lit(c: char) | Slot(k: nat)

  /** `+7 (ddd) ddd-dd-dd`, eighteen cells with ten digit slots. */
  const Template: seq<Cell> := [
    Lit('+'), Lit('7'), Lit(' '), Lit('('), Slot(0), Slot(1), Slot(2), Lit(')'), Lit(' '),
    Slot(3), Slot(4), Slot(5), Lit('-'), Slot(6), Slot(7), Lit('-'), Slot(8), Slot(9)]

  /** At most eleven digits (the 7 and ten more) are laid out. */
  const MaxDigits: nat := 11

  /** Position in `Template` of the slot of digit `k`. */
  function SlotPos(k: nat): (p: nat)
    requires k < 10
    ensures p < |Template| && Template[p] == Slot(k)
  {
    match k
    case 0 => 4 case 1 => 5 case 2 => 6
    case 3 => 9 case 4 => 10 case 5 => 11
    case 6 => 13 case 7 => 14
    case 8 => 16 case _ => 17
  }

  /** How many template cells are shown once `n` digits after the leading 7 are known. */
  function Shown(n: nat): (len: nat)
    requires n <= 10
    ensures 2 <= len <= |Template|
  {
    if n == 0 then 2 else SlotPos(n - 1) + 1
  }

  /** A slot inside the shown part belongs to a known digit. */
  lemma SlotShown(i: nat, n: nat)
    requires n <= 10 && i < Shown(n) && Template[i].Slot?
    ensures Template[i].k < n
  {
  }

  /**
    The template shown up to the last known digit, cell by cell: digit `k` of
    `ds` in slot `k`, and every fixed character before the last shown slot.
   */
  function Layout(ds: string): (r: string)
    requires |ds| <= 10
  {
    seq(Shown(|ds|), i requires 0 <= i < Shown(|ds|) =>
      match Template[i]
      case Lit(c) => c
      case Slot(k) => SlotShown(i, |ds|); ds[k])
  }

  /** The fixed characters shown just before the slot of digit `k`. */
  function Sep(k: nat): string {
    if k == 0 then " (" else if k == 3 then ") " else if k == 6 || k == 8 then "-" else ""
  }

  /** The same layout built digit by digit: `+7`, then each digit after its separator. */
  function Fill(ds: string): (r: string)
    requires |ds| <= 10
    decreases |ds|
  {
    if ds == "" then "+7"
    else Fill(ds[..|ds| - 1]) + Sep(|ds| - 1) + [ds[|ds| - 1]]
  }

  /** Between slots `k - 1` and `k` the template holds exactly `Sep(k)`. */
  lemma TemplateStep(k: nat)
    requires k < 10
    ensures Shown(k + 1) == Shown(k) + |Sep(k)| + 1
    ensures forall j | 0 <= j < |Sep(k)| :: Template[Shown(k) + j] == Lit(Sep(k)[j])
  {
  }

  /** Revealing one more digit of the layout appends its separator, if any, and the digit. */
  lemma {:induction false} LayoutSnoc(ds: string)
    requires 1 <= |ds| <= 10
    ensures Layout(ds) == Layout(ds[..|ds| - 1]) + Sep(|ds| - 1) + [ds[|ds| - 1]]
  {
    var n := |ds|;
    var front := ds[..n - 1];
    var rhs := Layout(front) + Sep(n - 1) + [ds[n - 1]];
    TemplateStep(n - 1);
    assert |rhs| == Shown(n);
    forall i | 0 <= i < Shown(n) ensures Layout(ds)[i] == rhs[i] {
      if i < Shown(n - 1) {
        assert rhs[i] == Layout(front)[i];
        match Template[i]
        case Lit(c) =>
        case Slot(k) =>
          SlotShown(i, n - 1);
      } else if i < Shown(n) - 1 {
        assert rhs[i] == Sep(n - 1)[i - Shown(n - 1)];
      } else {
        assert Template[i] == Slot(n - 1);
      }
    }
  }

  /** Building the mask digit by digit yields the template layout. */
  lemma {:induction false} FillIsLayout(ds: string)
    requires |ds| <= 10
    ensures Fill(ds) == Layout(ds)
    decreases |ds|
  {
    if ds == "" {
      assert Layout(ds) == "+7";
    } else {
      FillIsLayout(ds[..|ds| - 1]);
      LayoutSnoc(ds);
    }
  }

  /** `FillSnoc` for a prefix of `ds`. */
  lemma FillPrefixSnoc(ds: string, c: nat)
    requires 1 <= c <= |ds| <= 10
    ensures Fill(ds[..c]) == Fill(ds[..c - 1]) + Sep(c - 1) + [ds[c - 1]]
  {
    assert ds[..c][..c - 1] == ds[..c - 1];
  }

  /** Extending a prefix by one more element of the same slice, on plain strings. */
  lemma AppendNext(x: string, y: string, p: string, ds: string, a: nat, c: nat)
    requires a < c <= |ds|
    requires y == p + ds[a..c - 1] && x == y + "" + [ds[c - 1]]
    ensures x == p + ds[a..c]
  {
    assert ds[a..c] == ds[a..c - 1] + [ds[c - 1]];
  }

  /** Revealing digits `a` to `c - 1` of one group appends the group's separator and those digits. */
  lemma {:induction false} FillGroup(ds: string, a: nat, c: nat)
    requires a < c <= |ds| <= 10
    requires forall j | a < j < c :: Sep(j) == ""
    ensures Fill(ds[..c]) == Fill(ds[..a]) + Sep(a) + ds[a..c]
    decreases c
  {
    FillPrefixSnoc(ds, c);
    if c == a + 1 {
      assert ds[a..c] == [ds[a]];
    } else {
      FillGroup(ds, a, c - 1);
      assert Sep(c - 1) == "";
      AppendNext(Fill(ds[..c]), Fill(ds[..c - 1]), Fill(ds[..a]) + Sep(a), ds, a, c);
    }
  }

  // ---------------------------------------------------------------------------
  // The mask
  // ---------------------------------------------------------------------------

  /**
    The digit string after normalisation: empty when the input has no digit;
    otherwise it starts with 7, a leading 8 being replaced by 7 and any other
    leading digit getting a 7 in front.
   */
  function Normalized(raw: string): (v: string)
    ensures v == "" <==> DigitsOf(raw) == ""
    ensures v != "" ==> v[0] == '7' && AllDigits(v)
    ensures var d := DigitsOf(raw); d != "" && d[0] == '7' ==> v == d
    ensures var d := DigitsOf(raw); d != "" && d[0] == '8' ==> v == "7" + d[1..]
    ensures var d := DigitsOf(raw); d != "" && d[0] != '7' && d[0] != '8' ==> v == "7" + d
  {
    var d := DigitsOf(raw);
    if d == "" then ""
    else if d[0] == '8' then "7" + d[1..]
    else if d[0] == '7' then d
    else "7" + d
  }

  /** The number of digits laid out: all of them, up to eleven. */
  function Kept(v: string): nat {
    Min(|v|, MaxDigits)
  }

  /** What the mask writes back: the template filled with the digits after the leading 7. */
  function Masked(raw: string): (r: string)
    ensures r == "" <==> DigitsOf(raw) == ""
  {
    var v := Normalized(raw);
    if v == "" then "" else Fill(v[1..Kept(v)])
  }

  /** Slicing the normalised digits at one group's bounds yields that group of the laid-out digits. */
  lemma SliceGroup(v: string, a: nat, b: nat)
    requires v != "" && a < b <= 10 && a + 1 < |v|
    ensures Slice(v, a + 1, b + 1) == v[1..Kept(v)][a..Min(Kept(v) - 1, b)]
  {
  }

  /** The layout of the digits of `v` after the 7, up to the first `m` of them. */
  function Upto(v: string, m: nat): string
    requires v != ""
  {
    var ds := v[1..Kept(v)];
    Fill(ds[..Min(|ds|, m)])
  }

  /**
    One step of the handler: when the digit string reaches into the group of
    slots `a` to `b - 1`, appending the group's separator and that slice of
    `v` extends the layout to the end of the group; otherwise the layout is
    already complete.
   */
  lemma MaskGroup(v: string, a: nat, b: nat)
    requires v != "" && a < b <= 10
    requires forall j | a < j < b :: Sep(j) == ""
    ensures a + 1 < |v| ==> Upto(v, a) + Sep(a) + Slice(v, a + 1, b + 1) == Upto(v, b)
    ensures a + 1 >= |v| ==> Upto(v, a) == Upto(v, b)
  {
    var ds := v[1..Kept(v)];
    if a + 1 < |v| {
      SliceGroup(v, a, b);
      FillGroup(ds, a, Min(|ds|, b));
    }
  }

  /** With at least one digit, the mask is the layout of all the kept digits after the 7. */
  lemma MaskedUpto(raw: string)
    requires Normalized(raw) != ""
    ensures Masked(raw) == Upto(Normalized(raw), 10)
  {
    var v := Normalized(raw);
    assert v[1..Kept(v)][..Kept(v) - 1] == v[1..Kept(v)];
  }

  /** The first half of the handler: strip non-digits, turn a leading 8 into 7, and put a 7 in front of any other first digit. */
  method NormalizeDigits(raw: string) returns (value: string)
    ensures value == Normalized(raw)
  {
    value := DigitsOf(raw);
    if |value| > 0 {
      if value[0] == '8' {
        value := "7" + value[1..];
      }
      if value[0] != '7' {
        value := "7" + value;
      }
    }
  }

  /** The `input` handler on a phone field: `e.target.value` becomes `FormatPhone(e.target.value)`. */
  method FormatPhone(raw: string) returns (formatted: string)
    ensures formatted == Masked(raw)
  {
    var value := NormalizeDigits(raw);
    if value == "" {
      return "";
    }

    formatted := "+7";
    assert formatted == Upto(value, 0);
    if |value| > 1 {
      formatted := formatted + " (" + Slice(value, 1, 4);
    }
    assert formatted == Upto(value, 3) by { MaskGroup(value, 0, 3); }
    if |value| > 4 {
      formatted := formatted + ") " + Slice(value, 4, 7);
    }
    assert formatted == Upto(value, 6) by { MaskGroup(value, 3, 6); }
    if |value| > 7 {
      formatted := formatted + "-" + Slice(value, 7, 9);
    }
    assert formatted == Upto(value, 8) by { MaskGroup(value, 6, 8); }
    if |value| > 9 {
      formatted := formatted + "-" + Slice(value, 9, 11);
    }
    assert formatted == Upto(value, 10) by { MaskGroup(value, 8, 10); }
    MaskedUpto(raw);
  }

  // ---------------------------------------------------------------------------
  // Properties of the mask
  // ---------------------------------------------------------------------------

  /** A filled template is a prefix of `+7 (ddd) ddd-dd-dd`: literals in place, digits in the slots. */
  lemma FillShape(ds: string)
    requires |ds| <= 10 && AllDigits(ds)
    ensures |Fill(ds)| == Shown(|ds|) <= |Template| == 18
    ensures forall i | 0 <= i < |Fill(ds)| ::
      match Template[i]
      case Lit(c) => Fill(ds)[i] == c
      case Slot(_) => IsDigit(Fill(ds)[i])
  {
    FillIsLayout(ds);
    forall i | 0 <= i < |Fill(ds)| && Template[i].Slot?
      ensures IsDigit(Fill(ds)[i])
    {
      SlotShown(i, |ds|);
    }
  }

  /** No separator holds a digit. */
  lemma SepHasNoDigits(k: nat)
    ensures DigitsOf(Sep(k)) == ""
  {
  }

  /** The digits of a filled template are the country code 7 followed by the laid-out digits. */
  lemma {:induction false} DigitsOfFill(ds: string)
    requires |ds| <= 10 && AllDigits(ds)
    ensures DigitsOf(Fill(ds)) == "7" + ds
    decreases |ds|
  {
    if ds == "" {
      assert Fill(ds) == "+7";
      assert DigitsOf("+7") == [DigitsOf("+7")[0]] == "7";
    } else {
      var k := |ds| - 1;
      calc {
        DigitsOf(Fill(ds));
      == { assert ds[..k] == ds[..|ds| - 1]; }
        DigitsOf(Fill(ds[..k]) + Sep(k) + [ds[k]]);
      == { DigitsOfConcat(Fill(ds[..k]) + Sep(k), [ds[k]]);
           DigitsOfConcat(Fill(ds[..k]), Sep(k));
           SepHasNoDigits(k);
           DigitsOfAllDigits([ds[k]]); }
        DigitsOf(Fill(ds[..k])) + [ds[k]];
      == { DigitsOfFill(ds[..k]); }
        "7" + ds[..k] + [ds[k]];
      == { assert ds == ds[..k] + [ds[k]]; }
        "7" + ds;
      }
    }
  }

  /** The digits left in the field are the first eleven normalised digits; the rest are dropped. */
  lemma MaskedDigits(raw: string)
    ensures var v := Normalized(raw);
      DigitsOf(Masked(raw)) == v[..Kept(v)]
  {
    var v := Normalized(raw);
    if v != "" {
      DigitsOfAllDigits(v[1..Kept(v)]);
      DigitsOfFill(v[1..Kept(v)]);
      assert v[..Kept(v)] == "7" + v[1..Kept(v)];
    }
  }

  /** The field always holds a prefix of `+7 (ddd) ddd-dd-dd`, hence at most 18 characters. */
  lemma MaskedShape(raw: string)
    ensures |Masked(raw)| <= 18
    ensures forall i | 0 <= i < |Masked(raw)| ::
      match Template[i]
      case Lit(c) => Masked(raw)[i] == c
      case Slot(_) => IsDigit(Masked(raw)[i])
  {
    var v := Normalized(raw);
    if v != "" {
      FillShape(v[1..Kept(v)]);
    }
  }

  /** Each separator shows up exactly when the normalised digit string passes its length threshold. */
  lemma SeparatorThresholds(raw: string)
    ensures var v, r := Normalized(raw), Masked(raw);
      && (|v| > 0 <==> |r| >= 2 && r[..2] == "+7")
      && (|v| > 1 <==> |r| >= 4 && r[2..4] == " (")
      && (|v| > 4 <==> |r| >= 9 && r[7..9] == ") ")
      && (|v| > 7 <==> |r| >= 13 && r[12] == '-')
      && (|v| > 9 <==> |r| >= 16 && r[15] == '-')
  {
    var v, r := Normalized(raw), Masked(raw);
    if v != "" {
      FillShape(v[1..Kept(v)]);
      MaskedShape(raw);
    }
  }

  /** Re-running the handler on what it wrote back changes nothing: the mask is idempotent. */
  lemma MaskedIdempotent(raw: string)
    ensures Masked(Masked(raw)) == Masked(raw)
  {
    var v := Normalized(raw);
    if v != "" {
      MaskedDigits(raw);
      var w := v[..Kept(v)];
      assert Normalized(Masked(raw)) == w;
      assert Kept(w) == Kept(v);
      assert w[1..Kept(w)] == v[1..Kept(v)];
    }
  }

  /** A number typed with the trunk prefix 8 is shown exactly as the same number typed with 7. */
  lemma TrunkEightIsSeven(rest: string)
    ensures Masked("8" + rest) == Masked("7" + rest)
  {
    DigitsOfConcat("8", rest);
    DigitsOfConcat("7", rest);
    assert Normalized("8" + rest) == Normalized("7" + rest);
  }

  /** A number whose first digit is neither 7 nor 8 is shown as if the 7 had been typed in front of it. */
  lemma CountryCodePrepended(raw: string)
    requires DigitsOf(raw) != "" && DigitsOf(raw)[0] != '7' && DigitsOf(raw)[0] != '8'
    ensures Masked(raw) == Masked("7" + raw)
  {
    DigitsOfConcat("7", raw);
    assert Normalized("7" + raw) == Normalized(raw);
  }

  /** Once eleven digits are in, whatever is typed after them leaves the field as it was. */
  lemma ExtraDigitsDropped(raw: string, more: string)
    requires |Normalized(raw)| >= MaxDigits
    ensures Masked(raw + more) == Masked(raw)
  {
    var d := DigitsOf(raw);
    DigitsOfConcat(raw, more);
    var v, w := Normalized(raw), Normalized(raw + more);
    assert w == v + DigitsOf(more);
    assert Kept(w) == Kept(v) == MaxDigits;
    assert w[1..Kept(w)] == v[1..Kept(v)];
  }
}
