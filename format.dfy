/**
 * `formatCount` (src/lib/utils/format.ts) on whole numbers: a compact count
 * such as "60k+" — the floored count of the largest unit that fits, with a
 * "+" when that drops something.
 */
module Format {
  import opened Wrappers
  import opened Text

  datatype Unit = Unit(suffix: string, value: nat)

  /** The unit table, largest first. */
  const Units: seq<Unit> := [Unit("T", 1_000_000_000_000), Unit("B", 1_000_000_000), Unit("M", 1_000_000), Unit("k", 1_000)]

  /** The `for … of units` search: the first unit in table order that is at most `abs`. */
  function FirstUnit(abs: nat, units: seq<Unit>): (r: Option<Unit>)
    ensures r.Some? ==> r.value in units && r.value.value <= abs
    ensures r.None? ==> forall u :: u in units ==> u.value > abs
  {
    if units == [] then None
    else if abs >= units[0].value then Some(units[0])
    else FirstUnit(abs, units[1..])
  }

  /** The table's search, case by case: each unit covers a range a thousand times wider than the next. */
  lemma FirstUnitCases(abs: nat)
    ensures var u := FirstUnit(abs, Units);
      && (abs >= 1_000_000_000_000 ==> u == Some(Units[0]))
      && (1_000_000_000 <= abs < 1_000_000_000_000 ==> u == Some(Units[1]))
      && (1_000_000 <= abs < 1_000_000_000 ==> u == Some(Units[2]))
      && (1_000 <= abs < 1_000_000 ==> u == Some(Units[3]))
      && (abs < 1_000 ==> u == None)
  {
    var t1 := Units[1..];
    var t2 := t1[1..];
    var t3 := t2[1..];
    assert t1[0] == Units[1] && t2[0] == Units[2] && t3[0] == Units[3] && t3[1..] == [];
    if abs < 1_000_000_000_000 {
      assert FirstUnit(abs, Units) == FirstUnit(abs, t1);
      if abs < 1_000_000_000 {
        assert FirstUnit(abs, t1) == FirstUnit(abs, t2);
        if abs < 1_000_000 {
          assert FirstUnit(abs, t2) == FirstUnit(abs, t3);
          if abs < 1_000 {
            assert FirstUnit(abs, t3) == FirstUnit(abs, []);
          }
        }
      }
    }
  }

  /** The count of a magnitude, without its sign: the unit search and what each outcome prints. */
  function Magnitude(abs: nat): string {
    match FirstUnit(abs, Units)
    case Some(u) =>
      assert u.value > 0;
      var base := abs / u.value;
      NatToString(base) + u.suffix + (if base * u.value != abs then "+" else "")
    case None => NatToString(abs)
  }

  /** `formatCount(n)` for an integer `n`. */
  function FormatCount(n: int): (r: string)
    ensures n < 0 ==> |r| > 0 && r[0] == '-'
  {
    var sign := if n < 0 then "-" else "";
    var abs: nat := if n < 0 then -n else n;
    sign + Magnitude(abs)
  }

  /** A negative count is "-" and then the count of its absolute value. */
  lemma FormatCountNegative(n: int)
    requires n < 0
    ensures FormatCount(n) == "-" + FormatCount(-n)
  {
    assert FormatCount(-n) == "" + Magnitude(-n) == Magnitude(-n);
  }

  /** Below a thousand the count is printed in full and reads back as itself. */
  lemma FormatCountSmall(n: nat)
    requires n < 1000
    ensures FormatCount(n) == NatToString(n)
    ensures ParseNat(FormatCount(n)) == n
  {
    FirstUnitCases(n);
    assert FormatCount(n) == "" + Magnitude(n) == Magnitude(n);
    ParseNatToString(n);
  }

  /** Floored division by a positive unit value: the whole units and what is left over. */
  lemma DivParts(n: nat, v: nat)
    requires v > 0
    ensures (n / v) * v <= n < (n / v + 1) * v
    ensures (n / v) * v != n <==> n % v != 0
    ensures v <= n ==> 1 <= n / v
    ensures n < 1000 * v ==> n / v < 1000
  {
    assert (n / v) * v + n % v == n;
  }

  /** With unit `u` chosen for `n`, the count printed and the "+" it may carry. */
  lemma UnitParts(n: nat, u: Unit)
    requires FirstUnit(n, Units) == Some(u) && u.value > 0
    ensures FormatCount(n) == NatToString(n / u.value) + u.suffix + (if n % u.value != 0 then "+" else "")
  {
    DivParts(n, u.value);
    assert FormatCount(n) == "" + Magnitude(n) == Magnitude(n);
  }

  /**
   * From a thousand up: the largest unit that fits is chosen, the number
   * printed is how many whole units fit (at least 1, and below 1000 except
   * for "T"), and "+" follows exactly when some remainder was dropped.
   */
  lemma FormatCountLarge(n: nat)
    requires n >= 1000
    ensures var u := FirstUnit(n, Units);
      && u.Some? && u.value.value > 0
      && (forall v :: v in Units && v.value <= n ==> v.value <= u.value.value)
      && var base := n / u.value.value;
      && FormatCount(n) == NatToString(base) + u.value.suffix + (if n % u.value.value != 0 then "+" else "")
      && 1 <= base && base * u.value.value <= n < (base + 1) * u.value.value
      && (u.value.suffix != "T" ==> base < 1000)
  {
    FirstUnitCases(n);
    var u := FirstUnit(n, Units).value;
    UnitParts(n, u);
    DivParts(n, u.value);
    assert forall v :: v in Units ==> v == Units[0] || v == Units[1] || v == Units[2] || v == Units[3];
  }

  /** The example of the source's own comment. */
  lemma FormatCountSixtyThousand()
    ensures FormatCount(60230) == "60k+"
  {
    UnitExample(60230, 60, true);
  }

  /** An exact multiple carries no "+". */
  lemma FormatCountExact()
    ensures FormatCount(2000) == "2k"
  {
    UnitExample(2000, 2, false);
  }

  /** A negative count keeps its sign. */
  lemma FormatCountNegativeExample()
    ensures FormatCount(-1500) == "-1k+"
  {
    UnitExample(1500, 1, true);
    FormatCountNegative(-1500);
  }

  /** Examples below 1,000,000: `n` is `base` thousands, and `plus` says whether some is left over. */
  lemma UnitExample(n: nat, base: nat, plus: bool)
    requires 1000 <= n < 1_000_000
    requires n / 1000 == base && (n % 1000 != 0 <==> plus)
    ensures FormatCount(n) == NatToString(base) + "k" + (if plus then "+" else "")
  {
    FirstUnitCases(n);
    UnitParts(n, Units[3]);
  }
}
