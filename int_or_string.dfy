/** Values that are either a count or a percentage string, as used for the
    `maxUnavailable` and `maxSurge` rolling-update parameters, and the checks
    the rolling-update validators apply to them. */
module IntOrPercent {
  import opened FieldPaths
  import opened Names

  datatype IntOrString = FromInt(intVal: int) | FromString(strVal: string)

  /** Matches `^[0-9]+%$`. */
  predicate IsValidPercent(s: string)
  {
    2 <= |s| && s[|s| - 1] == '%' && AllDigits(s[..|s| - 1])
  }

  /** Go's strconv.Atoi on a decimal string: an optional sign and at least one digit. */
  function Atoi(s: string): Option<int>
  {
    if 2 <= |s| && (s[0] == '-' || s[0] == '+') && AllDigits(s[1..]) then
      var magnitude: int := ParseNat(s[1..]);
      Some(if s[0] == '-' then -magnitude else magnitude)
    else if 1 <= |s| && AllDigits(s) then Some(ParseNat(s))
    else None
  }

  /** Reading back the decimal text of any integer gives the integer. */
  lemma AtoiIntToString(i: int)
    ensures Atoi(IntToString(i)) == Some(i)
  {
    if i < 0 {
      ParseNatToString(-i);
      assert IntToString(i)[1..] == NatToString(-i);
    } else {
      ParseNatToString(i);
    }
  }

  /** The integer a value stands for when used as a count: a string that is
      not a decimal integer counts as 0, as IntOrString.IntValue does. */
  function IntValue(v: IntOrString): int
  {
    match v
    case FromInt(i) => i
    case FromString(s) => match Atoi(s) case Some(n) => n case None => 0
  }

  /** The number in front of `%` when the value is a well-formed percentage. */
  function PercentValue(v: IntOrString): (r: Option<nat>)
    ensures r.Some? <==> v.FromString? && IsValidPercent(v.strVal)
  {
    if v.FromString? && IsValidPercent(v.strVal) then Some(ParseNat(v.strVal[..|v.strVal| - 1])) else None
  }

  /** Writing `n%` and reading it back gives `n`. */
  lemma PercentRoundTrip(n: nat)
    ensures PercentValue(FromString(NatToString(n) + "%")) == Some(n)
  {
    var s := NatToString(n) + "%";
    assert s[..|s| - 1] == NatToString(n);
    ParseNatToString(n);
  }

  /** The percentage if the value is one, otherwise its integer value. */
  function IntOrPercentValue(v: IntOrString): int
  {
    match PercentValue(v) case Some(p) => p case None => IntValue(v)
  }

  /** A string must be a percentage and an integer must not be negative. */
  function ValidatePositiveIntOrPercent(v: IntOrString, p: Path): (errs: seq<Error>)
    ensures errs == [] <==> (v.FromString? ==> IsValidPercent(v.strVal)) && (v.FromInt? ==> v.intVal >= 0)
    ensures forall e :: e in errs ==> e.field == p && e.kind == Invalid
  {
    match v
    case FromString(s) =>
      if IsValidPercent(s) then [] else [InvalidError(p, s, "must be an integer or percentage (e.g '5%')")]
    case FromInt(i) => ValidateNonnegativeField(i, p)
  }

  /** A negative count is refused. */
  function ValidateNonnegativeField(value: int, p: Path): (errs: seq<Error>)
    ensures errs == [] <==> value >= 0
    ensures forall e :: e in errs ==> e.field == p && e.kind == Invalid && e.detail == "must be greater than or equal to 0"
  {
    if value < 0 then [InvalidError(p, IntToString(value), "must be greater than or equal to 0")] else []
  }

  /** A percentage above 100 is refused; counts are not limited here. */
  function IsNotMoreThan100Percent(v: IntOrString, p: Path): (errs: seq<Error>)
    ensures errs == [] <==> (PercentValue(v).Some? ==> PercentValue(v).value <= 100)
    ensures forall e :: e in errs ==> e.field == p && e.kind == Invalid && e.detail == "must not be greater than 100%"
  {
    match PercentValue(v)
    case Some(n) => if n <= 100 then [] else [InvalidError(p, v.strVal, "must not be greater than 100%")]
    case None => []
  }

  function ValueText(v: IntOrString): string
  {
    match v case FromInt(i) => IntToString(i) case FromString(s) => s
  }

  lemma PercentExamples()
    ensures !IsValidPercent("20Percent")
    ensures PercentValue(FromString("110%")) == Some(110)
    ensures PercentValue(FromString("150%")) == Some(150)
    ensures IntOrPercentValue(FromString("0%")) == 0
    ensures IntOrPercentValue(FromInt(0)) == 0
    ensures IntOrPercentValue(FromInt(1)) == 1
  {
    assert "20Percent"[..8][2] == 'P';
    PercentRoundTrip(110);
    PercentRoundTrip(150);
    PercentRoundTrip(0);
    assert NatToString(110) + "%" == "110%";
    assert NatToString(150) + "%" == "150%";
    assert NatToString(0) == "0";
  }
}
