/** Field paths and validation errors: the locator attached to every error
    and the error record itself. */
module FieldPaths {

  /** One step of a path: a named child field, a list index or a map key. */
  datatype Step = Child(name: string) | Index(i: nat) | Key(k: string)

  /** A path from the root of an object to one of its fields. */
  type Path = seq<Step>

  /** A path of named children, as built by chaining `Child` calls from a root. */
  function Fields(names: seq<string>): (p: Path)
    ensures |p| == |names|
    ensures forall i :: 0 <= i < |names| ==> p[i] == Child(names[i])
  {
    if names == [] then [] else [Child(names[0])] + Fields(names[1..])
  }

  predicate IsDigit(c: char) { '0' <= c <= '9' }

  predicate AllDigits(s: string) { forall i :: 0 <= i < |s| ==> IsDigit(s[i]) }

  function DigitChar(d: nat): (c: char)
    requires d < 10
    ensures IsDigit(c)
  {
    ('0' as int + d) as char
  }

  function DigitValue(c: char): nat
    requires IsDigit(c)
  {
    c as int - '0' as int
  }

  /** Decimal text of a natural number, without leading zeros. */
  function NatToString(n: nat): (s: string)
    ensures 1 <= |s| && AllDigits(s)
    ensures |s| > 1 ==> s[0] != '0'
    decreases n
  {
    if n < 10 then [DigitChar(n)] else NatToString(n / 10) + [DigitChar(n % 10)]
  }

  /** The value of a string of decimal digits. */
  function ParseNat(s: string): nat
    requires AllDigits(s)
  {
    if s == [] then 0 else 10 * ParseNat(s[..|s| - 1]) + DigitValue(s[|s| - 1])
  }

  /** Reading back the decimal text of a number gives the number. */
  lemma {:induction false} ParseNatToString(n: nat)
    ensures ParseNat(NatToString(n)) == n
    decreases n
  {
    var s := NatToString(n);
    if n >= 10 {
      ParseNatToString(n / 10);
      assert s[..|s| - 1] == NatToString(n / 10);
    }
  }

  /** Decimal text of an integer, with a leading `-` when negative. */
  function IntToString(i: int): (s: string)
    ensures 1 <= |s|
    ensures i < 0 <==> s[0] == '-'
  {
    if i < 0 then "-" + NatToString(-i) else NatToString(i)
  }

  /** Text of one step; `first` is true for the root step, which has no leading dot. */
  function StepText(s: Step, first: bool): string
  {
    match s
    case Child(name) => if first then name else "." + name
    case Index(i) => "[" + NatToString(i) + "]"
    case Key(k) => "[" + k + "]"
  }

  /** The path as shown in error messages, e.g. `spec.rules[0].http.paths[0].path`. */
  function Render(p: Path): string
  {
    if p == [] then "" else StepText(p[0], true) + RenderTail(p[1..])
  }

  /** Text of the steps after the root, each child with its leading dot. */
  function RenderTail(q: Path): string
  {
    if q == [] then "" else StepText(q[0], false) + RenderTail(q[1..])
  }

  lemma {:induction false} RenderTailAppend(q: Path, r: Path)
    ensures RenderTail(q + r) == RenderTail(q) + RenderTail(r)
    decreases |q|
  {
    if q == [] {
      assert q + r == r;
    } else {
      assert (q + r)[1..] == q[1..] + r;
      RenderTailAppend(q[1..], r);
    }
  }

  /** Rendering is compositional: extending a path only appends text, so an
      error under `spec.template` renders with the prefix `spec.template`. */
  lemma RenderAppend(p: Path, q: Path)
    requires p != []
    ensures Render(p + q) == Render(p) + RenderTail(q)
  {
    assert (p + q)[1..] == p[1..] + q;
    RenderTailAppend(p[1..], q);
  }

  /** `q` lies at or below `p`. */
  predicate HasPrefix(q: Path, p: Path)
  {
    |p| <= |q| && q[..|p|] == p
  }

  lemma ExtendHasPrefix(p: Path, q: Path)
    ensures HasPrefix(p + q, p)
  {
    assert (p + q)[..|p|] == p;
  }

  /** Anything below `p + q` is below `p`, and at least as long as `p + q`. */
  lemma PrefixTransitive(p: Path, q: Path)
    ensures forall r: Path :: HasPrefix(r, p + q) ==> HasPrefix(r, p) && |r| >= |p| + |q|
  {
    forall r: Path | HasPrefix(r, p + q)
      ensures HasPrefix(r, p)
    {
      assert r[..|p|] == (p + q)[..|p|];
    }
  }

  /** What kind of failure an error reports. */
  datatype ErrorKind = Required | Invalid | NotSupported | Forbidden | TooLong

  /** One validation failure: where, what kind, the offending value as text, and a detail. */
  datatype Error = Error(field: Path, kind: ErrorKind, value: string, detail: string)

  function RequiredError(p: Path, detail: string): Error
  {
    Error(p, Required, "", detail)
  }

  function InvalidError(p: Path, value: string, detail: string): Error
  {
    Error(p, Invalid, value, detail)
  }

  function ForbiddenError(p: Path, detail: string): Error
  {
    Error(p, Forbidden, "", detail)
  }

  /** A value outside a fixed allow-list; the detail lists the supported values. */
  function NotSupportedError(p: Path, value: string, allowed: seq<string>): Error
  {
    Error(p, NotSupported, value, "supported values: " + QuotedList(allowed))
  }

  function QuotedList(xs: seq<string>): string
  {
    if xs == [] then ""
    else if |xs| == 1 then "\"" + xs[0] + "\""
    else "\"" + xs[0] + "\", " + QuotedList(xs[1..])
  }

  /** The paths of a list of errors. */
  function FieldsOf(errs: seq<Error>): (ps: seq<Path>)
    ensures |ps| == |errs|
    ensures forall i :: 0 <= i < |errs| ==> ps[i] == errs[i].field
  {
    if errs == [] then [] else [errs[0].field] + FieldsOf(errs[1..])
  }
}
