/** The validation layer (src/SNT/utils/parameter_validators.py): Python
    values as the configuration sees them, the checks each constraint class
    performs, and constraints as ordered lists of checks that `+` joins. */
module Validators {
  import opened Common

  /** A float, possibly infinite (NaN is not modelled). */
  datatype Ext = Fin(r: real) | PosInf | NegInf

  predicate AtMost(a: Ext, b: Ext)
  {
    match (a, b)
    case (NegInf, _) => true
    case (_, PosInf) => true
    case (Fin(x), Fin(y)) => x <= y
    case _ => false
  }

  predicate Below(a: Ext, b: Ext)
  {
    AtMost(a, b) && a != b
  }

  /** The Python values a configuration parameter can take. */
  datatype Value =
    | VNone
    | VBool(b: bool)
    | VInt(i: int)
    | VFloat(x: Ext)
    | VStr(s: string)
    | VList(items: seq<Value>)
    | VTuple(items: seq<Value>)
    | VSet(items: seq<Value>)

  /** The built-in types isinstance is asked about. */
  datatype PyType = TInt | TFloat | TBool | TStr | TList | TTuple

  /** isinstance(v, t); a bool is an int. */
  predicate InstanceOf(v: Value, t: PyType)
  {
    match t
    case TInt => v.VInt? || v.VBool?
    case TFloat => v.VFloat?
    case TBool => v.VBool?
    case TStr => v.VStr?
    case TList => v.VList?
    case TTuple => v.VTuple?
  }

  /** The number a bool, int or float stands for in comparisons. */
  function Numeric(v: Value): (n: Option<Ext>)
    ensures n.Some? <==> v.VBool? || v.VInt? || v.VFloat?
  {
    match v
    case VBool(b) => Some(Fin(if b then 1.0 else 0.0))
    case VInt(i) => Some(Fin(i as real))
    case VFloat(x) => Some(x)
    case _ => None
  }

  /** Python's ==: numbers compare by value across bool, int and float;
      lists and tuples element by element, never with each other; sets by
      their elements, whatever the order. */
  predicate PyEq(a: Value, b: Value)
  {
    if Numeric(a).Some? || Numeric(b).Some? then Numeric(a) == Numeric(b)
    else match (a, b)
      case (VNone, VNone) => true
      case (VStr(s), VStr(t)) => s == t
      case (VList(xs), VList(ys)) => |xs| == |ys| && forall k :: 0 <= k < |xs| ==> PyEq(xs[k], ys[k])
      case (VTuple(xs), VTuple(ys)) => |xs| == |ys| && forall k :: 0 <= k < |xs| ==> PyEq(xs[k], ys[k])
      case (VSet(xs), VSet(ys)) =>
        (forall k :: 0 <= k < |xs| ==> exists l :: 0 <= l < |ys| && PyEq(xs[k], ys[l])) &&
        (forall l :: 0 <= l < |ys| ==> exists k :: 0 <= k < |xs| && PyEq(xs[k], ys[l]))
      case _ => false
  }

  /** A value equals a string only when it is that string. */
  lemma PyEqString(w: Value, s: string)
    ensures PyEq(w, VStr(s)) <==> w == VStr(s)
  {
  }

  /** v in options, for a list of options. */
  predicate Among(v: Value, options: seq<Value>)
  {
    exists k :: 0 <= k < |options| && PyEq(v, options[k])
  }

  /** t occurs in s (the `in` test of two strings). */
  predicate Substring(t: string, s: string)
  {
    exists k :: 0 <= k <= |s| && OccursAt(t, s, k)
  }

  predicate OccursAt(t: string, s: string, k: int)
  {
    0 <= k <= |s| - |t| && s[k..k + |t|] == t
  }

  /** One evaluator of a constraint's list: the `_evaluate` method of the
      class it comes from. Base is the plain Constraint's own `_evaluate`,
      which takes the value only. */
  datatype Check =
    | Base
    | Interval(lo: Ext, hi: Ext, includeEdges: bool)
    | Dtype(types: seq<PyType>)
    | FromList(options: seq<Value>)
    | MustHave(options: seq<Value>, mode: string)

  /** The outcome of calling the evaluator with (param_name, value). */
  function Evaluate(c: Check, v: Value): (o: Outcome)
    ensures o.Fail? ==> o.error == InvalidConfiguration || o.error == TypeError
  {
    match c
    case Base => Fail(TypeError)
    case Interval(lo, hi, edges) =>
      (match Numeric(v)
       case None => Fail(InvalidConfiguration)
       case Some(x) =>
         if (if edges then AtMost(lo, x) && AtMost(x, hi) else Below(lo, x) && Below(x, hi)) then Pass
         else Fail(InvalidConfiguration))
    case Dtype(types) =>
      if exists k :: 0 <= k < |types| && InstanceOf(v, types[k]) then Pass else Fail(InvalidConfiguration)
    case FromList(options) =>
      if v.VList? || v.VTuple? then
        if forall k :: 0 <= k < |v.items| ==> Among(v.items[k], options) then Pass else Fail(InvalidConfiguration)
      else if Among(v, options) then Pass else Fail(InvalidConfiguration)
    case MustHave(options, mode) =>
      if !(v.VStr? || v.VList? || v.VTuple? || v.VSet?) then Fail(InvalidConfiguration)
      else if v.VStr? && exists k :: 0 <= k < |options| && !options[k].VStr? then Fail(TypeError)
      else
        var good :=
          if mode == "all" then forall k :: 0 <= k < |options| ==> Present(options[k], v)
          else if mode == "either" then exists k :: 0 <= k < |options| && Present(options[k], v)
          else false;
        if good then Pass else Fail(InvalidConfiguration)
  }

  /** option in value, for an iterable value (a string option in a string
      is a substring test). */
  predicate Present(option: Value, v: Value)
  {
    match v
    case VStr(s) => option.VStr? && Substring(option.s, s)
    case VList(xs) => Among(option, xs)
    case VTuple(xs) => Among(option, xs)
    case VSet(xs) => Among(option, xs)
    case _ => false
  }

  /** A constraint: its evaluator list, its text, and its own `_evaluate`
      (what `+` appends when the constraint is the right operand). */
  datatype Constraint = Constraint(evaluators: seq<Check>, text: string, own: Check)

  /** A constraint of one class, built by its constructor. */
  function Leaf(c: Check, text: string): (k: Constraint)
    ensures k.evaluators == [c] && k.own == c
  {
    Constraint([c], text, c)
  }

  /** The first failing evaluator's outcome, or Pass. */
  function CheckAll(evaluators: seq<Check>, v: Value): (o: Outcome)
    ensures o.Fail? ==> o.error == InvalidConfiguration || o.error == TypeError
  {
    if evaluators == [] then Pass
    else match Evaluate(evaluators[0], v)
      case Pass => CheckAll(evaluators[1..], v)
      case Fail(e) => Fail(e)
  }

  /** A check list passes iff every evaluator passes; otherwise it fails
      with the first failing evaluator's error. */
  lemma {:induction false} CheckAllMeaning(evaluators: seq<Check>, v: Value)
    ensures CheckAll(evaluators, v) == Pass <==> forall k :: 0 <= k < |evaluators| ==> Evaluate(evaluators[k], v) == Pass
    ensures CheckAll(evaluators, v).Fail? ==>
              exists k :: 0 <= k < |evaluators| && CheckAll(evaluators, v) == Evaluate(evaluators[k], v) &&
                forall l :: 0 <= l < k ==> Evaluate(evaluators[l], v) == Pass
  {
    if evaluators != [] {
      CheckAllMeaning(evaluators[1..], v);
      if Evaluate(evaluators[0], v) == Pass && CheckAll(evaluators[1..], v).Fail? {
        var k :| 0 <= k < |evaluators[1..]| && CheckAll(evaluators[1..], v) == Evaluate(evaluators[1..][k], v) &&
                 forall l :: 0 <= l < k ==> Evaluate(evaluators[1..][l], v) == Pass;
        assert CheckAll(evaluators, v) == Evaluate(evaluators[k + 1], v);
        assert forall l :: 0 <= l < k + 1 ==> Evaluate(evaluators[l], v) == Pass by {
          forall l | 0 <= l < k + 1
            ensures Evaluate(evaluators[l], v) == Pass
          {
            if l > 0 {
              assert evaluators[l] == evaluators[1..][l - 1];
            }
          }
        }
      }
    }
  }

  /** A one-evaluator list checks that evaluator. */
  lemma CheckOne(c: Check, v: Value)
    ensures CheckAll([c], v) == Evaluate(c, v)
  {
    assert [c][1..] == [];
  }

  /** Checking against a concatenation checks each part in turn. */
  lemma {:induction false} CheckAllAppend(e1: seq<Check>, e2: seq<Check>, v: Value)
    ensures CheckAll(e1 + e2, v) == (if CheckAll(e1, v) == Pass then CheckAll(e2, v) else CheckAll(e1, v))
  {
    if e1 != [] {
      assert (e1 + e2)[1..] == e1[1..] + e2;
      CheckAllAppend(e1[1..], e2, v);
    } else {
      assert e1 + e2 == e2;
    }
  }

  /** constraint.check_if_value_meets_constraint(param_name, value): runs
      the evaluators in order; the first failure propagates. */
  method CheckIfValueMeetsConstraint(c: Constraint, paramName: string, value: Value) returns (o: Outcome)
    ensures o == CheckAll(c.evaluators, value)
  {
    for k := 0 to |c.evaluators|
      invariant CheckAll(c.evaluators, value) == CheckAll(c.evaluators[k..], value)
    {
      assert c.evaluators[k..][1..] == c.evaluators[k + 1..];
      var e := Evaluate(c.evaluators[k], value);
      if e.Fail? {
        return e;
      }
    }
    return Pass;
  }

  // ---------------------------------------------------------------------
  // The constraint classes
  // ---------------------------------------------------------------------

  /** ValueInInterval([lo, hi], include_edges); intervalRepr is the
      Python text of the interval list. */
  function ValueInInterval(lo: Ext, hi: Ext, includeEdges: bool, intervalRepr: string): Constraint
  {
    Leaf(Interval(lo, hi, includeEdges),
         "Value inside interval <" + intervalRepr + ">; Edges: " + (if includeEdges then "True" else "False"))
  }

  /** ValueFromDtype(dtype_list): InternalError unless the types come as a
      tuple. */
  function ValueFromDtype(types: seq<PyType>, isTuple: bool, typesRepr: string): (r: Result<Constraint>)
    ensures r.Failure? <==> !isTuple
    ensures r.Failure? ==> r.error == InternalError
  {
    if !isTuple then Failure(InternalError)
    else Success(Leaf(Dtype(types), "Value from dtype <" + typesRepr + ">"))
  }

  /** ValueFromList(available_options). */
  function ValueFromList(options: seq<Value>, optionsRepr: string): Constraint
  {
    Leaf(FromList(options), "Value from list <" + optionsRepr + ">")
  }

  /** IterableMustHave(available_options, mode): InternalError unless the
      mode is "all" or "either". */
  function IterableMustHave(options: seq<Value>, mode: string, optionsRepr: string): (r: Result<Constraint>)
    ensures r.Failure? <==> mode != "all" && mode != "either"
    ensures r.Failure? ==> r.error == InternalError
  {
    if mode != "all" && mode != "either" then Failure(InternalError)
    else Success(Leaf(MustHave(options, mode), "Must have value from list <" + optionsRepr + ">"))
  }

  // ---------------------------------------------------------------------
  // What each check accepts
  // ---------------------------------------------------------------------

  /** Two comparable numbers each at most the other are equal. */
  lemma AtMostAntisymmetric(a: Ext, b: Ext)
    requires AtMost(a, b) && AtMost(b, a)
    ensures a == b
  {
  }

  /** Including the edges only lets more values in: exactly the two ends
      of a non-empty interval. A value that cannot be compared with the
      ends is refused with InvalidConfiguration, not TypeError. */
  lemma IntervalEdges(lo: Ext, hi: Ext, v: Value)
    ensures Evaluate(Interval(lo, hi, false), v) == Pass ==> Evaluate(Interval(lo, hi, true), v) == Pass
    ensures Evaluate(Interval(lo, hi, true), v) == Pass && Evaluate(Interval(lo, hi, false), v) != Pass <==>
              Numeric(v).Some? && AtMost(lo, hi) && (Numeric(v).value == lo || Numeric(v).value == hi)
    ensures Numeric(v).None? ==> Evaluate(Interval(lo, hi, true), v) == Fail(InvalidConfiguration) &&
                                 Evaluate(Interval(lo, hi, false), v) == Fail(InvalidConfiguration)
  {
    if Numeric(v).Some? {
      var x := Numeric(v).value;
      if AtMost(lo, x) && AtMost(x, hi) && !(Below(lo, x) && Below(x, hi)) {
        if x != lo {
          assert AtMost(x, hi) && x == hi;
        }
      }
      if AtMost(lo, hi) && x == lo {
        assert AtMost(lo, x) && AtMost(x, hi);
      }
      if AtMost(lo, hi) && x == hi {
        assert AtMost(lo, x) && AtMost(x, hi);
      }
    }
  }

  /** ValueFromList only gains values when options are added. */
  lemma FromListExtend(options: seq<Value>, more: seq<Value>, v: Value)
    ensures Evaluate(FromList(options), v) == Pass ==> Evaluate(FromList(options + more), v) == Pass
  {
    forall w | Among(w, options)
      ensures Among(w, options + more)
    {
      var k :| 0 <= k < |options| && PyEq(w, options[k]);
      assert (options + more)[k] == options[k];
    }
  }

  /** A list or tuple of plain values passes ValueFromList exactly when
      each of its elements passes on its own. */
  lemma FromListPointwise(options: seq<Value>, v: Value)
    requires v.VList? || v.VTuple?
    requires forall k :: 0 <= k < |v.items| ==> !(v.items[k].VList? || v.items[k].VTuple?)
    ensures Evaluate(FromList(options), v) == Pass <==>
              forall k :: 0 <= k < |v.items| ==> Evaluate(FromList(options), v.items[k]) == Pass
  {
  }

  /** With at least one option, whatever has all of them has one of them. */
  lemma MustHaveAllThenEither(options: seq<Value>, v: Value)
    requires options != []
    ensures Evaluate(MustHave(options, "all"), v) == Pass ==> Evaluate(MustHave(options, "either"), v) == Pass
  {
    if Evaluate(MustHave(options, "all"), v) == Pass {
      assert Present(options[0], v);
    }
  }

  /** On a string value, `option in value` is a substring test, and an
      option that is not a string raises TypeError. */
  lemma MustHaveString(options: seq<Value>, mode: string, s: string)
    requires mode == "all" || mode == "either"
    ensures Evaluate(MustHave(options, mode), VStr(s)) == Fail(TypeError) <==>
              exists k :: 0 <= k < |options| && !options[k].VStr?
    ensures (forall k :: 0 <= k < |options| ==> options[k].VStr?) ==>
              (Evaluate(MustHave(options, mode), VStr(s)) == Pass <==>
                 if mode == "all" then forall k :: 0 <= k < |options| ==> Substring(options[k].s, s)
                 else exists k :: 0 <= k < |options| && Substring(options[k].s, s))
  {
    if forall k :: 0 <= k < |options| ==> options[k].VStr? {
      assert forall k :: 0 <= k < |options| ==> (Present(options[k], VStr(s)) <==> Substring(options[k].s, s));
    }
  }

  /** A string occurs in any string that contains it. */
  lemma SubstringOfConcat(t: string, u: string, w: string)
    ensures Substring(t, u + t + w)
  {
    assert (u + t + w)[|u|..|u| + |t|] == t;
    assert OccursAt(t, u + t + w, |u|);
  }

  /** "lin" is in the string "linear", but not in the list ["linear"]. */
  lemma MustHaveStringOrList()
    ensures CheckAll([MustHave([VStr("lin")], "all")], VStr("linear")) == Pass
    ensures CheckAll([MustHave([VStr("lin")], "all")], VList([VStr("linear")])) == Fail(InvalidConfiguration)
  {
    CheckOne(MustHave([VStr("lin")], "all"), VStr("linear"));
    CheckOne(MustHave([VStr("lin")], "all"), VList([VStr("linear")]));
    SubstringOfConcat("lin", "", "ear");
    assert "" + "lin" + "ear" == "linear";
    PyEqString(VStr("lin"), "linear");
    assert |"lin"| != |"linear"|;
    var options := [VStr("lin")];
    assert !Present(options[0], VList([VStr("linear")]));
    assert !(forall k :: 0 <= k < |options| ==> Present(options[k], VList([VStr("linear")])));
    assert Evaluate(MustHave(options, "all"), VList([VStr("linear")])) == Fail(InvalidConfiguration);
  }

  // ---------------------------------------------------------------------
  // The library's own test cases
  // ---------------------------------------------------------------------

  function OneTwoThree(): seq<Value>
  {
    [VInt(1), VInt(2), VInt(3)]
  }

  /** IterableMustHave((1, 2, 3), mode) as built for its test. */
  function MustHaveOneTwoThree(mode: string): Constraint
    requires mode == "all" || mode == "either"
  {
    IterableMustHave(OneTwoThree(), mode, "(1, 2, 3)").value
  }

  /** The list, the tuple and the set of 1, 2 and 3 have all of 1, 2, 3;
      the sets {1, 2} and {1} have one of them; [1, 2] lacks 3, and [55]
      has none. */
  lemma MustHaveCases()
    ensures CheckAll(MustHaveOneTwoThree("all").evaluators, VList(OneTwoThree())) == Pass
    ensures CheckAll(MustHaveOneTwoThree("all").evaluators, VTuple(OneTwoThree())) == Pass
    ensures CheckAll(MustHaveOneTwoThree("all").evaluators, VSet(OneTwoThree())) == Pass
    ensures CheckAll(MustHaveOneTwoThree("either").evaluators, VSet([VInt(1), VInt(2)])) == Pass
    ensures CheckAll(MustHaveOneTwoThree("either").evaluators, VSet([VInt(1)])) == Pass
    ensures CheckAll(MustHaveOneTwoThree("all").evaluators, VList([VInt(1), VInt(2)])) == Fail(InvalidConfiguration)
    ensures CheckAll(MustHaveOneTwoThree("either").evaluators, VList([VInt(55)])) == Fail(InvalidConfiguration)
  {
    MustHaveHasAll(VList(OneTwoThree()));
    MustHaveHasAll(VTuple(OneTwoThree()));
    MustHaveHasAll(VSet(OneTwoThree()));
    MustHaveHasOne(VSet([VInt(1), VInt(2)]));
    MustHaveHasOne(VSet([VInt(1)]));
    MustHaveLacksThree();
    MustHaveHasNone();
  }

  lemma MustHaveHasAll(v: Value)
    requires v == VList(OneTwoThree()) || v == VTuple(OneTwoThree()) || v == VSet(OneTwoThree())
    ensures CheckAll(MustHaveOneTwoThree("all").evaluators, v) == Pass
  {
    var c := MustHave(OneTwoThree(), "all");
    CheckOne(c, v);
    forall k | 0 <= k < 3
      ensures Present(OneTwoThree()[k], v)
    {
      assert PyEq(OneTwoThree()[k], v.items[k]);
    }
  }

  lemma MustHaveHasOne(v: Value)
    requires v == VSet([VInt(1), VInt(2)]) || v == VSet([VInt(1)])
    ensures CheckAll(MustHaveOneTwoThree("either").evaluators, v) == Pass
  {
    CheckOne(MustHave(OneTwoThree(), "either"), v);
    assert PyEq(OneTwoThree()[0], v.items[0]);
    assert Present(OneTwoThree()[0], v);
  }

  lemma MustHaveLacksThree()
    ensures CheckAll(MustHaveOneTwoThree("all").evaluators, VList([VInt(1), VInt(2)])) == Fail(InvalidConfiguration)
  {
    CheckOne(MustHave(OneTwoThree(), "all"), VList([VInt(1), VInt(2)]));
    assert !Present(OneTwoThree()[2], VList([VInt(1), VInt(2)]));
  }

  lemma MustHaveHasNone()
    ensures CheckAll(MustHaveOneTwoThree("either").evaluators, VList([VInt(55)])) == Fail(InvalidConfiguration)
  {
    CheckOne(MustHave(OneTwoThree(), "either"), VList([VInt(55)]));
    assert forall k :: 0 <= k < 3 ==> !Present(OneTwoThree()[k], VList([VInt(55)]));
  }

  function OneNoneText(): seq<Value>
  {
    [VInt(1), VNone, VStr("text")]
  }

  /** ValueFromList((1, None, "text")) as built for its test. */
  function FromOneNoneText(): Constraint
  {
    ValueFromList(OneNoneText(), "(1, None, 'text')")
  }

  /** ValueFromList((1, None, "text")): 1, None and "text" pass; [1, 2, 3]
      is refused, as 2 is not an option. */
  lemma FromListCases()
    ensures CheckAll(FromOneNoneText().evaluators, VList(OneTwoThree())) == Fail(InvalidConfiguration)
    ensures CheckAll(FromOneNoneText().evaluators, VInt(1)) == Pass
    ensures CheckAll(FromOneNoneText().evaluators, VNone) == Pass
    ensures CheckAll(FromOneNoneText().evaluators, VStr("text")) == Pass
  {
    FromListRefusesTwo();
    FromListAccepts(0);
    FromListAccepts(1);
    FromListAccepts(2);
  }

  lemma FromListRefusesTwo()
    ensures CheckAll(FromOneNoneText().evaluators, VList(OneTwoThree())) == Fail(InvalidConfiguration)
  {
    CheckOne(FromList(OneNoneText()), VList(OneTwoThree()));
    assert OneTwoThree()[1] == VInt(2);
    assert !Among(VInt(2), OneNoneText());
  }

  lemma FromListAccepts(k: int)
    requires 0 <= k < 3
    ensures CheckAll(FromOneNoneText().evaluators, OneNoneText()[k]) == Pass
  {
    CheckOne(FromList(OneNoneText()), OneNoneText()[k]);
    assert PyEq(OneNoneText()[k], OneNoneText()[k]);
  }

  /** ValueInInterval((0, 5), include_edges): without the edges 0, 5 and 6
      are refused; with them 6 is refused and 5, 0 and 2 pass. */
  lemma IntervalCases()
    ensures var open, closed := ValueInInterval(Fin(0.0), Fin(5.0), false, "(0, 5)"),
                                ValueInInterval(Fin(0.0), Fin(5.0), true, "(0, 5)");
            CheckAll(open.evaluators, VInt(0)) == Fail(InvalidConfiguration) &&
            CheckAll(open.evaluators, VInt(5)) == Fail(InvalidConfiguration) &&
            CheckAll(open.evaluators, VInt(6)) == Fail(InvalidConfiguration) &&
            CheckAll(closed.evaluators, VInt(6)) == Fail(InvalidConfiguration) &&
            CheckAll(closed.evaluators, VInt(5)) == Pass &&
            CheckAll(closed.evaluators, VInt(0)) == Pass &&
            CheckAll(closed.evaluators, VInt(2)) == Pass
  {
    forall edges: bool, i: int
      ensures CheckAll(ValueInInterval(Fin(0.0), Fin(5.0), edges, "(0, 5)").evaluators, VInt(i)) ==
              Evaluate(Interval(Fin(0.0), Fin(5.0), edges), VInt(i))
    {
      CheckOne(Interval(Fin(0.0), Fin(5.0), edges), VInt(i));
    }
  }

  /** ValueFromDtype: a list of types instead of a tuple raises
      InternalError; with (int,), 0.0 is refused and 0 passes. */
  lemma DtypeCases()
    ensures ValueFromDtype([TInt], false, "[<class 'int'>]") == Failure(InternalError)
    ensures CheckAll(IntegerValue().evaluators, VFloat(Fin(0.0))) == Fail(InvalidConfiguration)
    ensures CheckAll(IntegerValue().evaluators, VInt(0)) == Pass
  {
    CheckOne(Dtype([TInt]), VFloat(Fin(0.0)));
    CheckOne(Dtype([TInt]), VInt(0));
    assert InstanceOf(VInt(0), [TInt][0]);
  }

  /** The options of the library's own ValueFromList test constraint. */
  function SumOptions(): seq<Value>
  {
    [VInt(1), VInt(2), VInt(3), VFloat(Fin(4.5))]
  }

  /** The sum of conditions checks the interval, then the list, then the
      type, and stops at the first refusal. */
  lemma SumOfConditionsSteps(includeEdges: bool, v: Value)
    ensures CheckAll(SumOfConditions(includeEdges).evaluators, v) ==
              var first := Evaluate(Interval(Fin(0.0), Fin(5.0), includeEdges), v);
              var second := Evaluate(FromList(SumOptions()), v);
              if first.Fail? then first else if second.Fail? then second else Evaluate(Dtype([TInt]), v)
  {
    var evaluators := [Interval(Fin(0.0), Fin(5.0), includeEdges), FromList(SumOptions()), Dtype([TInt])];
    assert SumOfConditions(includeEdges).evaluators == evaluators;
    CheckAllAppend([evaluators[0]], evaluators[1..], v);
    CheckAllAppend([evaluators[1]], [evaluators[2]], v);
    CheckOne(evaluators[0], v);
    CheckOne(evaluators[1], v);
    CheckOne(evaluators[2], v);
  }

  /** The cases of the library's own tests for
      ValueInInterval((0, 5)) + ValueFromList((1, 2, 3, 4.5)) + ValueFromDtype((int,)):
      1 and 2 pass with edges; 4.5 is refused for not being an int; 0 and
      5 are refused when the edges are excluded, and 6 anyway. */
  lemma SumOfConditionsCases()
    ensures CheckAll(SumOfConditions(true).evaluators, VInt(1)) == Pass
    ensures CheckAll(SumOfConditions(true).evaluators, VInt(2)) == Pass
    ensures CheckAll(SumOfConditions(true).evaluators, VFloat(Fin(4.5))) == Fail(InvalidConfiguration)
    ensures CheckAll(SumOfConditions(false).evaluators, VInt(0)) == Fail(InvalidConfiguration)
    ensures CheckAll(SumOfConditions(false).evaluators, VInt(5)) == Fail(InvalidConfiguration)
    ensures CheckAll(SumOfConditions(false).evaluators, VInt(6)) == Fail(InvalidConfiguration)
  {
    SumAccepts(1, 0);
    SumAccepts(2, 1);
    SumRefusesFloat();
    SumRefusesOutside(0);
    SumRefusesOutside(5);
    SumRefusesOutside(6);
  }

  /** 4.5 is an option inside the interval but not an int. */
  lemma SumRefusesFloat()
    ensures CheckAll(SumOfConditions(true).evaluators, VFloat(Fin(4.5))) == Fail(InvalidConfiguration)
  {
    SumOfConditionsSteps(true, VFloat(Fin(4.5)));
    assert PyEq(VFloat(Fin(4.5)), SumOptions()[3]);
  }

  /** Without its edges the interval refuses 0 and 5, and it refuses 6
      anyway. */
  lemma SumRefusesOutside(i: int)
    requires i == 0 || i == 5 || i == 6
    ensures CheckAll(SumOfConditions(false).evaluators, VInt(i)) == Fail(InvalidConfiguration)
  {
    SumOfConditionsSteps(false, VInt(i));
  }

  /** An int option inside the interval passes the whole sum. */
  lemma SumAccepts(i: int, k: nat)
    requires k < 3 && SumOptions()[k] == VInt(i)
    ensures CheckAll(SumOfConditions(true).evaluators, VInt(i)) == Pass
  {
    SumOfConditionsSteps(true, VInt(i));
    assert PyEq(VInt(i), SumOptions()[k]);
    assert InstanceOf(VInt(i), [TInt][0]);
  }

  function SumOfConditions(includeEdges: bool): Constraint
  {
    Add(Add(ValueInInterval(Fin(0.0), Fin(5.0), includeEdges, "(0, 5)"),
            ValueFromList(SumOptions(), "(1, 2, 3, 4.5)")),
        ValueFromDtype([TInt], true, "(<class 'int'>,)").value)
  }

  // ---------------------------------------------------------------------
  // Joining constraints
  // ---------------------------------------------------------------------

  /** a + b: a fresh plain Constraint whose list is a copy of a's with b's
      own `_evaluate` appended, and whose text is "A and B". */
  function Add(a: Constraint, b: Constraint): (c: Constraint)
    ensures c.evaluators == a.evaluators + [b.own]
    ensures c.text == a.text + " and " + b.text
    ensures c.own == Base
  {
    Constraint(a.evaluators + [b.own], a.text + " and " + b.text, Base)
  }

  /** Adding a constraint of one class checks both: the sum passes iff
      each operand passes, and a's failure comes first. */
  lemma AddLeaf(a: Constraint, b: Constraint, v: Value)
    requires b.evaluators == [b.own]
    ensures CheckAll(Add(a, b).evaluators, v) ==
              (if CheckAll(a.evaluators, v) == Pass then CheckAll(b.evaluators, v) else CheckAll(a.evaluators, v))
  {
    CheckAllAppend(a.evaluators, [b.own], v);
  }

  /** With a sum as right operand, the sum's own evaluator is the plain
      Constraint's, which rejects the (param_name, value) call: every value
      a accepts is then refused with TypeError, and b's checks are lost. */
  lemma AddDropsRightChecks(a: Constraint, b1: Constraint, b2: Constraint, v: Value)
    requires CheckAll(a.evaluators, v) == Pass
    ensures CheckAll(Add(a, Add(b1, b2)).evaluators, v) == Fail(TypeError)
  {
    CheckAllAppend(a.evaluators, [Base], v);
  }

  /** An example: 5 is a non-negative integer, yet
      Positive_Value_Constraint + (IntegerValue + NumericValue) refuses it. */
  lemma AddNestedExample()
    ensures CheckAll(PositiveValue().evaluators, VInt(5)) == Pass
    ensures CheckAll(IntegerValue().evaluators, VInt(5)) == Pass
    ensures CheckAll(NumericValue().evaluators, VInt(5)) == Pass
    ensures CheckAll(Add(PositiveValue(), Add(IntegerValue(), NumericValue())).evaluators, VInt(5)) == Fail(TypeError)
  {
    assert InstanceOf(VInt(5), IntegerValue().own.types[0]);
    assert InstanceOf(VInt(5), NumericValue().own.types[0]);
    AddDropsRightChecks(PositiveValue(), IntegerValue(), NumericValue(), VInt(5));
  }

  /** a + b as intended: a's checks followed by all of b's. */
  function AddAll(a: Constraint, b: Constraint): (c: Constraint)
    ensures c.evaluators == a.evaluators + b.evaluators
    ensures c.text == a.text + " and " + b.text
  {
    Constraint(a.evaluators + b.evaluators, a.text + " and " + b.text, Base)
  }

  /** The intended sum passes exactly when both operands pass, whatever
      their shape, and agrees with `+` when b is of one class. */
  lemma AddAllMeaning(a: Constraint, b: Constraint, v: Value)
    ensures CheckAll(AddAll(a, b).evaluators, v) == Pass <==>
              CheckAll(a.evaluators, v) == Pass && CheckAll(b.evaluators, v) == Pass
    ensures b.evaluators == [b.own] ==> AddAll(a, b).evaluators == Add(a, b).evaluators
  {
    CheckAllAppend(a.evaluators, b.evaluators, v);
  }

  // ---------------------------------------------------------------------
  // The predefined constraints
  // ---------------------------------------------------------------------

  /** Positive_Value_Constraint: ValueInInterval([0, np.inf], include_edges=True). */
  function PositiveValue(): Constraint
  {
    ValueInInterval(Fin(0.0), PosInf, true, "[0, inf]")
  }

  function IntegerValue(): (c: Constraint)
    ensures c.evaluators == [Dtype([TInt])] && c.own == Dtype([TInt])
  {
    ValueFromDtype([TInt], true, "(<class 'int'>,)").value
  }

  function NumericValue(): (c: Constraint)
    ensures c.evaluators == [Dtype([TInt, TFloat])] && c.own == Dtype([TInt, TFloat])
  {
    ValueFromDtype([TInt, TFloat], true, "(<class 'int'>, <class 'float'>)").value
  }

  function BooleanValue(): (c: Constraint)
    ensures c.evaluators == [Dtype([TBool])] && c.own == Dtype([TBool])
  {
    ValueFromDtype([TBool], true, "(<class 'bool'>,)").value
  }

  /** Positive_Value_Constraint accepts exactly the numbers in [0, +inf],
      both ends included (booleans count as 0 and 1). */
  lemma PositiveValueMeaning(v: Value)
    ensures CheckAll(PositiveValue().evaluators, v) == Pass <==>
              match v
              case VBool(_) => true
              case VInt(i) => i >= 0
              case VFloat(x) => x == PosInf || (x.Fin? && x.r >= 0.0)
              case _ => false
  {
  }
}
