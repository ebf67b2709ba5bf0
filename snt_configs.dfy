/** The pipeline's parameter table and its construction
    (src/SNT/utils/SNT_configs.py). */
module SntConfigs {
  import opened Common
  import opened Validators
  import opened Configs

  /** One entry of `_default_params`: name, default value and constraint. */
  datatype ParamSpec = ParamSpec(name: string, defaultValue: Value, constraint: Constraint)

  /** Positive_Value_Constraint + IntegerValue, the constraint of every
      count-like parameter. */
  function CountConstraint(): Constraint
  {
    Add(PositiveValue(), IntegerValue())
  }

  function InterpConstraint(): Constraint
  {
    ValueFromList([VStr("cubic"), VStr("linear")], "['cubic', 'linear']")
  }

  /** `_default_params`, in its order. */
  function DefaultSpecs(): seq<ParamSpec>
  {
    [ ParamSpec("remove_n_first", VInt(0), CountConstraint()),
      ParamSpec("radius_min", VInt(20), CountConstraint()),
      ParamSpec("radius_max", VInt(70), CountConstraint()),
      ParamSpec("max_vicinity", VInt(10), CountConstraint()),
      ParamSpec("stretching", VInt(40), CountConstraint()),
      ParamSpec("use_RIC", VBool(true), BooleanValue()),
      ParamSpec("interp", VStr("linear"), InterpConstraint()),
      ParamSpec("use_denoise", VBool(false), BooleanValue()),
      ParamSpec("usefilter", VBool(true), BooleanValue()),
      ParamSpec("nu", VInt(1), NumericValue()),
      ParamSpec("niter_peaks_remove", VInt(10), CountConstraint()),
      ParamSpec("denoising_distance", VInt(5), CountConstraint()),
      ParamSpec("parallel_orders", VBool(false), BooleanValue()),
      ParamSpec("Ncores", VInt(1), PositiveValue()),
      ParamSpec("run_plot_generation", VBool(true), BooleanValue()) ]
  }

  const CountNames: set<string> :=
    {"remove_n_first", "radius_min", "radius_max", "max_vicinity", "stretching", "niter_peaks_remove", "denoising_distance"}

  const FlagNames: set<string> :=
    {"use_RIC", "use_denoise", "usefilter", "parallel_orders", "run_plot_generation"}

  /** The constraint a parameter name is given in the table. */
  function ConstraintFor(name: string): Constraint
  {
    if name in CountNames then CountConstraint()
    else if name in FlagNames then BooleanValue()
    else if name == "interp" then InterpConstraint()
    else if name == "nu" then NumericValue()
    else PositiveValue()
  }

  /** The names of the table are all different. */
  lemma DefaultNames()
    ensures forall i, j :: 0 <= i < j < |DefaultSpecs()| ==> DefaultSpecs()[i].name != DefaultSpecs()[j].name
  {
  }

  /** The names of the table are the count parameters, the flags, "interp",
      "nu" and "Ncores". */
  lemma DefaultNamesKnown()
    ensures forall i :: 0 <= i < |DefaultSpecs()| ==>
              DefaultSpecs()[i].name in CountNames + FlagNames + {"interp", "nu", "Ncores"}
  {
  }

  /** Each parameter carries the constraint its name calls for: the count
      parameters Positive_Value_Constraint + IntegerValue, the flags
      BooleanValue, interp its two options, nu NumericValue and Ncores
      Positive_Value_Constraint alone. */
  lemma ConstraintsByName()
    ensures forall i :: 0 <= i < |DefaultSpecs()| ==> DefaultSpecs()[i].constraint == ConstraintFor(DefaultSpecs()[i].name)
  {
  }

  /** Every default meets its own constraint, so building the table (which
      checks each default) never raises. */
  lemma DefaultsSatisfyConstraints()
    ensures forall i :: 0 <= i < |DefaultSpecs()| ==>
              CheckAll(DefaultSpecs()[i].constraint.evaluators, DefaultSpecs()[i].defaultValue) == Pass
  {
    var specs := DefaultSpecs();
    forall i | 0 <= i < |specs|
      ensures CheckAll(specs[i].constraint.evaluators, specs[i].defaultValue) == Pass
    {
      var v := specs[i].defaultValue;
      if specs[i].constraint == CountConstraint() {
        CountParamMeaning(v);
      } else if specs[i].constraint == BooleanValue() {
        FlagParamMeaning(v);
      } else if specs[i].constraint == NumericValue() {
        NuParamMeaning(v);
      } else if specs[i].constraint == InterpConstraint() {
        InterpParamMeaning(v);
      } else {
        PositiveValueMeaning(v);
      }
    }
  }

  /** The count parameters accept exactly the integers >= 0; being ints in
      Python, True and False are accepted too. */
  lemma CountParamMeaning(v: Value)
    ensures CheckAll(CountConstraint().evaluators, v) == Pass <==> (v.VInt? && v.i >= 0) || v.VBool?
  {
    AddLeaf(PositiveValue(), IntegerValue(), v);
    PositiveValueMeaning(v);
    CheckOne(Dtype([TInt]), v);
    if v.VInt? || v.VBool? {
      assert InstanceOf(v, [TInt][0]);
    }
  }

  /** The flags accept exactly the booleans. */
  lemma FlagParamMeaning(v: Value)
    ensures CheckAll(BooleanValue().evaluators, v) == Pass <==> v.VBool?
  {
    CheckOne(Dtype([TBool]), v);
    if v.VBool? {
      assert InstanceOf(v, [TBool][0]);
    }
  }

  /** nu accepts any bool, int or float, negative ones and infinities
      included. */
  lemma NuParamMeaning(v: Value)
    ensures CheckAll(NumericValue().evaluators, v) == Pass <==> v.VBool? || v.VInt? || v.VFloat?
  {
    CheckOne(Dtype([TInt, TFloat]), v);
    if v.VFloat? {
      assert InstanceOf(v, [TInt, TFloat][1]);
    } else if v.VInt? || v.VBool? {
      assert InstanceOf(v, [TInt, TFloat][0]);
    }
  }

  /** interp accepts "cubic" or "linear", or a list or tuple made only of
      those two strings (the empty one included). */
  lemma InterpParamMeaning(v: Value)
    ensures CheckAll(InterpConstraint().evaluators, v) == Pass <==>
              v == VStr("cubic") || v == VStr("linear") ||
              ((v.VList? || v.VTuple?) && forall k :: 0 <= k < |v.items| ==> v.items[k] in {VStr("cubic"), VStr("linear")})
  {
    var options := [VStr("cubic"), VStr("linear")];
    CheckOne(FromList(options), v);
    forall w: Value
      ensures Among(w, options) <==> w == VStr("cubic") || w == VStr("linear")
    {
      PyEqString(w, "cubic");
      PyEqString(w, "linear");
      if w == VStr("linear") {
        assert PyEq(w, options[1]);
      } else if w == VStr("cubic") {
        assert PyEq(w, options[0]);
      }
    }
  }

  /** Builds `_default_params`: one fresh UserParam per entry, keyed by its
      name, holding its default. */
  method DefaultParams() returns (table: map<string, UserParam>)
    ensures table.Keys == set k | 0 <= k < |DefaultSpecs()| :: DefaultSpecs()[k].name
    ensures forall k :: 0 <= k < |DefaultSpecs()| ==>
              var p := table[DefaultSpecs()[k].name];
              fresh(p) && p.Valid() && p.name == DefaultSpecs()[k].name &&
              p.defaultValue == DefaultSpecs()[k].defaultValue && p.currentValue == p.defaultValue &&
              p.constraints == Some(DefaultSpecs()[k].constraint)
    ensures Distinct(table)
  {
    DefaultNames();
    DefaultsSatisfyConstraints();
    table := BuildTable(DefaultSpecs());
  }

  /** One fresh, valid parameter per entry of a table whose names are
      distinct and whose defaults meet their constraints. */
  method BuildTable(specs: seq<ParamSpec>) returns (table: map<string, UserParam>)
    requires forall i, j :: 0 <= i < j < |specs| ==> specs[i].name != specs[j].name
    requires forall i :: 0 <= i < |specs| ==> CheckAll(specs[i].constraint.evaluators, specs[i].defaultValue) == Pass
    ensures table.Keys == set k | 0 <= k < |specs| :: specs[k].name
    ensures forall k :: 0 <= k < |specs| ==>
              var p := table[specs[k].name];
              fresh(p) && p.Valid() && p.name == specs[k].name &&
              p.defaultValue == specs[k].defaultValue && p.currentValue == p.defaultValue &&
              p.constraints == Some(specs[k].constraint)
    ensures Distinct(table)
  {
    table := map[];
    for k := 0 to |specs|
      invariant table.Keys == set j | 0 <= j < k :: specs[j].name
      invariant forall j :: 0 <= j < k ==>
                  var p := table[specs[j].name];
                  fresh(p) && p.Valid() && p.name == specs[j].name &&
                  p.defaultValue == specs[j].defaultValue && p.currentValue == p.defaultValue &&
                  p.constraints == Some(specs[j].constraint)
      invariant Distinct(table)
      invariant forall n :: n in table ==> fresh(table[n])
    {
      var r := UserParam.New(specs[k].name, specs[k].defaultValue, Some(specs[k].constraint));
      if r.Failure? {
        assert false;
      }
      NamesStep(specs, k, table.Keys);
      table := table[specs[k].name := r.value];
    }
  }

  /** Adding the next parameter's name to the names so far. */
  lemma NamesStep(specs: seq<ParamSpec>, k: nat, names: set<string>)
    requires k < |specs|
    requires names == set j | 0 <= j < k :: specs[j].name
    ensures names + {specs[k].name} == set j | 0 <= j < k + 1 :: specs[j].name
  {
  }

  /** construct_SNT_configs(user_configs) as written: the holder wraps the
      table itself, and the call on it of update_values_from_dict, which
      ConfigHolder does not define, raises AttributeError whatever the user
      gave (None included). */
  method ConstructSntConfigs(userConfigs: Option<seq<(string, Value)>>, table: map<string, UserParam>)
    returns (holder: ConfigHolder, o: Outcome)
    ensures fresh(holder) && holder.configValues == table
    ensures o == Fail(AttributeError)
  {
    holder := new ConfigHolder(table);
    o := Fail(AttributeError);
  }

  /** The keys of a dictionary given as its items in order. */
  predicate DistinctKeys(items: seq<(string, Value)>)
  {
    forall i, j :: 0 <= i < j < |items| ==> items[i].0 != items[j].0
  }

  /** The items of user_configs, None standing for the empty dictionary. */
  function Items(userConfigs: Option<seq<(string, Value)>>): seq<(string, Value)>
  {
    if userConfigs.Some? then userConfigs.value else []
  }

  /** The first n items are in place among the current values. */
  predicate Applied(values: map<string, Value>, items: seq<(string, Value)>, n: nat)
  {
    n <= |items| &&
    forall i :: 0 <= i < n ==> items[i].0 in values && values[items[i].0] == items[i].1
  }

  /** Setting the next item keeps the earlier ones in place, as the keys are
      distinct. */
  lemma AppliedStep(values: map<string, Value>, items: seq<(string, Value)>, n: nat)
    requires DistinctKeys(items) && n < |items| && Applied(values, items, n)
    ensures Applied(values[items[n].0 := items[n].1], items, n + 1)
  {
    var values' := values[items[n].0 := items[n].1];
    forall i | 0 <= i < n + 1
      ensures items[i].0 in values' && values'[items[i].0] == items[i].1
    {
      if i < n {
        assert items[i].0 != items[n].0;
      }
    }
  }

  /** The keys of the first n items. */
  function KeysOf(items: seq<(string, Value)>, n: nat): (keys: set<string>)
    requires n <= |items|
    ensures forall i :: 0 <= i < n ==> items[i].0 in keys
    ensures forall k :: k in keys ==> exists i :: 0 <= i < n && items[i].0 == k
  {
    if n == 0 then {} else KeysOf(items, n - 1) + {items[n - 1].0}
  }

  /** No parameter of the table has changed its name, default or
      constraint. */
  twostate predicate SameSettings(table: map<string, UserParam>)
    reads table.Values
  {
    forall n :: n in table ==>
      table[n].name == old(table[n].name) && table[n].defaultValue == old(table[n].defaultValue) &&
      table[n].constraints == old(table[n].constraints)
  }

  /** construct_SNT_configs as intended: every user value goes through the
      holder's update_value, in order, and the first refusal propagates.
      The values before it are in place; no other parameter changes. */
  method ConstructSntConfigsFromDict(userConfigs: Option<seq<(string, Value)>>, table: map<string, UserParam>)
    returns (holder: ConfigHolder, o: Outcome, ghost applied: nat)
    requires DistinctKeys(Items(userConfigs))
    requires Distinct(table)
    modifies table.Values
    ensures fresh(holder) && holder.configValues == table
    ensures Applied(holder.AllCurrentValues(), Items(userConfigs), applied)
    ensures o.Pass? <==> applied == |Items(userConfigs)|
    ensures o.Fail? && Items(userConfigs)[applied].0 !in table ==> o == Fail(KeyError)
    ensures o.Fail? && Items(userConfigs)[applied].0 in table ==>
              o == Validation(table[Items(userConfigs)[applied].0].constraints, Items(userConfigs)[applied].1)
    ensures forall n :: n in table && n !in KeysOf(Items(userConfigs), applied) ==>
              table[n].currentValue == old(table[n].currentValue)
    ensures SameSettings(table)
  {
    holder := new ConfigHolder(table);
    var items := Items(userConfigs);
    var i := 0;
    applied := 0;
    o := Pass;
    while i < |items|
      invariant applied == i && o.Pass?
      invariant holder.configValues == table
      invariant Applied(holder.AllCurrentValues(), items, i)
      invariant forall n :: n in table && n !in KeysOf(items, i) ==> table[n].currentValue == old(table[n].currentValue)
      invariant SameSettings(table)
    {
      var (key, value) := items[i];
      ghost var before := holder.AllCurrentValues();
      o := holder.UpdateValue(key, value);
      if o.Fail? {
        return;
      }
      AppliedStep(before, items, i);
      assert KeysOf(items, i + 1) == KeysOf(items, i) + {key};
      i := i + 1;
      applied := i;
    }
  }
}
