/** User parameters and their holder (src/SNT/utils/configs.py): a
    parameter keeps a default and a current value, and accepts a new value
    only after its constraint has passed it. */
module Configs {
  import opened Common
  import opened Validators

  /** What checking v against an optional constraint gives: no constraint
      accepts everything. */
  function Validation(constraints: Option<Constraint>, v: Value): (o: Outcome)
    ensures constraints.None? ==> o == Pass
    ensures constraints.Some? ==> (o == Pass <==> forall k :: 0 <= k < |constraints.value.evaluators| ==>
                                                   Evaluate(constraints.value.evaluators[k], v) == Pass)
  {
    if constraints.None? then Pass
    else
      CheckAllMeaning(constraints.value.evaluators, v);
      CheckAll(constraints.value.evaluators, v)
  }

  class UserParam {
    var name: string
    var defaultValue: Value
    var currentValue: Value
    var constraints: Option<Constraint>

    /** Both values meet the constraint, as every parameter that was
        constructed successfully and only updated or reset keeps. */
    predicate Valid()
      reads this
    {
      Validation(constraints, defaultValue) == Pass && Validation(constraints, currentValue) == Pass
    }

    /** The field assignments of __init__, before the checks. */
    constructor Init(name: string, defaultValue: Value, constraints: Option<Constraint>)
      ensures this.name == name && this.defaultValue == defaultValue && this.currentValue == defaultValue
      ensures this.constraints == constraints
    {
      this.name := name;
      this.defaultValue := defaultValue;
      this.currentValue := defaultValue;
      this.constraints := constraints;
    }

    /** UserParam(name, description, default_value, constraints): the
        default becomes the current value and both are checked; a rejected
        default raises (InvalidConfiguration, re-raised under the
        parameter's name), and a parameter built is valid. */
    static method New(name: string, defaultValue: Value, constraints: Option<Constraint>) returns (r: Result<UserParam>)
      ensures r.Failure? <==> Validation(constraints, defaultValue).Fail?
      ensures r.Failure? ==> r.error == Validation(constraints, defaultValue).error
      ensures r.Success? ==> fresh(r.value) && r.value.Valid()
      ensures r.Success? ==> r.value.name == name && r.value.defaultValue == defaultValue &&
                             r.value.currentValue == defaultValue && r.value.constraints == constraints
    {
      var p := new UserParam.Init(name, defaultValue, constraints);
      if constraints.Some? {
        var o := CheckIfValueMeetsConstraint(constraints.value, name, p.defaultValue);
        if o.Fail? {
          return Failure(o.error);
        }
        // The second check of __init__, on current_value, sees the same value
        // and so passes as the first did.
      }
      return Success(p);
    }

    /** update_value(new_value): validate, then assign; a rejected value
        leaves the parameter as it was. */
    method UpdateValue(newValue: Value) returns (o: Outcome)
      modifies this
      ensures o == Validation(constraints, newValue)
      ensures currentValue == (if o.Pass? then newValue else old(currentValue))
      ensures o.Fail? ==> unchanged(this)
      ensures name == old(name) && defaultValue == old(defaultValue) && constraints == old(constraints)
      ensures old(Valid()) ==> Valid()
    {
      if constraints.Some? {
        o := CheckIfValueMeetsConstraint(constraints.value, name, newValue);
        if o.Fail? {
          return;
        }
      }
      o := Pass;
      currentValue := newValue;
    }

    /** reset_value(): the current value is the default again. */
    method ResetValue()
      modifies this
      ensures currentValue == defaultValue
      ensures name == old(name) && defaultValue == old(defaultValue) && constraints == old(constraints)
      ensures old(Valid()) ==> Valid()
    {
      currentValue := defaultValue;
    }
  }

  /** The holder's parameters are distinct objects. */
  predicate Distinct(params: map<string, UserParam>)
  {
    forall k1, k2 :: k1 in params && k2 in params && k1 != k2 ==> params[k1] != params[k2]
  }

  class ConfigHolder {
    var configValues: map<string, UserParam>

    /** ConfigHolder(parameters): keeps the dictionary itself, not a copy. */
    constructor (parameters: map<string, UserParam>)
      ensures configValues == parameters
    {
      configValues := parameters;
    }

    /** get_current_value(name): the named parameter's current value, or
        KeyError for an unknown name. */
    function CurrentValue(parameterName: string): (r: Result<Value>)
      reads this, configValues.Values
      ensures r.Success? <==> parameterName in configValues
      ensures r.Failure? ==> r.error == KeyError
      ensures r.Success? ==> r.value == configValues[parameterName].currentValue
    {
      if parameterName in configValues then Success(configValues[parameterName].currentValue)
      else Failure(KeyError)
    }

    /** get_all_current_values(): every name of the holder with its
        parameter's current value. */
    function AllCurrentValues(): (m: map<string, Value>)
      reads this, configValues.Values
      ensures m.Keys == configValues.Keys
      ensures forall k :: k in m ==> CurrentValue(k) == Success(m[k])
    {
      map k | k in configValues :: configValues[k].currentValue
    }

    /** update_value(name, new_value): the named parameter validates and
        takes the value; no other parameter changes, and an unknown name
        raises KeyError. */
    method UpdateValue(parameterName: string, newValue: Value) returns (o: Outcome)
      modifies configValues.Values
      ensures configValues == old(configValues)
      ensures parameterName !in configValues ==> o == Fail(KeyError)
      ensures parameterName in configValues ==>
                o == Validation(configValues[parameterName].constraints, newValue) &&
                CurrentValue(parameterName) == Success(if o.Pass? then newValue else old(configValues[parameterName].currentValue))
      ensures o.Fail? ==> forall k :: k in configValues ==> unchanged(configValues[k])
      ensures forall k :: k in configValues && (parameterName !in configValues || configValues[k] != configValues[parameterName]) ==>
                unchanged(configValues[k])
      ensures forall k :: k in configValues ==>
                configValues[k].name == old(configValues[k].name) &&
                configValues[k].defaultValue == old(configValues[k].defaultValue) &&
                configValues[k].constraints == old(configValues[k].constraints)
      ensures Distinct(configValues) && o.Pass? ==> AllCurrentValues() == old(AllCurrentValues())[parameterName := newValue]
    {
      if parameterName !in configValues {
        return Fail(KeyError);
      }
      var p := configValues[parameterName];
      o := p.UpdateValue(newValue);
    }
  }
}
