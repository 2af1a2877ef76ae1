/** What the two `BrainBehaviorModel` classes share: the configuration, the search for the
    estimator class over a fixed list of sklearn submodules, the parameter filter, and the
    estimator, fit outcome and template images as values. sklearn itself is not modelled:
    whether a submodule defines a class is a predicate given by the caller, and what fitting
    yields is an input. */
module ModelLookup {
  import opened Common
  import opened NdArrays

  /** The submodules of `sklearn` searched, in order. */
  const Submodules: seq<string> :=
    ["linear_model", "svm", "tree", "ensemble", "neighbors", "naive_bayes", "neural_network",
     "cluster", "decomposition"]

  /** An estimator class: the submodule it was taken from and its name. */
  datatype ModelClass = ModelClass(submodule: string, name: string)

  /** One key of the configuration dictionary, as `json.load` gives it: absent, present with
      `null` (Python `None`), or present with a value. */
  datatype Entry<T> = Absent | Null | Given(value: T)

  /** The Python value of a key that is present: `None` for `null`. */
  function Stored<T>(e: Entry<T>): Option<T>
    requires !e.Absent?
  {
    if e.Null? then None else Some(e.value)
  }

  /** The configuration dictionary. */
  datatype Config = Config(
    dataType: Entry<string>,
    dataLevel: Entry<string>,
    modelName: Entry<string>,
    parameters: Entry<map<string, Option<Value>>>)

  /** `intercept_` after fitting: absent; a numpy value, an array or the numpy scalar of a
      single-target fit, whose `tolist()` gives its values; or the plain Python float `0.0`
      that sklearn's linear models set when `fit_intercept=False`, which has no `tolist`. */
  datatype Intercept = NoIntercept | NumpyIntercept(values: seq<real>) | FloatIntercept(constant: real)

  /** What fitting leaves on the estimator: `coef_`, possibly absent, and `intercept_`.
      A single-target fit is modelled, so `coef_` is one row of coefficients. */
  datatype Fitted = Fitted(coef: Option<seq<real>>, intercept: Intercept)

  /** An estimator instance, `fitted` being `None` until `fit` has run on it. */
  datatype Estimator = Estimator(cls: ModelClass, params: map<string, Value>, fitted: Option<Fitted>)

  /** The `results` dictionary `fit` stores: `coefficients`, and `intercept` or `None`. A
      single-target fit on `y` of shape `(N, 1)` has a `(1, p)` `coef_`, whose `tolist()` is a
      list holding one list; `coefficients` is that single row, flattened. */
  datatype FitResults = FitResults(coefficients: seq<real>, intercept: Option<seq<real>>)

  /** A template image as loaded: its data and the metadata a new image copies (the affine
      and header of a NIfTI file, the header and NIfTI header of a CIFTI file). */
  type Metadata = seq<(string, string)>
  datatype Template = Template(image: NdArray, meta: Metadata)

  datatype FileKind = Nifti1 | Cifti2

  /** An image written with `nib.save`. */
  datatype Written = Written(path: Path, kind: FileKind, data: NdArray, meta: Metadata)

  /** The position of the first submodule in `subs` that defines `name`. */
  function FirstDefining(subs: seq<string>, name: string, defines: (string, string) -> bool): (r: Option<nat>)
    ensures r.Some? ==> r.value < |subs| && defines(subs[r.value], name)
    ensures r.Some? ==> forall i :: 0 <= i < r.value ==> !defines(subs[i], name)
    ensures r.None? <==> forall i :: 0 <= i < |subs| ==> !defines(subs[i], name)
  {
    if subs == [] then None
    else if defines(subs[0], name) then Some(0)
    else
      var rest := FirstDefining(subs[1..], name, defines);
      assert forall i :: 1 <= i < |subs| ==> subs[i] == subs[1..][i - 1];
      if rest.None? then None else Some(rest.value + 1)
  }

  /** The loop over `Submodules`: `getattr` raises `AttributeError` for a submodule that does
      not define `name`, which moves to the next one; the first that does ends the loop. */
  method FindModelClass(name: string, defines: (string, string) -> bool) returns (r: Result<ModelClass>)
    ensures r.Ok? <==> FirstDefining(Submodules, name, defines).Some?
    ensures r.Ok? ==> r.value == ModelClass(Submodules[FirstDefining(Submodules, name, defines).value], name)
    ensures r.Err? ==> r.error == ValueError(ModelClassNotFound(name))
  {
    var modelClass: Option<ModelClass> := None;
    var i := 0;
    while i < |Submodules|
      invariant 0 <= i <= |Submodules|
      invariant forall j :: 0 <= j < i ==> !defines(Submodules[j], name)
    {
      var submodule := Submodules[i];
      if defines(submodule, name) {
        modelClass := Some(ModelClass(submodule, name));
        break;
      }
      i := i + 1;
    }
    if modelClass.None? {
      return Err(ValueError(ModelClassNotFound(name)));
    }
    r := Ok(modelClass.value);
  }

  /** `{k: v for k, v in parameters.items() if v is not None}`. */
  function FilterParams(parameters: map<string, Option<Value>>): (r: map<string, Value>)
    ensures forall k :: k in r <==> k in parameters && parameters[k].Some?
    ensures forall k :: k in r ==> r[k] == parameters[k].value
  {
    map k | k in parameters && parameters[k].Some? :: parameters[k].value
  }

  /** Filtering drops nothing when no value is `None`, and never adds a key. */
  lemma FilterParamsKeepsSetValues(parameters: map<string, Option<Value>>)
    ensures |FilterParams(parameters)| <= |parameters|
    ensures (forall k :: k in parameters ==> parameters[k].Some?) ==>
              FilterParams(parameters).Keys == parameters.Keys
  {
    var r := FilterParams(parameters);
    assert r.Keys <= parameters.Keys;
    SubsetCard(r.Keys, parameters.Keys);
  }

  lemma {:induction false} SubsetCard<T>(a: set<T>, b: set<T>)
    requires a <= b
    ensures |a| <= |b|
    decreases |b|
  {
    if b != {} {
      var x :| x in b;
      SubsetCard(a - {x}, b - {x});
    }
  }

  /** `self.model.intercept_.tolist() if hasattr(self.model, 'intercept_') else None`. */
  function InterceptList(i: Intercept): Result<Option<seq<real>>>
  {
    match i
    case NoIntercept => Ok(None)
    case NumpyIntercept(v) => Ok(Some(v))
    case FloatIntercept(_) => Err(AttributeError("tolist"))
  }

  /** The coefficients of a fitted estimator: `coef_` read on an estimator that has none, or
      that was never fitted, raises `AttributeError`. */
  function Coefficients(model: Option<Estimator>): Result<seq<real>>
  {
    if model.Some? && model.value.fitted.Some? && model.value.fitted.value.coef.Some?
    then Ok(model.value.fitted.value.coef.value)
    else Err(AttributeError("coef_"))
  }

  /** `coef_` of a single-target fit: one row of coefficients. */
  function CoefRow(coef: seq<real>): NdArray
  {
    NdArray([1, |coef|], coef)
  }

  /** `coef_.T`: the same coefficients as one column. */
  function CoefColumn(coef: seq<real>): NdArray
  {
    NdArray([|coef|, 1], coef)
  }
}
