/** `BrainBehaviorModel` of bba/model_pipeline.py: the same build, fit and evaluate steps
    without a data type or level, and a save that writes the coefficients as a CIFTI image
    once results exist. */
module BbaModelPipeline {
  import opened Common
  import opened NdArrays
  import opened ModelLookup

  class BrainBehaviorModel {
    var model: Option<Estimator>
    var results: Option<FitResults>

    /** Results exist only once a model does. */
    predicate Valid()
      reads this
    {
      results.Some? ==> model.Some?
    }

    constructor ()
      ensures Valid() && model == None && results == None
    {
      model, results := None, None;
    }

    /** `build_model(config)`: both keys are read before the search; a `null` model name
        makes `getattr` raise `TypeError`, which the loop does not catch, and `null`
        parameters make `.items()` raise `AttributeError` once the class is found. The model
        is replaced only when both succeed, with the parameters whose value is not `None`. */
    method BuildModel(config: Config, defines: (string, string) -> bool) returns (r: Result<()>)
      requires Valid()
      modifies this
      ensures Valid()
      ensures results == old(results)
      ensures config.modelName.Absent? ==> r == Err(KeyError("model_name")) && model == old(model)
      ensures !config.modelName.Absent? && config.parameters.Absent? ==>
                r == Err(KeyError("parameters")) && model == old(model)
      ensures config.modelName.Null? && !config.parameters.Absent? ==> r == Err(TypeError("getattr")) && model == old(model)
      ensures config.modelName.Given? && !config.parameters.Absent? ==>
                var found := FirstDefining(Submodules, config.modelName.value, defines);
                && (found.None? ==> r == Err(ValueError(ModelClassNotFound(config.modelName.value))) && model == old(model))
                && (found.Some? && config.parameters.Null? ==> r == Err(AttributeError("items")) && model == old(model))
                && (found.Some? && config.parameters.Given? ==>
                      r == Ok(()) && model == Some(Estimator(ModelClass(Submodules[found.value], config.modelName.value),
                                                             FilterParams(config.parameters.value), None)))
    {
      if config.modelName.Absent? {
        return Err(KeyError("model_name"));
      }
      if config.parameters.Absent? {
        return Err(KeyError("parameters"));
      }
      if config.modelName.Null? {
        return Err(TypeError("getattr"));
      }
      var modelName := config.modelName.value;
      var modelClass := FindModelClass(modelName, defines);
      if modelClass.Err? {
        return Err(modelClass.error);
      }
      if config.parameters.Null? {
        return Err(AttributeError("items"));
      }
      model := Some(Estimator(modelClass.value, FilterParams(config.parameters.value), None));
      r := Ok(());
    }

    /** `fit(X, y)`, as in model_pipeline.py: `ValueError` before `build_model`; otherwise the
        estimator is fitted, a missing `coef_` or a plain-float `intercept_` raises
        `AttributeError` with the results left as they were, and else the results hold its
        coefficients and its intercept's values, `None` exactly when it has no `intercept_`. */
    method Fit(outcome: Fitted) returns (r: Result<FitResults>)
      requires Valid()
      modifies this
      ensures Valid()
      ensures old(model).None? ==> r == Err(ValueError(FitBeforeBuild)) && model == None && results == old(results)
      ensures old(model).Some? ==> model == Some(old(model).value.(fitted := Some(outcome)))
      ensures old(model).Some? && outcome.coef.None? ==> r == Err(AttributeError("coef_")) && results == old(results)
      ensures old(model).Some? && outcome.coef.Some? && outcome.intercept.FloatIntercept? ==>
                r == Err(AttributeError("tolist")) && results == old(results)
      ensures old(model).Some? && outcome.coef.Some? && outcome.intercept.NoIntercept? ==>
                r == Ok(FitResults(outcome.coef.value, None)) && results == Some(r.value)
      ensures old(model).Some? && outcome.coef.Some? && outcome.intercept.NumpyIntercept? ==>
                r == Ok(FitResults(outcome.coef.value, Some(outcome.intercept.values))) && results == Some(r.value)
    {
      if model.None? {
        return Err(ValueError(FitBeforeBuild));
      }
      model := Some(model.value.(fitted := Some(outcome)));
      if outcome.coef.None? {
        return Err(AttributeError("coef_"));
      }
      var intercept := InterceptList(outcome.intercept);
      if intercept.Err? {
        return Err(intercept.error);
      }
      results := Some(FitResults(outcome.coef.value, intercept.value));
      r := Ok(results.value);
    }

    /** `evaluate(X, y)`: only the absence of a model is checked, not whether `fit` ran.
        `predicts(submodule, name)` says whether the estimator class has a `predict` method;
        the clusterers and decompositions searched (`DBSCAN`, `PCA`, ...) have none, so
        `self.model.predict` raises `AttributeError` whether or not the model was fitted. A
        class with `predict` fails in sklearn with `NotFittedError` before `fit`. `score`
        stands for the R² of the predictions. */
    method Evaluate(score: real, predicts: (string, string) -> bool) returns (r: Result<real>)
      ensures model.None? ==> r == Err(ValueError(EvaluateBeforeFit))
      ensures model.Some? && !predicts(model.value.cls.submodule, model.value.cls.name) ==>
                r == Err(AttributeError("predict"))
      ensures model.Some? && predicts(model.value.cls.submodule, model.value.cls.name) && model.value.fitted.None? ==>
                r == Err(NotFittedError)
      ensures model.Some? && predicts(model.value.cls.submodule, model.value.cls.name) && model.value.fitted.Some? ==>
                r == Ok(score)
    {
      if model.None? {
        return Err(ValueError(EvaluateBeforeFit));
      }
      if !predicts(model.value.cls.submodule, model.value.cls.name) {
        return Err(AttributeError("predict"));
      }
      if model.value.fitted.None? {
        return Err(NotFittedError);
      }
      r := Ok(score);
    }

    /** `save_results(template_file_path, output_file_path)`. Without results nothing is
        read or written. Otherwise `coef_` is read (since results exist only once a model
        does, its failure is the estimator's, never a missing model), then the template, and
        the CIFTI image written holds `coef_` as it is, untransposed: the coefficients as one
        row, in order, with the template's headers. */
    method SaveResults(templatePath: Path, outputPath: Path, templates: map<Path, Template>)
      returns (r: Result<Written>)
      requires Valid()
      ensures results.None? ==> r == Err(ValueError(NoResultsToSave))
      ensures results.Some? && Coefficients(model).Err? ==> r == Err(AttributeError("coef_"))
      ensures r == Err(AttributeError("coef_")) ==> results.Some? && model.Some?
      ensures results.Some? && Coefficients(model).Ok? && templatePath !in templates ==>
                r == Err(FileNotFoundError(templatePath))
      ensures results.Some? && Coefficients(model).Ok? && templatePath in templates ==>
                && r.Ok? && r.value.path == outputPath && r.value.kind == Cifti2
                && r.value.meta == templates[templatePath].meta
                && r.value.data.shape == [1, |Coefficients(model).value|] && WellFormed(r.value.data)
                && Ravel(r.value.data).data == Coefficients(model).value
    {
      if results.None? {
        return Err(ValueError(NoResultsToSave));
      }
      var coef := Coefficients(model);
      if coef.Err? {
        return Err(coef.error);
      }
      if templatePath !in templates {
        return Err(FileNotFoundError(templatePath));
      }
      var templateCifti := templates[templatePath];
      r := Ok(Written(outputPath, Cifti2, CoefRow(coef.value), templateCifti.meta));
      var n := |coef.value|;
      assert Product([n]) == n;
      assert Product([1, n]) == n by { assert [1, n][1..] == [n]; }
    }
  }

  /** Evaluating a model that was built but never fitted passes the model's own check and
      fails only in sklearn, with `NotFittedError` rather than the `ValueError` of the guard. */
  method EvaluateUnfittedScenario(score: real, defines: (string, string) -> bool, predicts: (string, string) -> bool)
    returns (r: Result<real>)
    requires defines("svm", "SVR") && !defines("linear_model", "SVR") && predicts("svm", "SVR")
    ensures r == Err(NotFittedError)
  {
    var m := new BrainBehaviorModel();
    var config := Config(Absent, Absent, Given("SVR"), Given(map[]));
    assert FirstDefining(Submodules, "SVR", defines) == Some(1);
    var built := m.BuildModel(config, defines);
    r := m.Evaluate(score, predicts);
  }

  /** Saving straight after building, before any fit, writes nothing. */
  method SaveBeforeFitScenario(defines: (string, string) -> bool, templates: map<Path, Template>)
    returns (r: Result<Written>)
    ensures r == Err(ValueError(NoResultsToSave))
  {
    var m := new BrainBehaviorModel();
    var config := Config(Absent, Absent, Given("Ridge"), Given(map["alpha" := Some(Num(1.0))]));
    var built := m.BuildModel(config, defines);
    r := m.SaveResults("template.dscalar.nii", "coef.dscalar.nii", templates);
  }
}
