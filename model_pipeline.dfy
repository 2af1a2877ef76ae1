/** `BrainBehaviorModel` of model_pipeline.py: an estimator built from a configuration,
    fitted, evaluated, and its coefficients written back into the space of a template
    image, voxel by voxel or region by region. */
module ModelPipeline {
  import opened Common
  import opened NdArrays
  import opened ModelLookup

  /** Regions 1 to 180 of the ROI loop (`range(1, 181)`). */
  const RoiCount: nat := 180

  /** Region number `roi` as the template stores it. */
  function RegionId(roi: nat): real
  {
    roi as real
  }

  /** The atlas value is a whole number `L` with `1 <= L < upTo`. */
  predicate IsRoiId(mark: real, upTo: nat)
  {
    mark.Floor as real == mark && 1 <= mark.Floor < upTo
  }

  /** The value of a location whose template value is `mark` once regions `1` to `upTo - 1` are written:
      `betas[L - 1]` for a whole-number value `L`, and the zero of `np.zeros_like` elsewhere. */
  function RoiValue(mark: real, betas: seq<real>, upTo: nat): (r: real)
    requires upTo <= |betas| + 1
  {
    if IsRoiId(mark, upTo) then betas[mark.Floor - 1] else 0.0
  }

  /** The ROI image lines 191-195 build: `betas[roi_id - 1]` raises `IndexError` at the first
      region past the coefficients, so fewer than 180 coefficients give no image. */
  function RoiImage(template: NdArray, betas: seq<real>): (r: Result<NdArray>)
  {
    if |betas| < RoiCount then Err(IndexError)
    else Ok(NdArray(template.shape,
                    seq(|template.data|, v requires 0 <= v < |template.data| =>
                          RoiValue(template.data[v], betas, RoiCount + 1))))
  }

  /** Lines 191-195: a zero array shaped like the template, then for each region `L` from 1
      to 180 every location whose template value equals `L` set to `betas[L - 1]`. */
  method RoiBroadcast(template: NdArray, betas: seq<real>) returns (r: Result<NdArray>)
    ensures r == RoiImage(template, betas)
  {
    var outputData := new real[|template.data|](_ => 0.0);
    for roiId := 1 to RoiCount + 1
      invariant roiId <= |betas| + 1
      invariant forall v :: 0 <= v < outputData.Length ==>
                  outputData[v] == RoiValue(template.data[v], betas, roiId)
    {
      if roiId - 1 >= |betas| {
        return Err(IndexError);
      }
      var beta := betas[roiId - 1];
      forall v | 0 <= v < outputData.Length && template.data[v] == roiId as real {
        outputData[v] := beta;
      }
      forall v | 0 <= v < outputData.Length
        ensures outputData[v] == RoiValue(template.data[v], betas, roiId + 1)
      {
        if template.data[v] == roiId as real {
          assert (roiId as real).Floor == roiId;
        }
      }
    }
    assert outputData[..] == seq(|template.data|, v requires 0 <= v < |template.data| =>
                                   RoiValue(template.data[v], betas, RoiCount + 1));
    r := Ok(NdArray(template.shape, outputData[..]));
  }

  /** With 180 coefficients or more the ROI image has the template's shape; a location
      labelled with a region number `L` from 1 to 180 holds `betas[L - 1]`. */
  lemma RoiImageAtRegion(template: NdArray, betas: seq<real>, v: nat, roi: nat)
    requires |betas| >= RoiCount && v < |template.data|
    requires 1 <= roi <= RoiCount && template.data[v] == roi as real
    ensures RoiImage(template, betas).Ok?
    ensures RoiImage(template, betas).value.shape == template.shape
    ensures RoiImage(template, betas).value.data[v] == betas[roi - 1]
  {
    assert (roi as real).Floor == roi;
  }

  /** Every other location, background or a value outside 1 to 180, holds 0; the image is
      well formed when the template is. */
  lemma RoiImageElsewhere(template: NdArray, betas: seq<real>, v: nat)
    requires |betas| >= RoiCount && v < |template.data|
    requires forall roi: nat :: 1 <= roi <= RoiCount ==> template.data[v] != RegionId(roi)
    ensures RoiImage(template, betas).Ok?
    ensures WellFormed(template) ==> WellFormed(RoiImage(template, betas).value)
    ensures RoiImage(template, betas).value.data[v] == 0.0
  {
    var mark := template.data[v];
    if mark.Floor >= 1 {
      var roi: nat := mark.Floor;
      assert roi <= RoiCount ==> template.data[v] != RegionId(roi);
    }
  }

  /** Too few coefficients for the 180 regions: `IndexError`, and nothing is written. */
  lemma RoiImageNeedsAllRegions(template: NdArray, betas: seq<real>)
    ensures RoiImage(template, betas).Err? <==> |betas| < RoiCount
  {
  }

  /** `nib.save` of a new image, when the data could be made. */
  function WriteImage(img: Result<NdArray>, path: Path, kind: FileKind, meta: Metadata): Result<Option<Written>>
  {
    if img.Err? then Err(img.error) else Ok(Some(Written(path, kind, img.value, meta)))
  }

  /** `r` is a NIfTI image written to `out` with the template's affine and header. */
  predicate NiftiWrittenAt(r: Result<Option<Written>>, out: Path, t: Template)
  {
    r.Ok? && r.value.Some? && r.value.value.path == out && r.value.value.kind == Nifti1 && r.value.value.meta == t.meta
  }

  /** What `_save_nifti` (lines 173-201) promises once the template `t` is loaded. At voxel
      level the image is written exactly when the coefficient count is the template's size;
      it has the template's shape, and flattening it gives the coefficients back. At ROI
      level there is `IndexError` below 180 coefficients, and otherwise an image of the
      template's shape whose location `v` holds the coefficient of its region, or 0
      (`RoiValue`). At any other level no file is written. */
  predicate NiftiSaveMeets(r: Result<Option<Written>>, level: Option<string>, betas: seq<real>, out: Path, t: Template)
  {
    && (level == Some("voxel") ==>
          && (r.Ok? <==> |betas| == Product(t.image.shape))
          && (r.Err? ==> r.error == ValueError(ReshapeSize))
          && (r.Ok? ==> NiftiWrittenAt(r, out, t) && r.value.value.data.shape == t.image.shape
                        && Ravel(r.value.value.data).data == betas))
    && (level == Some("roi") ==>
          && (|betas| < RoiCount ==> r == Err(IndexError))
          && (|betas| >= RoiCount ==>
                && NiftiWrittenAt(r, out, t) && r.value.value.data.shape == t.image.shape
                && |r.value.value.data.data| == |t.image.data|
                && forall v :: 0 <= v < |t.image.data| ==>
                     r.value.value.data.data[v] == RoiValue(t.image.data[v], betas, RoiCount + 1)))
    && (level != Some("voxel") && level != Some("roi") ==> r == Ok(None))
  }

  /** What `_save_cifti` (lines 203-221) promises once the template `t` is loaded: at voxel
      level a CIFTI image with the template's headers holding `coef_.T`, the coefficients as
      one column in their order; at any other level no file. */
  predicate CiftiSaveMeets(r: Result<Option<Written>>, level: Option<string>, betas: seq<real>, out: Path, t: Template)
  {
    && (level == Some("voxel") ==>
          && r.Ok? && r.value.Some? && r.value.value.path == out && r.value.value.kind == Cifti2
          && r.value.value.meta == t.meta && r.value.value.data.shape == [|betas|, 1] && r.value.value.data.data == betas)
    && (level != Some("voxel") ==> r == Ok(None))
  }

  class BrainBehaviorModel {
    var model: Option<Estimator>
    var results: Option<FitResults>
    var dataType: Option<string>
    var dataLevel: Option<string>

    /** Results exist only once a model does. */
    predicate Valid()
      reads this
    {
      results.Some? ==> model.Some?
    }

    constructor ()
      ensures Valid()
      ensures model == None && results == None && dataType == None && dataLevel == None
    {
      model, results, dataType, dataLevel := None, None, None, None;
    }

    /** `build_model(config)`: the data type and level are stored first, each as soon as it
        is read and `None` when the key holds `null`, so a later failure leaves them changed.
        All four keys are read before the search; a `null` model name makes `getattr` raise
        `TypeError`, which the loop does not catch, and `null` parameters make `.items()`
        raise `AttributeError` once the class is found. The model is replaced only when both
        succeed. `defines(submodule, name)` says whether the submodule of sklearn defines
        the class. */
    method BuildModel(config: Config, defines: (string, string) -> bool) returns (r: Result<()>)
      requires Valid()
      modifies this
      ensures Valid()
      ensures results == old(results)
      ensures config.dataType.Absent? ==> r == Err(KeyError("data_type")) && unchanged(this)
      ensures !config.dataType.Absent? ==> dataType == Stored(config.dataType)
      ensures !config.dataType.Absent? && config.dataLevel.Absent? ==>
                r == Err(KeyError("data_level")) && dataLevel == old(dataLevel) && model == old(model)
      ensures !config.dataType.Absent? && !config.dataLevel.Absent? ==> dataLevel == Stored(config.dataLevel)
      ensures !config.dataType.Absent? && !config.dataLevel.Absent? && config.modelName.Absent? ==>
                r == Err(KeyError("model_name")) && model == old(model)
      ensures !config.dataType.Absent? && !config.dataLevel.Absent? && !config.modelName.Absent? && config.parameters.Absent? ==>
                r == Err(KeyError("parameters")) && model == old(model)
      ensures !config.dataType.Absent? && !config.dataLevel.Absent? && config.modelName.Null? && !config.parameters.Absent? ==>
                r == Err(TypeError("getattr")) && model == old(model)
      ensures !config.dataType.Absent? && !config.dataLevel.Absent? && config.modelName.Given? && !config.parameters.Absent? ==>
                var found := FirstDefining(Submodules, config.modelName.value, defines);
                && (found.None? ==> r == Err(ValueError(ModelClassNotFound(config.modelName.value))) && model == old(model))
                && (found.Some? && config.parameters.Null? ==> r == Err(AttributeError("items")) && model == old(model))
                && (found.Some? && config.parameters.Given? ==>
                      r == Ok(()) && model == Some(Estimator(ModelClass(Submodules[found.value], config.modelName.value),
                                                             FilterParams(config.parameters.value), None)))
    {
      if config.dataType.Absent? {
        return Err(KeyError("data_type"));
      }
      dataType := Stored(config.dataType);
      if config.dataLevel.Absent? {
        return Err(KeyError("data_level"));
      }
      dataLevel := Stored(config.dataLevel);
      if config.modelName.Absent? {
        return Err(KeyError("model_name"));
      }
      if config.parameters.Absent? {
        return Err(KeyError("parameters"));
      }
      if config.modelName.Null? {
        return Err(TypeError("getattr"));
      }
      var modelName := config.modelName.value;
      var modelClass := FindModelClass(modelName, defines);
      if modelClass.Err? {
        return Err(modelClass.error);
      }
      if config.parameters.Null? {
        return Err(AttributeError("items"));
      }
      model := Some(Estimator(modelClass.value, FilterParams(config.parameters.value), None));
      r := Ok(());
    }

    /** `fit(X, y)`; `outcome` is what the estimator's own `fit` leaves on it. Before
        `build_model` it raises `ValueError` and changes nothing. Otherwise the estimator
        is fitted and the `results` dictionary is built: a missing `coef_` raises
        `AttributeError`, and so does `tolist()` on a plain-float `intercept_`; either
        leaves the results as they were. Else the results hold the coefficients and the
        intercept's values, `None` exactly when the estimator has no `intercept_`. */
    method Fit(outcome: Fitted) returns (r: Result<FitResults>)
      requires Valid()
      modifies this
      ensures Valid()
      ensures dataType == old(dataType) && dataLevel == old(dataLevel)
      ensures old(model).None? ==> r == Err(ValueError(FitBeforeBuild)) && model == None && results == old(results)
      ensures old(model).Some? ==> model == Some(old(model).value.(fitted := Some(outcome)))
      ensures old(model).Some? && outcome.coef.None? ==> r == Err(AttributeError("coef_")) && results == old(results)
      ensures old(model).Some? && outcome.coef.Some? && outcome.intercept.FloatIntercept? ==>
                r == Err(AttributeError("tolist")) && results == old(results)
      ensures old(model).Some? && outcome.coef.Some? && outcome.intercept.NoIntercept? ==>
                r == Ok(FitResults(outcome.coef.value, None)) && results == Some(r.value)
      ensures old(model).Some? && outcome.coef.Some? && outcome.intercept.NumpyIntercept? ==>
                r == Ok(FitResults(outcome.coef.value, Some(outcome.intercept.values))) && results == Some(r.value)
    {
      if model.None? {
        return Err(ValueError(FitBeforeBuild));
      }
      model := Some(model.value.(fitted := Some(outcome)));
      if outcome.coef.None? {
        return Err(AttributeError("coef_"));
      }
      var intercept := InterceptList(outcome.intercept);
      if intercept.Err? {
        return Err(intercept.error);
      }
      results := Some(FitResults(outcome.coef.value, intercept.value));
      r := Ok(results.value);
    }

    /** `evaluate(X, y)`: only the absence of a model is checked, not whether `fit` ran.
        `predicts(submodule, name)` says whether the estimator class has a `predict` method;
        the clusterers and decompositions searched (`DBSCAN`, `PCA`, ...) have none, so
        `self.model.predict` raises `AttributeError` whether or not the model was fitted. A
        class with `predict` fails in sklearn with `NotFittedError` before `fit`. `score`
        stands for the R² of the predictions. */
    method Evaluate(score: real, predicts: (string, string) -> bool) returns (r: Result<real>)
      ensures model.None? ==> r == Err(ValueError(EvaluateBeforeFit))
      ensures model.Some? && !predicts(model.value.cls.submodule, model.value.cls.name) ==>
                r == Err(AttributeError("predict"))
      ensures model.Some? && predicts(model.value.cls.submodule, model.value.cls.name) && model.value.fitted.None? ==>
                r == Err(NotFittedError)
      ensures model.Some? && predicts(model.value.cls.submodule, model.value.cls.name) && model.value.fitted.Some? ==>
                r == Ok(score)
    {
      if model.None? {
        return Err(ValueError(EvaluateBeforeFit));
      }
      if !predicts(model.value.cls.submodule, model.value.cls.name) {
        return Err(AttributeError("predict"));
      }
      if model.value.fitted.None? {
        return Err(NotFittedError);
      }
      r := Ok(score);
    }

    /** `save_results(template_path, output_path)`; `templates` holds the images on disk. The
        result is the written file, or `None` when only the message is printed. `coef_` is
        read first, so an estimator without it raises `AttributeError` whatever the data
        type; an unsupported data type is refused before any template is read. */
    method SaveResults(templatePath: Path, outputPath: Path, templates: map<Path, Template>)
      returns (r: Result<Option<Written>>)
      requires Valid()
      ensures Coefficients(model).Err? ==> r == Err(AttributeError("coef_"))
      ensures Coefficients(model).Ok? && dataType != Some("nifti") && dataType != Some("cifti") ==>
                r == Err(ValueError(UnsupportedFileType))
      ensures r == Err(ValueError(UnsupportedFileType)) <==>
                Coefficients(model).Ok? && dataType != Some("nifti") && dataType != Some("cifti")
      ensures Coefficients(model).Ok? && (dataType == Some("nifti") || dataType == Some("cifti")) && templatePath !in templates ==>
                r == Err(FileNotFoundError(templatePath))
      ensures Coefficients(model).Ok? && dataType == Some("nifti") && templatePath in templates ==>
                NiftiSaveMeets(r, dataLevel, Coefficients(model).value, outputPath, templates[templatePath])
      ensures Coefficients(model).Ok? && dataType == Some("cifti") && templatePath in templates ==>
                CiftiSaveMeets(r, dataLevel, Coefficients(model).value, outputPath, templates[templatePath])
    {
      var coef := Coefficients(model);
      if coef.Err? {
        return Err(coef.error);
      }
      if dataType == Some("nifti") {
        r := SaveNifti(coef.value, templatePath, outputPath, templates);
      } else if dataType == Some("cifti") {
        r := SaveCifti(coef.value, templatePath, outputPath, templates);
      } else {
        r := Err(ValueError(UnsupportedFileType));
      }
    }

    method SaveNifti(betas: seq<real>, templatePath: Path, outputPath: Path, templates: map<Path, Template>)
      returns (r: Result<Option<Written>>)
      ensures templatePath !in templates ==> r == Err(FileNotFoundError(templatePath))
      ensures templatePath in templates ==> NiftiSaveMeets(r, dataLevel, betas, outputPath, templates[templatePath])
    {
      if templatePath !in templates {
        return Err(FileNotFoundError(templatePath));
      }
      var templateImg := templates[templatePath];
      if dataLevel == Some("voxel") {
        var betas3d := Reshape(betas, templateImg.image.shape);
        r := WriteImage(betas3d, outputPath, Nifti1, templateImg.meta);
      } else if dataLevel == Some("roi") {
        var outputData := RoiBroadcast(templateImg.image, betas);
        r := WriteImage(outputData, outputPath, Nifti1, templateImg.meta);
      } else {
        r := Ok(None);
      }
    }

    method SaveCifti(betas: seq<real>, templatePath: Path, outputPath: Path, templates: map<Path, Template>)
      returns (r: Result<Option<Written>>)
      ensures templatePath !in templates ==> r == Err(FileNotFoundError(templatePath))
      ensures templatePath in templates ==> CiftiSaveMeets(r, dataLevel, betas, outputPath, templates[templatePath])
    {
      if templatePath !in templates {
        return Err(FileNotFoundError(templatePath));
      }
      var templateImg := templates[templatePath];
      if dataLevel == Some("voxel") {
        r := Ok(Some(Written(outputPath, Cifti2, CoefColumn(betas), templateImg.meta)));
      } else {
        r := Ok(None);
      }
    }
  }

  /** A fresh model that is fitted before `build_model` raises `ValueError` and has no results. */
  method FitBeforeBuildScenario(outcome: Fitted) returns (r: Result<FitResults>, results: Option<FitResults>)
    ensures r == Err(ValueError(FitBeforeBuild)) && results == None
  {
    var m := new BrainBehaviorModel();
    r := m.Fit(outcome);
    results := m.results;
  }

  /** Build, fit and save at voxel level: a `LinearRegression` found in `linear_model`, the
      `None`-valued parameter dropped, the intercept kept, and the coefficients written back
      in the template's shape, so that flattening the written image gives the fitted
      coefficients. */
  method VoxelLifecycleScenario(coef: seq<real>, intercept: real, t: Template, defines: (string, string) -> bool)
    returns (built: Result<()>, fitted: Result<FitResults>, saved: Result<Option<Written>>)
    requires defines("linear_model", "LinearRegression")
    requires |coef| == Product(t.image.shape)
    ensures built == Ok(()) && fitted == Ok(FitResults(coef, Some([intercept])))
    ensures saved.Ok? && saved.value.Some? && saved.value.value.meta == t.meta
    ensures saved.value.value.data.shape == t.image.shape && Ravel(saved.value.value.data).data == coef
  {
    var m := new BrainBehaviorModel();
    var params := map["fit_intercept" := Some(Flag(true)), "n_jobs" := None];
    var config := Config(Given("nifti"), Given("voxel"), Given("LinearRegression"), Given(params));
    assert FirstDefining(Submodules, "LinearRegression", defines) == Some(0);
    built := m.BuildModel(config, defines);
    fitted := m.Fit(Fitted(Some(coef), NumpyIntercept([intercept])));
    var templates := map["template.nii.gz" := t];
    assert Coefficients(m.model) == Ok(coef);
    saved := m.SaveResults("template.nii.gz", "betas.nii.gz", templates);
  }

  /** A `LinearRegression` with `fit_intercept=False` fits, but building the results fails:
      its `intercept_` is the float `0.0`, and `tolist()` raises `AttributeError`. The
      estimator is fitted all the same, while `results` stays `None`. */
  method NoInterceptFitScenario(coef: seq<real>, defines: (string, string) -> bool)
    returns (fitted: Result<FitResults>, results: Option<FitResults>, isFitted: bool)
    requires defines("linear_model", "LinearRegression")
    ensures fitted == Err(AttributeError("tolist")) && results == None && isFitted
  {
    var m := new BrainBehaviorModel();
    var config := Config(Given("nifti"), Given("voxel"), Given("LinearRegression"), Given(map["fit_intercept" := Some(Flag(false))]));
    assert FirstDefining(Submodules, "LinearRegression", defines) == Some(0);
    var built := m.BuildModel(config, defines);
    fitted := m.Fit(Fitted(Some(coef), FloatIntercept(0.0)));
    results := m.results;
    isFitted := m.model.Some? && m.model.value.fitted.Some?;
  }

  /** A configuration whose `data_type` is `null` builds and fits, and `save_results` then
      refuses the type `None` with `ValueError`, before any template is read. */
  method NullDataTypeScenario(coef: seq<real>, defines: (string, string) -> bool, templates: map<Path, Template>)
    returns (built: Result<()>, fitted: Result<FitResults>, saved: Result<Option<Written>>)
    requires defines("linear_model", "Ridge")
    ensures built == Ok(()) && fitted == Ok(FitResults(coef, Some([0.0])))
    ensures saved == Err(ValueError(UnsupportedFileType))
  {
    var m := new BrainBehaviorModel();
    var config := Config(Null, Given("voxel"), Given("Ridge"), Given(map[]));
    assert FirstDefining(Submodules, "Ridge", defines) == Some(0);
    built := m.BuildModel(config, defines);
    fitted := m.Fit(Fitted(Some(coef), NumpyIntercept([0.0])));
    assert Coefficients(m.model) == Ok(coef);
    saved := m.SaveResults("template.nii.gz", "betas.nii.gz", templates);
  }

  /** A `PCA`, found only in `decomposition`, has no `predict`: evaluating it raises
      `AttributeError` both before and after `fit`, and its fit already fails on `coef_`. */
  method NoPredictScenario(score: real, defines: (string, string) -> bool, predicts: (string, string) -> bool)
    returns (before: Result<real>, fitted: Result<FitResults>, after: Result<real>)
    requires defines("decomposition", "PCA") && !predicts("decomposition", "PCA")
    requires forall sub :: sub != "decomposition" ==> !defines(sub, "PCA")
    ensures before == Err(AttributeError("predict")) && after == Err(AttributeError("predict"))
    ensures fitted == Err(AttributeError("coef_"))
  {
    var m := new BrainBehaviorModel();
    var config := Config(Given("nifti"), Given("voxel"), Given("PCA"), Given(map[]));
    assert FirstDefining(Submodules, "PCA", defines) == Some(8);
    var built := m.BuildModel(config, defines);
    before := m.Evaluate(score, predicts);
    fitted := m.Fit(Fitted(None, NoIntercept));
    after := m.Evaluate(score, predicts);
  }
}
