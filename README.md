# ccbd brain–behaviour data alignment, modelled in Dafny

This project models the data-alignment and coefficient-remapping core of the ccbd
brain–behaviour association scripts. It has two halves.

The forward half checks brain and behaviour inputs, then assembles a subject-by-feature matrix:

- the subject partitions of the three `check_brain_input` variants;
- the `os.path.splitext` format key and single-format check of check_brain_data.py;
- the suffix dispatch with flatten-and-stack of prepare_input_data.py;
- the vertical stacking of the two other loaders;
- the reduction of a vertex matrix to atlas-region means (`transform_analysis_level`);
- the behaviour-table checks.

The inverse half is the `BrainBehaviorModel` class, in both versions:

- it builds an estimator by a first-match search over a fixed list of sklearn submodules;
- it filters out `None` parameters;
- it guards `fit` and `evaluate`;
- it writes the coefficients back into the space of a template image. At voxel level this is a reshape; at ROI level it broadcasts over regions 1 to 180.

How the source is represented:

- Files on disk are a map from path to contents (`NdArrays.FileStore`), or a set of existing paths.
- An image's contents are a shape plus a flat C-order buffer (`NdArrays.NdArray`).
- A CSV table is a sequence of rows; for the behaviour table, its cells are `Option<Value>`.
- Subject identifiers are natural numbers (`Common.SubjectId`), as in the HCP numbering. The `subject` column is compared with them as numbers, and `str(sub)` is their decimal digits.
- Python exceptions are the `Err` side of `Common.Result`, with the exception class and the reason.
- Printed diagnostics are returned as values.
- sklearn is represented by parameters: whether a submodule defines a class is the predicate `defines(submodule, name)`, whether that class has a `predict` method is the predicate `predicts(submodule, name)`, what fitting leaves on the estimator is an input (`ModelLookup.Fitted`), and the R² score is an input of `Evaluate`.

Module layout, one module per file:

- `Common`: Option, Result, errors, values.
- Shared helpers:
  - `Seqs`: order-keeping filter and map.
  - `PathStrings`: `lower`, `endswith`, `splitext`, `join`, `str(int)`.
  - `NdArrays`: reshape, ravel, new axis, concatenate, vstack, hstack.
- One module per source area:
  - `Manifest`: the manifest partition shared by check_brain_data.py and check_read_brain_data_241114.py.
  - `CheckBrainData`, `ReadBrainData`, `HcpMyelin`: the three loaders.
  - `Behavior`: the behaviour-table checks.
  - `PrepareInput` and `RoiLevel`: prepare_input_data.py.
- `ModelLookup` holds what the two model classes share.
- `ModelPipeline` and `BbaModelPipeline` are the two classes.

Where a function in the source appends to lists in a loop, the model is a method with that loop. The method is proved equal to a specification function, and the properties are lemmas about that function. The model classes are Dafny classes whose methods update the same fields as the source.

## Model

| member | source | states |
|---|---|---|
| PathStrings.Lower | check_brain_data.py:35 | `str.lower` keeps the length and lowers each character |
| PathStrings.CsvSuffixIsLastFourChars | check_brain_data.py:35 | the `.csv` test holds exactly when the last four characters are a dot and `c`, `s`, `v` in either case |
| PathStrings.SplitExtShape | check_brain_data.py:117 | the two halves of `splitext` reassemble the path; the extension is empty or one dot followed by dot-free, separator-free characters, and the path ends in it |
| PathStrings.ExtOfLastSuffix | check_brain_data.py:117 | only the last suffix becomes the extension, even when the name carries an inner suffix before it |
| PathStrings.NiiGzExt | check_brain_data.py:117 | a `.nii.gz` path has the extension `.gz` |
| PathStrings.CiftiNiiExt | check_brain_data.py:117 | `.dscalar.nii`, `.dtseries.nii` and `.dlabel.nii` paths have the extension `.nii` |
| PathStrings.LastIndex | check_brain_data.py:117 | the last position of a character, or -1 when it does not occur |
| PathStrings.NatToString | check_read_brain_data.py:17 | `str(sub)` is a non-empty string of decimal digits |
| PathStrings.NatToStringInjective | check_read_brain_data.py:17 | different subject numbers have different decimal strings |
| PathStrings.JoinAllSnoc | check_read_brain_data.py:17 | `os.path.join` of several parts joins each part onto the result so far |
| PathStrings.EndsWithTrans | prepare_input_data.py:56-61 | a path that ends in a suffix also ends in every suffix of that suffix |
| Seqs.FilterMembership | check_brain_data.py:50-61 | an element is kept by an append-if loop exactly when it occurs in the input and satisfies the test |
| Seqs.FilterComplement | check_brain_data.py:50-61 | two loops with complementary tests together keep every element exactly once |
| Seqs.FilterKeepsOrder | check_brain_data.py:50-61 | the kept elements are taken at strictly increasing positions, which are exactly the positions that satisfy the test |
| NdArrays.Reshape | model_pipeline.py:184 | `reshape` succeeds exactly when the size matches, and then has the requested shape and a full buffer |
| NdArrays.ReshapeRavelRoundTrip | model_pipeline.py:184 | reshaping and then flattening gives the values back, and reshaping a flattened array to its own shape gives the array back |
| NdArrays.HStack | check_brain_data.py:143 | `np.hstack` of vectors is defined exactly when there is at least one, and is their values one after the other |
| NdArrays.NewAxisStack | check_brain_data.py:140-152 | arrays of one shape `s`, each given a new leading axis and concatenated, have shape `[n] + s` and keep every buffer in order |
| NdArrays.ConcatenateSingletons | check_brain_data.py:152 | concatenating arrays of shape `[1] + rest` gives shape `[n] + rest` |
| NdArrays.ConcatenateKeepsData | check_brain_data.py:152 | a successful concatenation keeps every buffer in order and needs equal trailing shapes |
| NdArrays.VStackRows | check_read_brain_data_241114.py:107 | `np.vstack` of length-`k` vectors (1-D or one row) is an `n` by `k` matrix holding them in order |
| NdArrays.StackRows | check_read_brain_data_241114.py:107 | rows of shape `[1, k]` concatenate to the `n` by `k` matrix of their buffers, in order |
| NdArrays.FlatBlock | check_read_brain_data_241114.py:107 | row `i` of a stack of equal-length buffers is exactly buffer `i` |
| NdArrays.VStackVectors | check_brain_data.py:141-154 | one-dimensional vectors whose `vstack` succeeds all have the first one's length and become the rows of the matrix, in order |
| Manifest.FirstPath | check_brain_data.py:51-53 | the path of the first manifest row of a subject, or `None` exactly when the subject has no row |
| Manifest.CheckBrainInput | check_brain_data.py:35-63 | a non-`.csv` path or a failed read gives two empty lists and one message; otherwise the present and absent lists are the requested list filtered by the status, with one diagnostic per absent subject (check_read_brain_data_241114.py, lines 43 to 71, holds the same function) |
| Manifest.PartitionIsExact | check_brain_data.py:50-61 | every requested subject lands in exactly one list, repeats counted, so the lengths add up |
| Manifest.PartitionStep | check_brain_data.py:50-61 | one more requested subject joins exactly one of the two lists, chosen by its status |
| Manifest.PresentIffFirstRowExists | check_brain_data.py:51-58 | a subject is present exactly when it is requested, it has a row, and its first row's path exists; it is absent exactly when it is requested and one of those fails |
| Manifest.PartitionKeepsRequestOrder | check_read_brain_data_241114.py:58-69 | each list is the request taken at increasing positions |
| Manifest.OneDiagnosticPerAbsentSubject | check_brain_data.py:56-61 | one diagnostic per absent subject, naming it; "not found in file" exactly for a missing row, "path abnormal" exactly for a missing file |
| Manifest.ThreeSubjectScenario | check_brain_data.py:50-61 | worked example: a subject without a row, one without a file, and one usable |
| CheckBrainData.ConcatenateBrainInput | check_brain_data.py:112-156 | an unreadable manifest raises its read error and loads nothing; otherwise the method's result and the files it loads equal the specification `Assemble`: format check over all rows, then the per-subject loop that stops at the first error, then the stack by format |
| CheckBrainData.OneFormat | check_brain_data.py:120-124 | with at most one format over a non-empty manifest, that format is the first row's |
| CheckBrainData.FirstKeyIsFormat | check_brain_data.py:117 | the first row's key is among the formats |
| CheckBrainData.TwoKeys | check_brain_data.py:117-121 | two rows with different keys make more than one format |
| CheckBrainData.UniformKey | check_brain_data.py:117 | a manifest whose rows all have key `f` has the single format `f` |
| CheckBrainData.MixedFormatsLoadNothing | check_brain_data.py:116-127 | two rows with different keys, requested or not, raise `ValueError` before any file is loaded |
| CheckBrainData.LoadAllStops | check_brain_data.py:127-149 | after the first failing subject the loop's result no longer changes |
| CheckBrainData.LoadAllSucceeds | check_brain_data.py:127-149 | a successful loop loads one file per subject, from the subject's first row, and appends that file's array in the same position |
| CheckBrainData.LoadSubjectSucceeds | check_brain_data.py:128-147 | one pass that succeeds loads exactly the file of the subject's first row and appends that file's array |
| CheckBrainData.StopsAtSubject | check_brain_data.py:127-149 | a subject whose pass fails decides the result: its error, and the files loaded up to it |
| CheckBrainData.LoadsFirstRowOfEachSubject | check_brain_data.py:128-136 | a successful run loaded every subject of `exist_subject` once, from its first row, in order |
| CheckBrainData.NiftiSlicesFollowExist | check_brain_data.py:138-152 | on the NIfTI branch the result has one leading slice per subject of `exist_subject`, and slice `i` is the data of subject `exist_subject[i]`'s file; only the subjects' files must be well formed |
| CheckBrainData.NewAxisSlices | check_brain_data.py:140-152 | arrays of one shape, each given a new leading axis, concatenate to `[n] + s` with slice `i` holding array `i`'s data |
| CheckBrainData.GiiRowsFollowExist | check_brain_data.py:141-154 | on the GIFTI branch a successful result is a subjects-by-vertices matrix: one row per subject of `exist_subject`, in order, row `i` holding the data arrays of subject `exist_subject[i]`'s first-row file, all rows of the first one's length |
| CheckBrainData.NiftiStack | check_brain_data.py:138-152 | on the NIfTI branch, when every subject's first-row file exists and those files share shape `s`, the result has shape `[n] + s`; other files on disk are unconstrained |
| CheckBrainData.LoadAllNifti | check_brain_data.py:127-140 | on the NIfTI branch the loop succeeds when every subject has a row whose file exists |
| CheckBrainData.CiftiBranchUnreachable | check_brain_data.py:145 | no `splitext` key can end in a CIFTI compound suffix, so this branch never runs |
| CheckBrainData.InnerDotBlocksSuffix | check_brain_data.py:145 | a one-dot extension cannot end in a suffix with an inner dot |
| CheckBrainData.UnsupportedLoadsNothing | check_brain_data.py:148-149 | an unsupported format opens no file; the loop fails on its first subject, with the unsupported-format `ValueError` when that file exists |
| CheckBrainData.UnsupportedAssemblesNothing | check_brain_data.py:117-149 | one format that no branch accepts yields an error and loads no file; the unsupported-format `ValueError` when the first subject's file exists |
| CheckBrainData.GzUnsupported | check_brain_data.py:138-149 | no branch accepts the key `.gz` |
| CheckBrainData.GzManifestKey | check_brain_data.py:117-124 | a `.nii.gz` manifest has one format, and the first row's key is `.gz` |
| CheckBrainData.GzManifestFormat | check_brain_data.py:117 | a manifest of `.nii.gz` files has the single format `.gz` |
| CheckBrainData.GzManifestIsRejected | check_brain_data.py:117-149 | as written: a `.nii.gz` manifest never yields data and loads no file |
| CheckBrainData.GzManifestIntended | check_brain_data.py:138-152 | with a compound-suffix key, a `.nii.gz` manifest takes the NIfTI branch, and subjects' files of one shape `s` stack to `[n] + s` |
| CheckBrainData.DscalarTakesNiftiBranch | check_brain_data.py:117-140 | `.dscalar.nii` files have the format `.nii` and are stacked along a new leading axis |
| ReadBrainData.ConcatenateBrainInput | check_read_brain_data_241114.py:99-108 | an unreadable manifest raises its read error; otherwise the method's result is the specification `Stacked`: each subject's first-row file loaded in order, then `vstack` |
| ReadBrainData.FetchAllStops | check_read_brain_data_241114.py:102-105 | after the first failing subject the loop's result no longer changes |
| ReadBrainData.FirstFailureWins | check_read_brain_data_241114.py:102-105 | the error raised is that of the first subject that cannot be loaded: `IndexError` without a row, `FileNotFoundError` without a file |
| ReadBrainData.FetchAllSucceeds | check_read_brain_data_241114.py:103-105 | when every subject loads, entry `i` is subject `i`'s array |
| ReadBrainData.RowsFollowExist | check_read_brain_data_241114.py:102-107 | when each subject's loaded array is a vector of length `k`, the result is an `n` by `k` matrix whose row `i` is subject `exist_subject[i]`'s file; files the loop does not open are unconstrained |
| HcpMyelin.CheckBrainInput | check_read_brain_data.py:13-23 | the present and absent lists are the subject list filtered by whether the myelin file exists, with one message per absent subject |
| HcpMyelin.MyelinPartition | check_read_brain_data.py:16-22 | a subject is kept exactly when requested and its file exists; every subject lands in exactly one list |
| HcpMyelin.ConcatenateBrainInput | check_read_brain_data.py:25-32 | the method's result is the specification `Stacked`: each subject's myelin file in order, then `vstack` |
| HcpMyelin.FetchAllStops | check_read_brain_data.py:27-30 | after the first missing file the loop's result no longer changes |
| HcpMyelin.FetchAllSucceeds | check_read_brain_data.py:27-30 | when every file exists, entry `i` is the map of subject `i` |
| HcpMyelin.CheckedSubjectsHaveFiles | check_read_brain_data.py:17-28 | every kept subject's file, the path the loader opens, exists |
| HcpMyelin.MapsStackInOrder | check_read_brain_data.py:25-35 | when each subject's map holds `k` values as one vector, the maps stack to an `n` by `k` matrix whose row `i` is the map of `exist_sub[i]`; other files are unconstrained |
| HcpMyelin.JoinRelative | check_read_brain_data.py:17 | joining a relative component appends it to the base |
| HcpMyelin.JoinWordOnto | check_read_brain_data.py:17 | joining a relative word onto a path without a trailing separator inserts one separator |
| HcpMyelin.MyelinPathForm | check_read_brain_data.py:17 | the myelin path written out part by part |
| HcpMyelin.SubjectDirectory | check_read_brain_data.py:17 | the subject number follows the base directly and is followed by a separator |
| HcpMyelin.DigitsBeforeSeparator | check_read_brain_data.py:17 | two digit strings that start at one place and are each followed by a separator are equal |
| HcpMyelin.MyelinPathInjective | check_read_brain_data.py:17-28 | different subjects have different myelin paths |
| Behavior.MissingCellIffAnyMissing | check_read_behavior_data.py:16 | `isnull().values.any()` holds exactly when some row has a missing cell |
| Behavior.CheckBehaviorInput | check_read_behavior_data.py:13-21 | a non-`.csv` path gives the format message; on a `.csv` path a read error propagates, missing values are reported exactly when a cell is missing, and clean data is reported otherwise (check_read_behavior_data_241114.py, lines 37 to 44, has the same logic with messages in another language) |
| Behavior.NonCsvIsNotRead | check_read_behavior_data_241114.py:37-44 | a non-`.csv` path's report does not depend on the file |
| Behavior.MissingValuesDoNotRaise | check_read_behavior_data_241114.py:39-40 | a missing cell gives the message and no error |
| Behavior.ReadBehaviorInput | check_read_behavior_data.py:23-26 | the table is returned exactly as read, and read errors propagate |
| Behavior.CheckedThenRead | check_read_behavior_data_241114.py:41-73 | a file reported clean is a `.csv` that then reads with no missing cell |
| Behavior.UpperCaseSuffixScenario | check_read_behavior_data.py:14-21 | worked example: `.CSV` counts as the suffix, and `.tsv` does not |
| PrepareInput.CheckBehaviorInput | prepare_input_data.py:17-25 | read errors propagate; it raises `ValueError` exactly when a cell is missing, and otherwise succeeds |
| PrepareInput.BehaviorChecksAgree | prepare_input_data.py:21-25 | this check passes exactly when the printing check reports clean data; it raises exactly where that one prints the missing-value message |
| PrepareInput.CheckBrainInput | prepare_input_data.py:28-40 | it never raises except on reading; one line per row whose path is missing, in row order, then the closing line |
| PrepareInput.ReportNamesMissingRows | prepare_input_data.py:34-40 | a row is reported exactly when it is in the manifest and its path is missing; the closing line comes last |
| PrepareInput.LineIffListed | prepare_input_data.py:38-40 | the report names a row exactly when the row is among those it lists |
| PrepareInput.DenseScalarUnreachable | prepare_input_data.py:56-61 | no path reaches the `.dscalar.nii` branch; such paths take the NIfTI branch |
| PrepareInput.Flatten | prepare_input_data.py:63-64 | the result has at most one dimension and the same values |
| PrepareInput.LoadBranch | prepare_input_data.py:56-63 | a NIfTI path holds its own `get_fdata()` or the load error; as written a GIFTI path whose first data array loads raises `AttributeError` on `ndim`, and corrected it holds that array's values; an unmatched path raises `ValueError` (corrected) or keeps the previous value, `UnboundLocalError` on the first row (as written) |
| PrepareInput.ConcatenateBrainInput | prepare_input_data.py:48-67 | the method's result equals the specification `Concatenated` for either reading of the loop body, the script's (`AsWritten`) or the corrected one |
| PrepareInput.CollectStops | prepare_input_data.py:52-65 | after the first failing row the loop's result no longer changes |
| PrepareInput.CollectStep | prepare_input_data.py:52-65 | one more row is one more iteration: an earlier error stays, otherwise the row's read, flattened, is appended or its error is raised |
| PrepareInput.StopsAtRow | prepare_input_data.py:52-65 | a row whose iteration fails decides the result: its error |
| PrepareInput.StaleDataScenario | prepare_input_data.py:56-65 | as written: a row with no matching suffix is stacked with the previous row's data |
| PrepareInput.UnboundOnFirstRow | prepare_input_data.py:56-65 | as written: an unmatched first row leaves `brain_data` unbound |
| PrepareInput.GiftiRowRaises | prepare_input_data.py:58-63 | as written: a GIFTI row whose first data array loads raises `AttributeError` on `ndim` once the rows before it succeed, and a manifest with any GIFTI row never yields a matrix |
| PrepareInput.VersionsAgreeOnVolumes | prepare_input_data.py:56-65 | when every path is a NIfTI or CIFTI file, the script's behaviour and the corrected one are the same |
| PrepareInput.CorrectedKeepsOwnData | prepare_input_data.py:52-65 | corrected: entry `i` is manifest row `i`'s own file, flattened, and there is one entry per row |
| PrepareInput.CorrectedReadsOwn | prepare_input_data.py:56-61 | in the corrected reading, a read that succeeds is the row's own file |
| PrepareInput.CorrectedStep | prepare_input_data.py:52-65 | the last iteration of a successful corrected loop appends the last row's own entry |
| PrepareInput.ManifestRowsStack | prepare_input_data.py:52-67 | corrected: when each row's own data holds `k` values, the matrix is `n` by `k` and row `i` is manifest row `i`'s data (a GIFTI row's first data array); files the manifest does not name are unconstrained |
| PrepareInput.OneDimensionalAfterFlatten | prepare_input_data.py:63-64 | an array of `k` values with at least one dimension flattens to shape `[k]` |
| RoiLevel.Insert | prepare_input_data.py:99 | inserting into an ascending sequence keeps it ascending, and adds exactly that value |
| RoiLevel.Unique | prepare_input_data.py:99 | `np.unique` is strictly ascending and holds exactly the labels that occur |
| RoiLevel.RoisArePositiveLabels | prepare_input_data.py:96-100 | the regions are exactly the positive labels, each once, ascending |
| RoiLevel.RoisAreLabels | prepare_input_data.py:99-100 | every region is a positive label that occurs in the atlas |
| RoiLevel.WhereSelectsLabel | prepare_input_data.py:108 | `np.where` selects, in ascending order, exactly the vertices carrying the label |
| RoiLevel.OutOfRangeIffPositiveBeyondWidth | prepare_input_data.py:108-111 | column selection fails exactly when a vertex beyond the matrix width carries a positive label |
| RoiLevel.OverrunsIffNotInRange | prepare_input_data.py:108-111 | a region's column selection overruns the matrix exactly when one of its vertices lies beyond the width |
| RoiLevel.WhereNonEmpty | prepare_input_data.py:99-111 | every region has at least one vertex, so no mean is over nothing |
| RoiLevel.SumAtBounds | prepare_input_data.py:111 | a sum over `n` values between `lo` and `hi` lies between `n * lo` and `n * hi` |
| RoiLevel.RegionMeanBounds | prepare_input_data.py:111 | a region's mean lies between the least and greatest value on its vertices |
| RoiLevel.MeanOverBounds | prepare_input_data.py:111 | a mean of values between `lo` and `hi` lies between them |
| RoiLevel.UniformRegionMean | prepare_input_data.py:111 | a region that holds one value everywhere has that value as its mean |
| RoiLevel.ColumnNames | prepare_input_data.py:114 | one name `ROI_<int(label)>` per region, in region order |
| RoiLevel.ColumnNamesDistinct | prepare_input_data.py:114 | for whole-number labels the column names are pairwise different |
| RoiLevel.RoiLevelData | prepare_input_data.py:99-111 | the regions, and a subjects-by-regions matrix whose column `j` is every subject's mean over region `j`; `IndexError` exactly when the selection overruns the matrix |
| RoiLevel.WriteColumn | prepare_input_data.py:111 | column `j` becomes every subject's mean over the region; every other column is unchanged |
| RoiLevel.TransformAnalysisLevel | prepare_input_data.py:92-116 | as written: `IndexError` when the selection overruns, and otherwise always `NameError` at the write |
| RoiLevel.TransformAnalysisLevelFixed | prepare_input_data.py:92-115 | corrected: the table holds the column names and the region means, or the `IndexError` of the selection |
| ModelLookup.FirstDefining | model_pipeline.py:58-64 | the first submodule that defines the name, with none before it defining it; `None` exactly when no submodule does |
| ModelLookup.FindModelClass | model_pipeline.py:56-67 | the class comes from the first submodule that defines the name; `ValueError` exactly when none does (bba/model_pipeline.py, lines 35 to 46, makes the same search) |
| ModelLookup.FilterParams | model_pipeline.py:70 | exactly the parameters whose value is not `None` are kept, with their values (bba/model_pipeline.py, line 49, is the same filter) |
| ModelLookup.FilterParamsKeepsSetValues | model_pipeline.py:70 | the filter never adds a key, and drops none when no value is `None` |
| ModelPipeline.BrainBehaviorModel.constructor | model_pipeline.py:13-23 | all four fields start as `None` |
| ModelPipeline.BrainBehaviorModel.BuildModel | model_pipeline.py:49-70 | data type and level are stored as each is read, `None` for a `null` value; the `KeyError` order is `data_type`, `data_level`, `model_name`, `parameters`; a `null` model name raises `TypeError` and `null` parameters `AttributeError`; the model is replaced only when its class is found and the parameters are a dictionary, built from the filtered parameters |
| ModelPipeline.BrainBehaviorModel.Fit | model_pipeline.py:120-129 | `ValueError`, with nothing changed, before `build_model`; otherwise the estimator is fitted; a missing `coef_`, or `tolist()` on a plain-float `intercept_` (what `fit_intercept=False` leaves), raises `AttributeError` and leaves the results; else the results hold the coefficients and the intercept's values, `None` exactly when there is no `intercept_` |
| ModelPipeline.BrainBehaviorModel.Evaluate | model_pipeline.py:152-157 | `ValueError` without a model; `AttributeError` for an estimator class without `predict`, fitted or not; otherwise `NotFittedError` if the model was never fitted, and the score once it was |
| ModelPipeline.BrainBehaviorModel.SaveResults | model_pipeline.py:159-171 | `AttributeError` without `coef_`, whatever the data type; `ValueError` exactly when `coef_` is read and the type is neither `"nifti"` nor `"cifti"`, `None` included; otherwise the NIfTI or CIFTI save promises below for the coefficients |
| ModelPipeline.BrainBehaviorModel.SaveNifti | model_pipeline.py:173-201 | a missing template raises `FileNotFoundError`; at voxel level the image is written exactly when the sizes match, with the template's shape and metadata, and flattening it gives the coefficients back; at ROI level `IndexError` below 180 coefficients, else each location holds its region's coefficient or 0; other levels write nothing |
| ModelPipeline.BrainBehaviorModel.SaveCifti | model_pipeline.py:203-221 | a missing template raises `FileNotFoundError`; at voxel level the CIFTI image holds the coefficients as one column, in order, with the template's headers; other levels write nothing |
| ModelPipeline.RoiBroadcast | model_pipeline.py:191-195 | the in-place loop over regions 1 to 180 yields the ROI image `RoiImage` |
| ModelPipeline.RoiImageAtRegion | model_pipeline.py:191-195 | the ROI image has the template's shape, and a location labelled `L` in 1..180 holds `betas[L-1]` |
| ModelPipeline.RoiImageElsewhere | model_pipeline.py:191-195 | every other location holds 0, and the image is well formed when the template is |
| ModelPipeline.RoiImageNeedsAllRegions | model_pipeline.py:194-195 | the broadcast fails with `IndexError` exactly when there are fewer than 180 coefficients |
| ModelPipeline.FitBeforeBuildScenario | model_pipeline.py:120-121 | fitting a fresh model raises `ValueError`, and `results` stays `None` |
| ModelPipeline.NullDataTypeScenario | model_pipeline.py:49-171 | a configuration with `"data_type": null` builds and fits, and `save_results` then raises the unsupported-file-type `ValueError` |
| ModelPipeline.NoPredictScenario | model_pipeline.py:152-157 | a `PCA`, defined only in `decomposition` and without `predict`, raises `AttributeError` in `evaluate` both before and after `fit`, and its fit fails on `coef_` |
| ModelPipeline.NoInterceptFitScenario | model_pipeline.py:120-129 | `LinearRegression(fit_intercept=False)`: the estimator is fitted, `tolist()` on its float intercept raises `AttributeError`, and `results` stays `None` |
| ModelPipeline.VoxelLifecycleScenario | model_pipeline.py:25-186 | build, fit and voxel save of `LinearRegression(fit_intercept=True)`, in order, return the fitted coefficients and intercept, and write the coefficients in the template's shape |
| BbaModelPipeline.BrainBehaviorModel.constructor | bba/model_pipeline.py:10-15 | both fields start as `None` |
| BbaModelPipeline.BrainBehaviorModel.BuildModel | bba/model_pipeline.py:31-49 | the `KeyError` order is `model_name`, then `parameters`; a `null` model name raises `TypeError` and `null` parameters `AttributeError`; the model is replaced only when its class is found and the parameters are a dictionary, built from the filtered parameters |
| BbaModelPipeline.BrainBehaviorModel.Fit | bba/model_pipeline.py:73-82 | `ValueError` before `build_model`; otherwise a missing `coef_` or a plain-float `intercept_` raises `AttributeError` and leaves the results; else the results hold the coefficients, and the intercept is `None` exactly when there is no `intercept_` |
| BbaModelPipeline.BrainBehaviorModel.Evaluate | bba/model_pipeline.py:105-110 | only a missing model is refused by the guard; an estimator class without `predict` raises `AttributeError`; one with it fails with `NotFittedError` when unfitted and gives the score when fitted |
| BbaModelPipeline.BrainBehaviorModel.SaveResults | bba/model_pipeline.py:128-141 | without results, `ValueError` and nothing read; with results a failing `coef_` read is the estimator's, never a missing model; a missing template raises `FileNotFoundError`; otherwise the CIFTI file at the output path holds the coefficients as one untransposed row, in order, with the template's metadata |
| BbaModelPipeline.EvaluateUnfittedScenario | bba/model_pipeline.py:105-108 | a model built but never fitted passes the guard, then fails with `NotFittedError` |
| BbaModelPipeline.SaveBeforeFitScenario | bba/model_pipeline.py:128-129 | saving right after building raises `ValueError` |

## Left out

- File I/O is not modelled: `pd.read_csv`, `nib.load`, `get_fdata`, `nib.save`, `np.save`, `np.load` and `to_csv`. File contents and existence come in as values, whether a read raises comes in as a `Result`, and a written image is returned as a value.
- Printed messages are not modelled as text. Where the source's behaviour is to print, they are returned as diagnostics or report values; elsewhere (`Model built`, `Model has been fitted.`) they are dropped.
- sklearn is not modelled: `fit`, `predict`, `r2_score`, and `importlib`/`getattr`. Instead:
  - what fitting leaves on the estimator is an input;
  - the R² score is an input;
  - whether a submodule defines a class, and whether that class has a `predict` method, are predicates supplied by the caller.
- ModelLookup.Fitted: whether sklearn leaves `intercept_` as an array or as the plain float of `fit_intercept=False` is an input; the model does not derive it from the estimator's parameters.
- ModelLookup.Config: each key is absent, `null` or a value of the expected kind (a string, or a dictionary for `parameters`). JSON values of other kinds are not modelled, such as a number as `model_name` (also a `TypeError` in `getattr`) or a list as `parameters`.
- NdArrays.FileImage: a GIFTI data array is modelled as one-dimensional, so `np.hstack` at check_brain_data.py:143 joins vectors end to end. The joining of two-dimensional data arrays along their second axis is not modelled, and the corrected GIFTI entry of prepare_input_data.py is always a vector.
- Subject identifiers of other kinds are not modelled: a `subject` column of strings or floats, or ids with leading zeros. HcpMyelin.MyelinPathInjective relies on ids being written as plain decimal digits.
- A `TypeError` from passing a parameter the estimator does not accept is not modelled.
- Floating point is not modelled; values are reals, so the model makes no claim about rounding in the ROI means.
- NaN labels and NaN cells are not modelled.
- Only single-target fits are modelled: `coef_` is one row of coefficients (a single-target fit). The multi-target 2-D `coef_`, and numpy broadcasting of a length-1 row in `betas[roi_id - 1]`, are not modelled.
- ModelPipeline.BrainBehaviorModel.SaveCifti: the voxel-level image data is `coef_.T` as a column. CIFTI axis metadata is not checked against its shape.
- RoiLevel.RoiLevelData: the brain matrix is taken as two-dimensional with rows of equal width. `np.load` of an array of another rank is not modelled.
- BbaModelPipeline.BrainBehaviorModel.SaveResults: the `"coefficients" not in self.results` test is omitted. `fit` always stores that key, so the test never fires.
- PathStrings.Lower: lowers ASCII letters only; Unicode case mapping for the `.csv` test is not modelled.
- The module-level scripts with fixed `/nfs` paths are not modelled. They are the check-and-concatenate calls at the end of check_brain_data.py, check_read_brain_data.py, check_read_brain_data_241114.py and the two behaviour scripts.
- config.py (loading and a key test), bba/model_runner.py, bba/config_generator.py, run_example.py, test_run.py and `__init__.py` are not part of this model. They hold drivers, re-exports, and estimator listing through sklearn.
- The commented-out preprocessing code and the old `save_results` of model_pipeline.py are not part of this model.

## Findings

| source | as written | input that shows it | evidently intended | confidence | as-written member | corrected member |
|---|---|---|---|---|---|---|
| check_brain_data.py:117-138 | the format key is `os.path.splitext(path)[1]`, the last suffix only, yet the NIfTI branch tests for `'.nii.gz'` | a manifest whose paths all end in `.nii.gz`: the only format is `.gz`, so the first subject with a file raises the unsupported-format `ValueError` | `.nii.gz` files take the NIfTI branch, so the key must keep the compound suffix | not executed | CheckBrainData.GzManifestIsRejected | CheckBrainData.GzManifestIntended |
| prepare_input_data.py:56-65 | a path matching none of the suffixes assigns nothing to `brain_data`, yet the row is still appended | rows `(1, "a.nii")`, `(2, "b.txt")`: subject 2's row holds subject 1's data; an unmatched first row raises `UnboundLocalError` | an unsupported suffix is refused, so that row `i` of the matrix is manifest row `i`'s own file | not executed | PrepareInput.StaleDataScenario | PrepareInput.ManifestRowsStack |
| prepare_input_data.py:58-63 | the GIFTI branch keeps `nib.load(path).darrays[0]`, a data array object and not a numpy array, and line 63 reads its `ndim` | any manifest row ending in `.func.gii` whose file has a data array: nibabel's `GiftiDataArray` has `dims` and `data` but no `ndim`, so `AttributeError` is raised | the branch reads the array's `.data`, as check_brain_data.py does, and the row is flattened and stacked | not executed; rests on nibabel's `GiftiDataArray` attributes | PrepareInput.GiftiRowRaises | PrepareInput.ManifestRowsStack |
| prepare_input_data.py:74-115 | the table is written to `output_csv_path`, a name that exists only in the docstring; the parameter is `output_file_path` | any atlas whose labels stay within the matrix: the means are computed, and then `NameError` is raised | the table is written to `output_file_path` | not executed | RoiLevel.TransformAnalysisLevel | RoiLevel.TransformAnalysisLevelFixed |
