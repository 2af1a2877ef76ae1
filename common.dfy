/** Shared vocabulary: optional values, results and the exceptions the scripts raise. */
module Common {

  datatype Option<T> = None | Some(value: T)

  /** Why a `ValueError` was raised. */
  datatype Reason =
    | MixedFormats
    | SubjectNotInManifest(subject: nat)
    | UnsupportedFormat(format: string)
    | NothingToConcatenate
    | ShapeMismatch
    | ZeroDimensional
    | ReshapeSize
    | ModelClassNotFound(name: string)
    | FitBeforeBuild
    | EvaluateBeforeFit
    | UnsupportedFileType
    | NoResultsToSave
    | MissingBehaviorValues

  /** The Python exceptions the modelled code raises (or lets through). */
  datatype Error =
    | ValueError(reason: Reason)
    | FileNotFoundError(path: string)
    | IndexError
    | NameError(name: string)
    | UnboundLocalError(name: string)
    | AttributeError(attribute: string)
    | NotFittedError
    | KeyError(key: string)
    | TypeError(operation: string)

  datatype Result<T> = Ok(value: T) | Err(error: Error)

  type Path = string

  /** Subject identifiers are non-negative integers, as in the HCP numbering. */
  type SubjectId = nat

  /** A cell value of a table or a model parameter. */
  datatype Value = Num(number: real) | Text(text: string) | Flag(flag: bool)
}
