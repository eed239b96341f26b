/** Optional values, the failures of version resolution, and the result types
    that carry them in place of the source's exceptions and process exits. */
module Outcomes {

  datatype Option<T> = None | Some(value: T) {
    /** The value, or `default` when there is none (Python's `x or default`). */
    function GetOr(default: T): T {
      match this
      case Some(v) => v
      case None => default
    }
  }

  /** Every way a resolution can abort. */
  datatype Error =
    /** A string that `parse_version_parts` cannot read as `[v|V]?major.minor.patch`. */
    | NotSemanticVersion(text: string)
    /** A `version-bump` token that is not the name of a `VersionPart` member. */
    | UnknownVersionPart(token: string)
    /** `git fetch` wrote to its error stream (the stripped text is kept). */
    | FetchFailed(stderr: string)
    /** `git describe` failed for another reason than "no tags" and there is
        no fallback version, so the describe line is never bound. */
    | DescribeFailedWithoutFallback
    /** The describe line does not match the tag pattern. */
    | UnparseableTag(line: string)
    /** The most recent tag reads as 0.0.0. */
    | ZeroTag

  datatype Result<T> = Ok(value: T) | Err(error: Error)

  /** The result of a step that only changes state. */
  datatype Outcome = Pass | Fail(error: Error)
}
