/** Path expressions as a task declares them, how DeferredUtil.unpack unwraps them, and the
    FileResolver capability that turns them into files. */
module Paths {
  import opened Wrappers

  /** The concrete value a path expression stands for (a string, a File, ...), by its text. */
  type PathValue = string

  /** A path expression: either given eagerly (possibly null) or produced by a
      zero-argument computation that is only run when it is unpacked. */
  datatype PathExpr =
    | Literal(value: Option<PathValue>)
    | Deferred(producer: () -> Option<PathValue>)

  /** DeferredUtil.unpack: run the computation of a deferred expression, return a literal as it is.
      None stands for Java's null. */
  function Unpack(p: PathExpr): (v: Option<PathValue>)
  {
    match p
    case Literal(v) => v
    case Deferred(produce) => produce()
  }

  /** A concrete filesystem location. */
  datatype File = File(location: string)

  /** The FileResolver capability: it resolves the path expression as given (not unpacked)
      and may throw for an expression it cannot handle. */
  type FileResolver = PathExpr -> Result<File, Exception>
}
