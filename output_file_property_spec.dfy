/** DefaultCacheableTaskOutputFilePropertySpec: the declaration of one output file or
    directory of a task, immutable once built except for the optional flag it inherits. */
module OutputFileProperty {
  import opened Wrappers
  import opened Paths
  import opened TaskValidation

  /** Whether the output is a single file or a directory. */
  datatype OutputType = FileOutput | DirectoryOutput

  /** The TaskPropertyFileCollection a spec builds at construction: the task's name, the role
      of the property, the spec it belongs to, its resolver and its path expression. */
  datatype TaskPropertyFileCollection = TaskPropertyFileCollection(
    taskName: string,
    role: string,
    owner: DefaultCacheableTaskOutputFilePropertySpec?,
    resolver: FileResolver,
    path: PathExpr)

  /** What TaskPropertyFileCollection.validate(optional, type, messages) does against the
      filesystem: the messages it appends and the exception it may throw. */
  type CollectionValidation = (TaskPropertyFileCollection, bool, OutputType) -> ValidationStep

  class DefaultCacheableTaskOutputFilePropertySpec {
    /** The name of the owning task, as the collection was given it. */
    ghost const taskName: string
    const resolver: FileResolver
    const outputType: OutputType
    const path: PathExpr
    /** Built once by the constructor; it refers back to this spec, so it is assigned after
        the object exists, and nothing assigns it again. */
    var files: TaskPropertyFileCollection
    /** The optional flag kept by the base class; false until it is set. */
    var optional: bool

    constructor (taskName: string, resolver: FileResolver, outputType: OutputType, path: PathExpr)
      ensures this.resolver == resolver && this.outputType == outputType && this.path == path
      ensures DeclaredOutputType() == outputType
      ensures Valid() && files == TaskPropertyFileCollection(taskName, "output", this, resolver, path)
      ensures !optional
    {
      this.taskName := taskName;
      this.resolver := resolver;
      this.outputType := outputType;
      this.path := path;
      this.optional := false;
      this.files := TaskPropertyFileCollection(taskName, "output", null, resolver, path);
      new;
      this.files := files.(owner := this);
    }

    /** The collection the spec holds is the one the constructor built: an output collection
        of this very spec, for its task, over the spec's own resolver and path. */
    ghost predicate Valid()
      reads this
    {
      files == TaskPropertyFileCollection(taskName, "output", this, resolver, path)
    }

    /** getPropertyFiles: the collection built at construction. */
    function PropertyFiles(): (r: TaskPropertyFileCollection)
      requires Valid()
      reads this
      ensures r.taskName == taskName && r.role == "output" && r.owner == this
      ensures r.resolver == resolver && r.path == path
    {
      files
    }

    /** getOutputType: the type given to the constructor. */
    function DeclaredOutputType(): OutputType
    {
      outputType
    }

    /** getOutputFile: no file (Ok(None)) exactly when the unpacked path is null and the
        property is optional; otherwise whatever the resolver makes of the original path,
        including its exception. */
    function OutputFile(): (r: Result<Option<File>, Exception>)
      reads this
      ensures r == Ok(None) <==> Unpack(path).None? && optional
      ensures !(Unpack(path).None? && optional) ==>
                (r.Ok? <==> resolver(path).Ok?) &&
                (r.Ok? ==> r.value == Some(resolver(path).value)) &&
                (r.Err? ==> r.error == resolver(path).error)
    {
      if Unpack(path).None? && optional then
        Ok(None)
      else
        match resolver(path)
        case Ok(file) => Ok(Some(file))
        case Err(e) => Err(e)
    }

    /** validate(messages): hands the current optional flag and the stored output type to the
        file collection, which appends to the caller's messages; the spec itself is untouched. */
    method Validate(messages: MessageList, check: CollectionValidation) returns (thrown: Option<Exception>)
      modifies messages
      ensures messages.items == old(messages.items) + check(files, optional, outputType).appended
      ensures thrown == check(files, optional, outputType).thrown
    {
      var step := check(files, optional, outputType);
      messages.items := messages.items + step.appended;
      thrown := step.thrown;
    }

    /** The base class's optional(boolean) setter; it changes the flag and nothing else. */
    method SetOptional(optional: bool)
      modifies this`optional
      ensures this.optional == optional
      ensures Valid() == old(Valid())
    {
      this.optional := optional;
    }
  }

  /** Whatever is done to a spec through its own operations, its output type stays the one it
      was built with. */
  method OutputTypeIsFixed(taskName: string, resolver: FileResolver, outputType: OutputType, path: PathExpr,
                           optional: bool, check: CollectionValidation)
    returns (declared: OutputType)
    ensures declared == outputType
  {
    var spec := new DefaultCacheableTaskOutputFilePropertySpec(taskName, resolver, outputType, path);
    spec.SetOptional(optional);
    var messages := new MessageList();
    var _ := spec.Validate(messages, check);
    var _ := spec.OutputFile();
    declared := spec.DeclaredOutputType();
  }

  /** A spec fresh from its constructor is required, so its output file is always what the
      resolver makes of the path, even when the path unpacks to null. */
  method RequiredOutputIsResolved(taskName: string, resolver: FileResolver, outputType: OutputType)
    returns (file: Result<Option<File>, Exception>)
    ensures resolver(Literal(None)).Ok? ==> file == Ok(Some(resolver(Literal(None)).value))
    ensures resolver(Literal(None)).Err? ==> file == Err(resolver(Literal(None)).error)
  {
    var spec := new DefaultCacheableTaskOutputFilePropertySpec(taskName, resolver, outputType, Literal(None));
    file := spec.OutputFile();
  }
}
