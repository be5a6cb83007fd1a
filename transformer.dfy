/**
 * `Infrastructure.Xml.Xsl.Transformer`: a wrapper around the platform's
 * compiled stylesheet. It fixes a resolver into the caller's settings, keeps
 * a read-only view of them, rebuilds the compiled stylesheet on every `Load`,
 * and forwards each `Transform` overload with the argument list built from a
 * `TransformArguments`.
 */
module XslTransformer {
  import opened Common
  import opened HostXml
  import opened XslSettings
  import opened XslReadOnlySettings
  import opened XslArguments

  /** What each overload hands to `XslCompiledTransform.Load`; a file is loaded by its full name. */
  function LoadArgument(source: StylesheetSource): StylesheetInput
    requires !(source.FileSource? && source.file.None?)
  {
    match source
    case NavigableSource(document) => NavigableStylesheet(document)
    case FileSource(file) => UriStylesheet(Some(file.value.fullName))
    case UriSource(uri) => UriStylesheet(uri)
    case ReaderSource(reader) => ReaderStylesheet(CallerReader(reader))
    case StreamSource(stream) => ReaderStylesheet(ReaderOverStream(stream))
  }

  /** Only the overloads writing to an `XmlWriter` from a navigable or reader input take a document resolver. */
  predicate TakesDocumentResolver(input: TransformInput, output: TransformOutput)
  {
    output.ToXmlWriter? && !input.UriInput?
  }

  /** The message of the InvalidOperationException `OutputSettings` throws before any `Load`. */
  const LoadRequiredMessage: string := "An overload of method 'Load' must be called before accessing property 'OutputSettings'"

  class Transformer {
    /** `_transformer`: null until the first `Load`, replaced by every `Load`. */
    var transformer: CompiledTransform?
    /** `_settings`, the read-only view that `Settings` exposes. */
    const settings: ReadOnlyTransformerSettings

    /** Every transformer wraps a view over a real settings object. */
    ghost predicate Valid()
    {
      settings.target != null
    }

    constructor Wrap(settings: ReadOnlyTransformerSettings)
      requires settings.target != null
      ensures this.settings == settings && transformer == null && Valid()
    {
      this.settings := settings;
      transformer := null;
    }

    /**
     * The constructor. Without settings a default object is made. The
     * resolver is then assigned back as itself or, when null, a new
     * `XmlUrlResolver`, through the virtual setter: so a read-only view
     * passed in makes the constructor throw (NullReferenceException from the
     * getter when the view is over null, NotSupportedException from the
     * setter otherwise) and nothing changes. On success the transformer is
     * unloaded and its view reads the caller's own object.
     */
    static method Create(settings: Option<AnySettings>) returns (r: Result<Transformer>)
      modifies if settings.Some? then Writable(settings.value) else {}
      ensures settings.Some? && settings.value.ReadOnly? ==> r.Failure?
      ensures settings.Some? && settings.value.ReadOnly? && settings.value.view.target == null ==>
        r == Failure(NullReference)
      ensures settings.Some? && settings.value.ReadOnly? && settings.value.view.target != null ==>
        r == Failure(NotSupported(SetterMessage(Resolver)))
      ensures r.Success? ==> fresh(r.value) && r.value.Valid() && r.value.transformer == null
      ensures r.Success? ==> r.value.settings.target.resolver != null
      ensures settings.None? ==> r.Success? && fresh(r.value.settings.target)
      ensures settings.None? ==> var t := r.value.settings.target;
        !t.enableDocumentFunction && !t.enableScript && !t.enableDebug && t.resolver.isUrlResolver
      ensures settings.Some? && settings.value.Plain? ==> var t := settings.value.settings;
        && r.Success?
        && r.value.settings.target == t
        && t.enableDocumentFunction == old(t.enableDocumentFunction)
        && t.enableScript == old(t.enableScript)
        && t.enableDebug == old(t.enableDebug)
        && (old(t.resolver) != null ==> t.resolver == old(t.resolver))
        && (old(t.resolver) == null ==> fresh(t.resolver) && t.resolver.isUrlResolver)
    {
      var s: AnySettings;
      if settings.None? {
        var created := new TransformerSettings.Default();
        s := Plain(created);
      } else {
        s := settings.value;
      }
      var current := Get(s, Resolver);
      if current.Failure? {
        return Failure(current.error);
      }
      var resolver := current.value.resolver;
      if resolver == null {
        resolver := new XmlResolver.UrlResolver();
      }
      label BeforeSet:
      var err := Set(s, Resolver, ResolverValue(resolver));
      if err.Some? {
        return Failure(err.value);
      }
      var plain := s.settings;
      assert Get(s, EnableDocumentFunction) == old@BeforeSet(Get(s, EnableDocumentFunction));
      assert Get(s, EnableScript) == old@BeforeSet(Get(s, EnableScript));
      assert Get(s, EnableDebug) == old@BeforeSet(Get(s, EnableDebug));
      assert plain.resolver == resolver;
      var view := new ReadOnlyTransformerSettings(Some(s));
      var t := new Transformer.Wrap(view);
      return Success(t);
    }

    /**
     * `OutputSettings`: InvalidOperationException before any `Load`; after
     * one, the compiled stylesheet's output settings, which stay null when
     * that `Load` did not compile.
     */
    function OutputSettings(): (r: Result<XmlWriterSettings?>)
      reads this, transformer
      ensures r.Failure? <==> transformer == null
      ensures r.Failure? ==> r.error == InvalidOperation(LoadRequiredMessage)
      ensures r.Success? ==> r.value == transformer.outputSettings
    {
      if transformer == null then Failure(InvalidOperation(LoadRequiredMessage))
      else Success(transformer.outputSettings)
    }

    /**
     * Every `Load` overload: a new compiled transform with the current debug
     * flag, loaded with the current document() and script flags and resolver.
     * A null `FileInfo` throws NullReferenceException after the new, unloaded
     * transform has replaced the old one. `outcome` is what the platform's
     * compiler makes of the stylesheet.
     */
    method Load(source: StylesheetSource, outcome: CompileOutcome) returns (err: Outcome)
      requires Valid()
      modifies this
      ensures Valid() && fresh(transformer) && transformer.enableDebug == settings.target.enableDebug
      ensures source.FileSource? && source.file.None? ==>
        err == Some(NullReference) && transformer.lastLoad == None && transformer.outputSettings == null
      ensures !(source.FileSource? && source.file.None?) ==>
        && transformer.lastLoad == Some(LoadCall(
             LoadArgument(source),
             XsltSettings(settings.target.enableDocumentFunction, settings.target.enableScript),
             settings.target.resolver))
        && (outcome.Compiles? ==> err == None && OutputSettings() == Success(outcome.output))
        && (outcome.CompileError? ==> err == Some(XsltError(outcome.message)) && OutputSettings() == Success(null))
    {
      var t := settings.target;
      transformer := new CompiledTransform(t.enableDebug);
      if source.FileSource? && source.file.None? {
        return Some(NullReference);
      }
      err := transformer.Load(LoadArgument(source), XsltSettings(t.enableDocumentFunction, t.enableScript), t.resolver, outcome);
    }

    /**
     * Every `Transform` overload. The argument list is built first when
     * arguments are given; then a transformer never loaded throws
     * NullReferenceException. The two overloads writing to an `XmlWriter`
     * from a navigable or reader input pass the document resolver, or the
     * settings' resolver when it is null; the others leave the resolver to
     * the platform.
     */
    method Transform(input: TransformInput, output: TransformOutput, documentResolver: XmlResolver?, arguments: TransformArguments?)
      returns (r: Result<TransformCall>)
      requires Valid()
      requires documentResolver != null ==> TakesDocumentResolver(input, output)
      ensures r.Failure? <==> transformer == null || (arguments != null && null in arguments.functionProviders)
      ensures r.Failure? ==> r.error == NullReference
      ensures r.Success? ==>
        && r.value.transform == transformer
        && r.value.input == input
        && r.value.output == output
        && (arguments == null <==> r.value.arguments.None?)
        && (arguments != null ==>
              DescribesArguments(r.value.arguments.value, arguments.parameters.parameters, arguments.functionProviders))
        && r.value.documentResolver == (
             if !TakesDocumentResolver(input, output) then PlatformDefault
             else if documentResolver != null then Passed(documentResolver)
             else Passed(settings.target.resolver))
    {
      var list: Option<ArgumentList> := None;
      if arguments != null {
        var built := arguments.CreateArguments();
        if built.Failure? {
          return Failure(built.error);
        }
        list := Some(built.value);
      }
      if transformer == null {
        return Failure(NullReference);
      }
      var choice := PlatformDefault;
      if TakesDocumentResolver(input, output) {
        choice := Passed(if documentResolver != null then documentResolver else settings.target.resolver);
      }
      return Success(TransformCall(transformer, input, list, output, choice));
    }
  }

  /** A transformer built without settings enables nothing and resolves with a new `XmlUrlResolver`. */
  method DefaultTransformer() returns (t: Transformer)
    ensures fresh(t) && t.Valid() && t.transformer == null
    ensures !t.settings.target.enableDocumentFunction && !t.settings.target.enableScript && !t.settings.target.enableDebug
    ensures t.settings.target.resolver != null && t.settings.target.resolver.isUrlResolver
  {
    var r := Transformer.Create(None);
    t := r.value;
  }

  /** `OutputSettings` is refused until a `Load` and answered after any `Load`, compiled or not. */
  method LoadEnablesOutputSettings(t: Transformer, source: StylesheetSource, outcome: CompileOutcome)
    requires t.Valid() && t.transformer == null
    modifies t
    ensures old(t.OutputSettings()) == Failure(InvalidOperation(LoadRequiredMessage))
    ensures t.OutputSettings().Success?
  {
    var err := t.Load(source, outcome);
  }
}
