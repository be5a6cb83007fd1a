/**
 * `Minx.Xslt.Transformer`: the earlier copy of the transformer wrapper. It
 * differs from the Infrastructure one in four ways: `OutputSettings` before a
 * `Load` throws MethodCallRequiredException; a `FileInfo` is loaded by its
 * `ToString()`, the path it was built from; the `XmlWriter` overloads always
 * resolve document() with the settings' resolver; and the Stream, TextWriter
 * and StringBuilder overloads wrap the sink in a writer built from the
 * stylesheet's output settings and delegate to the `XmlWriter` overload.
 * There is no URI input. Minx's settings classes are textually those of the
 * Infrastructure assembly and are modelled by the same definitions.
 */
module MinxTransformer {
  import opened Common
  import opened HostXml
  import opened XslSettings
  import opened XslReadOnlySettings
  import opened XslArguments
  import opened MinxArguments
  import opened MinxExceptions

  /** What each overload hands to `XslCompiledTransform.Load`; a file is loaded by the path it was built from. */
  function LoadArgument(source: StylesheetSource): StylesheetInput
    requires !(source.FileSource? && source.file.None?)
  {
    match source
    case NavigableSource(document) => NavigableStylesheet(document)
    case FileSource(file) => UriStylesheet(Some(file.value.originalPath))
    case UriSource(uri) => UriStylesheet(uri)
    case ReaderSource(reader) => ReaderStylesheet(CallerReader(reader))
    case StreamSource(stream) => ReaderStylesheet(ReaderOverStream(stream))
  }

  /** The exception `OutputSettings` throws before any `Load`: `Method` is "Load". */
  function LoadRequired(): (e: Exception)
    ensures e.MethodCallRequired? && e.methodName == Some("Load")
  {
    WithMessage(Some("Load"), Some("Method Load must be called before accessing property OutputSettings"))
  }

  class Transformer {
    /** The protected `transformer` field: null until the first `Load`, replaced by every `Load`. */
    var transformer: CompiledTransform?
    /** `Settings`, assigned once by the constructor. */
    const settings: ReadOnlyTransformerSettings

    /** Every transformer wraps a view over a real settings object. */
    ghost predicate Valid()
    {
      settings.target != null
    }

    constructor Wrap(settings: ReadOnlyTransformerSettings)
      requires settings.target != null
      ensures this.settings == settings && transformer == null && Valid()
    {
      this.settings := settings;
      transformer := null;
    }

    /**
     * The constructor: default settings when none are given, then the
     * resolver written back through the virtual setter (kept, or a new
     * `XmlUrlResolver` when null), so a read-only view passed in throws.
     */
    static method Create(settings: Option<AnySettings>) returns (r: Result<Transformer>)
      modifies if settings.Some? then Writable(settings.value) else {}
      ensures settings.Some? && settings.value.ReadOnly? && settings.value.view.target == null ==>
        r == Failure(NullReference)
      ensures settings.Some? && settings.value.ReadOnly? && settings.value.view.target != null ==>
        r == Failure(NotSupported(SetterMessage(Resolver)))
      ensures r.Success? ==> fresh(r.value) && r.value.Valid() && r.value.transformer == null
      ensures r.Success? ==> r.value.settings.target.resolver != null
      ensures settings.None? ==> r.Success? && fresh(r.value.settings.target)
      ensures settings.None? ==> var t := r.value.settings.target;
        !t.enableDocumentFunction && !t.enableScript && !t.enableDebug && t.resolver.isUrlResolver
      ensures settings.Some? && settings.value.Plain? ==> var t := settings.value.settings;
        && r.Success?
        && r.value.settings.target == t
        && t.enableDocumentFunction == old(t.enableDocumentFunction)
        && t.enableScript == old(t.enableScript)
        && t.enableDebug == old(t.enableDebug)
        && (old(t.resolver) != null ==> t.resolver == old(t.resolver))
        && (old(t.resolver) == null ==> fresh(t.resolver) && t.resolver.isUrlResolver)
    {
      var s: AnySettings;
      if settings.None? {
        var created := new TransformerSettings.Default();
        s := Plain(created);
      } else {
        s := settings.value;
      }
      var current := Get(s, Resolver);
      if current.Failure? {
        return Failure(current.error);
      }
      var resolver := current.value.resolver;
      if resolver == null {
        resolver := new XmlResolver.UrlResolver();
      }
      label BeforeSet:
      var err := Set(s, Resolver, ResolverValue(resolver));
      if err.Some? {
        return Failure(err.value);
      }
      var plain := s.settings;
      assert Get(s, EnableDocumentFunction) == old@BeforeSet(Get(s, EnableDocumentFunction));
      assert Get(s, EnableScript) == old@BeforeSet(Get(s, EnableScript));
      assert Get(s, EnableDebug) == old@BeforeSet(Get(s, EnableDebug));
      assert plain.resolver == resolver;
      var view := new ReadOnlyTransformerSettings(Some(s));
      var t := new Transformer.Wrap(view);
      return Success(t);
    }

    /**
     * `OutputSettings`: MethodCallRequiredException naming `Load` before any
     * `Load`; after one, the compiled stylesheet's output settings.
     */
    function OutputSettings(): (r: Result<XmlWriterSettings?>)
      reads this, transformer
      ensures r.Failure? <==> transformer == null
      ensures r.Failure? ==> r.error.MethodCallRequired? && r.error.methodName == Some("Load")
      ensures r.Success? ==> r.value == transformer.outputSettings
    {
      if transformer == null then Failure(LoadRequired())
      else Success(transformer.outputSettings)
    }

    /**
     * Every `Load` overload: a new compiled transform with the current debug
     * flag, loaded with the current document() and script flags and resolver.
     * A null `FileInfo` throws NullReferenceException after the new, unloaded
     * transform has replaced the old one.
     */
    method Load(source: StylesheetSource, outcome: CompileOutcome) returns (err: Outcome)
      requires Valid()
      modifies this
      ensures Valid() && fresh(transformer) && transformer.enableDebug == settings.target.enableDebug
      ensures source.FileSource? && source.file.None? ==>
        err == Some(NullReference) && transformer.lastLoad == None && transformer.outputSettings == null
      ensures !(source.FileSource? && source.file.None?) ==>
        && transformer.lastLoad == Some(LoadCall(
             LoadArgument(source),
             XsltSettings(settings.target.enableDocumentFunction, settings.target.enableScript),
             settings.target.resolver))
        && (outcome.Compiles? ==> err == None && OutputSettings() == Success(outcome.output))
        && (outcome.CompileError? ==> err == Some(XsltError(outcome.message)) && OutputSettings() == Success(null))
    {
      var t := settings.target;
      transformer := new CompiledTransform(t.enableDebug);
      if source.FileSource? && source.file.None? {
        return Some(NullReference);
      }
      err := transformer.Load(LoadArgument(source), XsltSettings(t.enableDocumentFunction, t.enableScript), t.resolver, outcome);
    }

    /**
     * The two `XmlWriter` overloads: the argument list when arguments are
     * given, then the call with the settings' resolver for document(); a
     * transformer never loaded throws NullReferenceException.
     */
    method TransformToWriter(input: TransformInput, writer: XmlWriterRef, arguments: MinxArguments.TransformArguments?)
      returns (r: Result<TransformCall>)
      requires Valid() && !input.UriInput?
      ensures r.Failure? <==> transformer == null || (arguments != null && null in arguments.functionProviders)
      ensures r.Failure? ==> r.error == NullReference
      ensures r.Success? ==>
        && r.value == TransformCall(transformer, input, r.value.arguments, ToXmlWriter(writer), Passed(settings.target.resolver))
        && (arguments == null <==> r.value.arguments.None?)
        && (arguments != null ==>
              DescribesArguments(r.value.arguments.value, arguments.parameters.parameters, arguments.functionProviders))
    {
      var list: Option<ArgumentList> := None;
      if arguments != null {
        var built := arguments.CreateArguments();
        if built.Failure? {
          return Failure(built.error);
        }
        list := Some(built.value);
      }
      if transformer == null {
        return Failure(NullReference);
      }
      return Success(TransformCall(transformer, input, list, ToXmlWriter(writer), Passed(settings.target.resolver)));
    }

    /**
     * The six Stream, TextWriter and StringBuilder overloads: a writer over
     * the sink built with the compiled stylesheet's output settings (a
     * transformer never loaded throws NullReferenceException before anything
     * else), then the `XmlWriter` overload with the same input and arguments.
     */
    method TransformToSink(input: TransformInput, sink: Sink, arguments: MinxArguments.TransformArguments?)
      returns (r: Result<TransformCall>)
      requires Valid() && !input.UriInput?
      ensures transformer == null ==> r == Failure(NullReference)
      ensures transformer != null ==> (r.Failure? <==> arguments != null && null in arguments.functionProviders)
      ensures r.Failure? ==> r.error == NullReference
      ensures r.Success? ==>
        && r.value == TransformCall(transformer, input, r.value.arguments,
             ToXmlWriter(CreatedWriter(sink, transformer.outputSettings)), Passed(settings.target.resolver))
        && (arguments == null <==> r.value.arguments.None?)
        && (arguments != null ==>
              DescribesArguments(r.value.arguments.value, arguments.parameters.parameters, arguments.functionProviders))
    {
      if transformer == null {
        return Failure(NullReference);
      }
      var writer := CreatedWriter(sink, transformer.outputSettings);
      r := TransformToWriter(input, writer, arguments);
    }
  }

  /** After a `Load` that compiles, a sink overload writes through a writer carrying the stylesheet's xsl:output settings. */
  method SinkUsesOutputSettings(t: Transformer, stylesheet: StylesheetSource, output: XmlWriterSettings, input: TransformInput, sink: Sink)
    returns (r: Result<TransformCall>)
    requires t.Valid() && !input.UriInput? && !(stylesheet.FileSource? && stylesheet.file.None?)
    modifies t
    ensures r.Success? && r.value.output == ToXmlWriter(CreatedWriter(sink, output))
    ensures r.value.documentResolver == Passed(t.settings.target.resolver) && r.value.arguments.None?
  {
    var err := t.Load(stylesheet, Compiles(output));
    r := t.TransformToSink(input, sink, null);
  }
}
