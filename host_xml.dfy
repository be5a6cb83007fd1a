/**
 * The parts of the platform's XML stack that the wrappers call into. They are
 * opaque handles: each records the arguments it was built or called with, and
 * nothing of XSLT compilation, XPath or serialization is modelled.
 */
module HostXml {
  import opened Common

  /** A runtime type (`System.Type`), compared by reference as `==` on `Type` does. */
  class SystemType {
    const fullName: string

    constructor (fullName: string)
      ensures this.fullName == fullName
    {
      this.fullName := fullName;
    }
  }

  /** An object a caller passes in and the model never looks into: a document, reader, writer or stream. */
  datatype Handle = Handle(id: nat)

  /** `System.Xml.XmlResolver`; `isUrlResolver` marks a `new XmlUrlResolver()`. */
  class XmlResolver {
    const isUrlResolver: bool

    constructor UrlResolver()
      ensures isUrlResolver
    {
      isUrlResolver := true;
    }

    constructor Custom()
      ensures !isUrlResolver
    {
      isUrlResolver := false;
    }
  }

  /**
   * An extension object, that is an implementer of `IXsltFunctionProvider`
   * (extension functions, section 14.2 of XSLT 1.0): its `NamespaceUri` and
   * its runtime type (`GetType()`).
   */
  class FunctionProvider {
    const namespaceUri: string
    const runtimeType: SystemType

    constructor (namespaceUri: string, runtimeType: SystemType)
      ensures this.namespaceUri == namespaceUri && this.runtimeType == runtimeType
    {
      this.namespaceUri := namespaceUri;
      this.runtimeType := runtimeType;
    }
  }

  /** The values an `XsltArgumentList` accepts as a parameter, one kind per `ParameterCollection.Add` overload. */
  datatype ParameterValue =
    | StringValue(s: NString)
    | BoolValue(b: bool)
    | IntValue(i: int32)
    | DoubleValue(bits: bv64)                          // an IEEE double, kept as its bit pattern
    | NavigatorsValue(navigators: Option<seq<Handle>>) // XPathNavigator[]
    | IteratorValue(nodeIterator: Option<Handle>)      // XPathNodeIterator

  /** One `XsltArgumentList.AddParam(name, namespaceUri, value)` call: a top-level xsl:param (section 11.4 of XSLT 1.0). */
  datatype Param = Param(name: string, namespaceUri: string, value: ParameterValue)

  /** One `XsltArgumentList.AddExtensionObject(namespaceUri, provider)` call. */
  datatype Extension = Extension(namespaceUri: string, provider: FunctionProvider)

  /** An `XsltArgumentList`, as the sequence of calls that populated it. */
  datatype ArgumentList = ArgumentList(params: seq<Param>, extensions: seq<Extension>)

  /** The `XmlWriterSettings` a compiled stylesheet derives from its xsl:output element (section 16 of XSLT 1.0). */
  class XmlWriterSettings {
    constructor ()
    {
    }
  }

  /** A reader over a stylesheet: one the caller supplied, or `XmlReader.Create(stream)`. */
  datatype XmlReaderRef = CallerReader(reader: Handle) | ReaderOverStream(stream: Handle)

  /** The three stylesheet arguments `XslCompiledTransform.Load` accepts. */
  datatype StylesheetInput =
    | NavigableStylesheet(document: Handle)
    | UriStylesheet(uri: NString)
    | ReaderStylesheet(reader: XmlReaderRef)

  /** `XsltSettings(enableDocumentFunction, enableScript)`. */
  datatype XsltSettings = XsltSettings(enableDocumentFunction: bool, enableScript: bool)

  /** The arguments of one `XslCompiledTransform.Load` call. */
  datatype LoadCall = LoadCall(stylesheet: StylesheetInput, settings: XsltSettings, resolver: XmlResolver?)

  /** A `FileInfo`: the path it was built from (what `ToString` returns) and its absolute `FullName`. */
  datatype FileInfo = FileInfo(originalPath: string, fullName: string)

  /** The argument of the five `Load` overloads of either transformer; a `FileInfo` may be null. */
  datatype StylesheetSource =
    | NavigableSource(document: Handle)
    | FileSource(file: Option<FileInfo>)
    | UriSource(uri: NString)
    | ReaderSource(reader: Handle)
    | StreamSource(stream: Handle)

  /** What the platform's stylesheet compiler makes of a stylesheet: it stands for the compilation the model leaves out. */
  datatype CompileOutcome = Compiles(output: XmlWriterSettings) | CompileError(message: string)

  /**
   * `XslCompiledTransform`: built with a debug flag, then loaded. Until a load
   * compiles, `outputSettings` is null, as the platform's property is.
   */
  class CompiledTransform {
    const enableDebug: bool
    var lastLoad: Option<LoadCall>
    var outputSettings: XmlWriterSettings?

    constructor (enableDebug: bool)
      ensures this.enableDebug == enableDebug
      ensures lastLoad == None && outputSettings == null
    {
      this.enableDebug := enableDebug;
      lastLoad := None;
      outputSettings := null;
    }

    method Load(stylesheet: StylesheetInput, settings: XsltSettings, resolver: XmlResolver?, outcome: CompileOutcome)
      returns (err: Outcome)
      modifies this
      ensures lastLoad == Some(LoadCall(stylesheet, settings, resolver))
      ensures outcome.Compiles? ==> err == None && outputSettings == outcome.output
      ensures outcome.CompileError? ==> err == Some(XsltError(outcome.message)) && outputSettings == null
    {
      lastLoad := Some(LoadCall(stylesheet, settings, resolver));
      match outcome
      case Compiles(output) =>
        outputSettings := output;
        err := None;
      case CompileError(message) =>
        outputSettings := null;
        err := Some(XsltError(message));
    }
  }

  /** The document a transform reads: `IXPathNavigable`, `XmlReader` or a URI. */
  datatype TransformInput = NavigableInput(document: Handle) | ReaderInput(reader: Handle) | UriInput(uri: NString)

  /** A `Stream`, `TextWriter` or `StringBuilder` that output goes to. */
  datatype Sink = StreamSink(stream: Handle) | TextWriterSink(textWriter: Handle) | StringBuilderSink(builder: Handle)

  /** An `XmlWriter`: one the caller supplied, or `XmlWriter.Create(sink, settings)`. */
  datatype XmlWriterRef = CallerWriter(writer: Handle) | CreatedWriter(sink: Sink, settings: XmlWriterSettings?)

  /** The output argument of `XslCompiledTransform.Transform`. */
  datatype TransformOutput = ToXmlWriter(writer: XmlWriterRef) | ToTextWriter(textWriter: Handle) | ToStream(stream: Handle)

  /**
   * The resolver for the XSLT document() function (section 12.1 of XSLT 1.0):
   * passed explicitly, or left to the platform by an overload without one.
   */
  datatype ResolverChoice = PlatformDefault | Passed(resolver: XmlResolver?)

  /** The arguments of one `XslCompiledTransform.Transform` call. */
  datatype TransformCall = TransformCall(
    transform: CompiledTransform,
    input: TransformInput,
    arguments: Option<ArgumentList>,
    output: TransformOutput,
    documentResolver: ResolverChoice)
}
