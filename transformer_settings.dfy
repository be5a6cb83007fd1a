/**
 * `Infrastructure.Xml.Xsl.TransformerSettings`: the XSLT features a
 * transformer enables (the document() function of section 12.1 of XSLT 1.0,
 * embedded scripts, debugging) and the resolver for external resources.
 * Every property is a plain read-write auto-property.
 */
module XslSettings {
  import opened HostXml

  class TransformerSettings {
    var enableDocumentFunction: bool
    var enableScript: bool
    var enableDebug: bool
    var resolver: XmlResolver?

    /** The parameterless constructor: every flag off, no resolver. */
    constructor Default()
      ensures !enableDocumentFunction && !enableScript && !enableDebug && resolver == null
    {
      enableDocumentFunction := false;
      enableScript := false;
      enableDebug := false;
      resolver := null;
    }

    /** The four-argument constructor: each property takes its argument. */
    constructor (enableDocumentFunction: bool, enableScript: bool, enableDebug: bool, resolver: XmlResolver?)
      ensures this.enableDocumentFunction == enableDocumentFunction
      ensures this.enableScript == enableScript
      ensures this.enableDebug == enableDebug
      ensures this.resolver == resolver
    {
      this.enableDocumentFunction := enableDocumentFunction;
      this.enableScript := enableScript;
      this.enableDebug := enableDebug;
      this.resolver := resolver;
    }
  }
}
