/**
 * `Infrastructure.Xml.Xsl.ReadOnlyTransformerSettings`: a live, read-only
 * view of another settings object. Each getter reads the wrapped object at
 * the time of the call; each setter throws NotSupportedException naming the
 * property. `AnySettings` stands for a `TransformerSettings` reference, whose
 * run-time class is either the plain settings or the read-only view, and the
 * `Get`/`Set` functions are the virtual property accessors dispatched on it.
 */
module XslReadOnlySettings {
  import opened Common
  import opened HostXml
  import opened XslSettings

  /** The four virtual properties of `TransformerSettings`. */
  datatype Property = EnableDocumentFunction | EnableScript | EnableDebug | Resolver

  /** A property value: one of the three flags, or the resolver. */
  datatype PropertyValue = Flag(b: bool) | ResolverValue(resolver: XmlResolver?)

  /** The C# name of a property, as the setters' messages spell it. */
  function PropertyName(p: Property): string
  {
    match p
    case EnableDocumentFunction => "EnableDocumentFunction"
    case EnableScript => "EnableScript"
    case EnableDebug => "EnableDebug"
    case Resolver => "Resolver"
  }

  /** The message of the NotSupportedException every read-only setter throws; it quotes the property's name. */
  function SetterMessage(p: Property): (m: string)
    ensures |m| == |PropertyName(p)| + 39 && m[21..|m| - 18] == PropertyName(p)
  {
    "Setting of property '" + PropertyName(p) + "' is not supported"
  }

  /** A value of the right kind for property `p`, as the C# type system guarantees. */
  predicate Fits(p: Property, v: PropertyValue)
  {
    p.Resolver? <==> v.ResolverValue?
  }

  class ReadOnlyTransformerSettings {
    /**
     * The plain settings object whose values this view reports. A view of a
     * view reads through to the same plain object, so it is kept directly;
     * null when the view was built over null.
     */
    const target: TransformerSettings?

    constructor (settings: Option<AnySettings>)
      ensures target == TargetOf(settings)
    {
      target := TargetOf(settings);
    }
  }

  /** A `TransformerSettings` reference and its run-time class. */
  datatype AnySettings = Plain(settings: TransformerSettings) | ReadOnly(view: ReadOnlyTransformerSettings)

  /** The plain object whose fields a getter on `s` ends up reading; null when a view over null is on the way. */
  function TargetOf(s: Option<AnySettings>): TransformerSettings?
  {
    match s
    case None => null
    case Some(Plain(settings)) => settings
    case Some(ReadOnly(view)) => view.target
  }

  /** The objects whose fields a getter on `s` reads. */
  function Footprint(s: AnySettings): set<object>
  {
    var t := TargetOf(Some(s));
    if t == null then {} else {t}
  }

  /** The objects a setter on `s` may change: the plain object, and nothing for a view. */
  function Writable(s: AnySettings): set<object>
  {
    if s.Plain? then {s.settings} else {}
  }

  /**
   * The getter of property `p` on `s`: the current value of the plain object
   * behind `s`, whether `s` is that object or a view of it, or
   * NullReferenceException for a view built over null.
   */
  function Get(s: AnySettings, p: Property): (r: Result<PropertyValue>)
    reads Footprint(s)
    ensures r.Failure? <==> TargetOf(Some(s)) == null
    ensures r.Failure? ==> r.error == NullReference && s.ReadOnly?
    ensures r.Success? ==> Fits(p, r.value)
  {
    var t := TargetOf(Some(s));
    if t == null then Failure(NullReference)
    else
      match p
      case EnableDocumentFunction => Success(Flag(t.enableDocumentFunction))
      case EnableScript => Success(Flag(t.enableScript))
      case EnableDebug => Success(Flag(t.enableDebug))
      case Resolver => Success(ResolverValue(t.resolver))
  }

  /**
   * The setter of property `p` on `s`: on the plain object it stores `v` in
   * that property alone; on a view it throws NotSupportedException naming the
   * property and changes nothing.
   */
  method Set(s: AnySettings, p: Property, v: PropertyValue) returns (err: Outcome)
    requires Fits(p, v)
    modifies Writable(s)
    ensures s.ReadOnly? ==> err == Some(NotSupported(SetterMessage(p)))
    ensures s.Plain? ==> err == None
    ensures s.Plain? ==> Get(s, p) == Success(v)
    ensures s.Plain? ==> forall q :: q != p ==> Get(s, q) == old(Get(s, q))
  {
    match s
    case ReadOnly(_) =>
      err := Some(NotSupported(SetterMessage(p)));
    case Plain(t) =>
      err := None;
      match p
      case EnableDocumentFunction => t.enableDocumentFunction := v.b;
      case EnableScript => t.enableScript := v.b;
      case EnableDebug => t.enableDebug := v.b;
      case Resolver => t.resolver := v.resolver;
  }

  /** A getter on a view answers exactly what the same getter on the wrapped object answers. */
  lemma ViewReadsThrough(view: ReadOnlyTransformerSettings, p: Property)
    requires view.target != null
    ensures Get(ReadOnly(view), p) == Get(Plain(view.target), p)
  {
  }

  /** A view built over a view reads the same plain object as the inner view. */
  lemma ViewOfViewReadsThrough(outer: ReadOnlyTransformerSettings, inner: ReadOnlyTransformerSettings, p: Property)
    requires outer.target == TargetOf(Some(ReadOnly(inner)))
    ensures Get(ReadOnly(outer), p) == Get(ReadOnly(inner), p)
  {
  }

  /** A view reports a change made through the plain object after the view was built. */
  method ViewIsLive(t: TransformerSettings, view: ReadOnlyTransformerSettings, p: Property, v: PropertyValue)
    requires view.target == t && Fits(p, v)
    modifies t
    ensures Get(ReadOnly(view), p) == Success(v)
  {
    var err := Set(Plain(t), p, v);
  }

  /** A setter on a view fails whatever the value, and every getter still answers as before. */
  method ViewRejectsWrites(view: ReadOnlyTransformerSettings, p: Property, v: PropertyValue) returns (err: Outcome)
    requires Fits(p, v)
    ensures err == Some(NotSupported(SetterMessage(p)))
    ensures forall q :: Get(ReadOnly(view), q) == old(Get(ReadOnly(view), q))
  {
    err := Set(ReadOnly(view), p, v);
  }

  /** The four setter messages are distinct, so each names its own property. */
  lemma SetterMessagesDistinct(p: Property, q: Property)
    ensures SetterMessage(p) == SetterMessage(q) ==> p == q
  {
    if SetterMessage(p) == SetterMessage(q) {
      assert PropertyName(p) == SetterMessage(p)[21..|SetterMessage(p)| - 18];
      assert PropertyName(q) == SetterMessage(q)[21..|SetterMessage(q)| - 18];
    }
  }
}
