# Infrastructure.Xml and Minx.Xslt in Dafny

This project models the logic that the Infrastructure.Xml and Minx.Xslt
assemblies wrap around the .NET XML serializer and XSLT engine. It also
models the `MathExtensions` extension object of the sample web application.
The platform objects involved are `XmlSerializer`, `XslCompiledTransform`,
`XsltArgumentList`, `XmlResolver`, readers, writers and streams. Each one is an
opaque handle that records what it was built or called with. Nothing of XSLT
compilation, XPath or serialization is modelled.

The model has these parts:

- `SerializerCache` (`xml_serializer_factory.dfy`) models `XmlSerializerFactory`.
  - It holds two get-or-create tables that never shrink. One is keyed by a
    type and a root override, compared field by field. The other is keyed by
    a type and a caller's cache key.
  - Each table is a `map` field that the `Create` overloads reassign. The
    root table is keyed by what the custom comparer looks at. A lemma shows
    that the comparer identifies exactly those keys. A root's `DataType`
    and `ElementName` are kept as their getters answer them, which is the
    empty string for a null value.
- `XslParameters` (`parameter_collection.dfy`) models `ParameterCollection`, a
  name-to-value dictionary of stylesheet parameters. These are top-level
  xsl:param elements, section 11.4 of XSLT 1.0.
- `ProviderGrouping` and `XslArguments` (`provider_grouping.dfy`,
  `transform_arguments.dfy`) model `TransformArguments`.
  - `CreateArguments` builds the argument list: every parameter under the
    empty namespace, and every extension object under its own namespace
    (extension functions, section 14.2 of XSLT 1.0).
  - The private `Normalize` drops nulls, groups extension objects by
    namespace and keeps the first of each group. It fails when one namespace
    is claimed by objects of different runtime types.
  - The LINQ pipeline inside `Normalize` (`Where`, `GroupBy`, `First`,
    `Select`, `Distinct`) is written as functions. These functions keep
    LINQ's order of first appearance. The method `Normalize` runs the
    source's loop over those groups.
- `XslSettings` and `XslReadOnlySettings` (`transformer_settings.dfy`,
  `readonly_transformer_settings.dfy`) model the settings and the read-only
  view.
  - The settings are a class with four mutable fields.
  - The read-only view's getters read the wrapped object when called. Its
    setters throw.
  - C# dispatches the virtual properties on the run-time class. `AnySettings`
    (plain settings or read-only view) with `Get` and `Set` models that
    dispatch.
- `XslTransformer` (`transformer.dfy`) models the Infrastructure `Transformer`.
  - The constructor writes the resolver back into the caller's settings.
  - `OutputSettings` is guarded until a `Load`, and each `Load` replaces the
    compiled transform.
  - Each `Transform` overload picks the resolver used by document() (section
    12.1 of XSLT 1.0).
- `MinxArguments`, `MinxExceptions` and `MinxTransformer`
  (`minx_transform_arguments.dfy`, `minx_method_call_required.dfy`,
  `minx_transformer.dfy`) model the Minx.Xslt copies of the transformer and
  the arguments, plus `MethodCallRequiredException` and its serialization
  round trip.
  - In Minx, `OutputSettings` before a `Load` throws this exception, naming
    `Load`.
  - The Stream, TextWriter and StringBuilder overloads wrap the sink in a
    writer built from the compiled stylesheet's output settings (xsl:output,
    section 16 of XSLT 1.0). They then delegate to the `XmlWriter` overload.
  - These overloads read the transformer's output settings directly, not
    through the guarded property. A transformer never loaded therefore throws
    NullReferenceException here, and the model keeps that.
- `MathFunctions` (`math_extensions.dfy`) models `MathExtensions`.
  - `Modulus` is C#'s `%` on `int`. It truncates toward zero, unlike Dafny's
    Euclidean `%`.
  - `GetRandomNumbers` returns `count` draws from the object's random
    generator. Which values are drawn is left open: only their range is
    stated.

`src/Minx.Xslt/TransformerSettings.cs` holds copies of the Infrastructure
settings classes that match them line for line: lines 12-69 for the settings
and lines 74-108 for the read-only view. Both assemblies share one model in
`XslSettings` and `XslReadOnlySettings`, and the table rows for those
modules apply to both files. In the same way, the body of `CreateArguments`
is the same in both assemblies and is modelled once, as
`XslArguments.BuildArguments`.

Exceptions are values of `Common.Exception`. An operation that can throw
returns a `Result` or an `Outcome`, and the exception it returns is the one
the source throws on that path. A C# `null` string or exception is
`Option.None`.

## Model

| member | source | states |
|---|---|---|
| SerializerCache.RootKeyEquals | src/Infrastructure.Xml/XmlSerializerFactory.cs:214-227 | every key equals itself, and equal keys have the same type and either both have a root or neither does |
| SerializerCache.RootKeyEqualsIffSameSignature | src/Infrastructure.Xml/XmlSerializerFactory.cs:214-227 | the root-key comparer holds exactly when the types match and either both roots are null or the roots agree on DataType, ElementName, IsNullable and Namespace |
| SerializerCache.RootKeyEqualsIsEquivalence | src/Infrastructure.Xml/XmlSerializerFactory.cs:214-227 | the root-key comparer is reflexive, symmetric and transitive, even across distinct root objects |
| SerializerCache.OverridesKeyEqualsIsEquivalence | src/Infrastructure.Xml/XmlSerializerFactory.cs:256-259 | the overrides-key comparer is key equality, hence reflexive, symmetric and transitive |
| SerializerCache.XmlSerializerFactory.constructor | src/Infrastructure.Xml/XmlSerializerFactory.cs:22-26 | both tables start empty |
| SerializerCache.XmlSerializerFactory.CreateFor | src/Infrastructure.Xml/XmlSerializerFactory.cs:33-37 | `Create<T>()` returns a fresh serializer for the type, without root or overrides, and touches no table |
| SerializerCache.XmlSerializerFactory.Create | src/Infrastructure.Xml/XmlSerializerFactory.cs:44-49 | a null type throws ArgumentNullException("t"); otherwise a fresh, uncached serializer for the type |
| SerializerCache.XmlSerializerFactory.CreateWithRoot | src/Infrastructure.Xml/XmlSerializerFactory.cs:76-86 | a null type throws and a null root falls back to the uncached path, both leaving the table unchanged; otherwise a hit returns the cached serializer and changes nothing, and a miss adds exactly one entry built with this root; the overrides table is never touched and no entry is ever removed |
| SerializerCache.XmlSerializerFactory.CreateForWithRoot | src/Infrastructure.Xml/XmlSerializerFactory.cs:61-64 | `Create<T>(root)` never fails, and with a root it returns the table's entry for that key |
| SerializerCache.XmlSerializerFactory.CreateWithOverrides | src/Infrastructure.Xml/XmlSerializerFactory.cs:121-133 | a null type throws; null overrides fall back to the uncached path whatever the key; overrides with a null key throw ArgumentNullException("cacheKey"); otherwise get-or-create under (type, key), with a hit changing nothing; the root table is never touched and no entry is ever removed |
| SerializerCache.XmlSerializerFactory.CreateForWithOverrides | src/Infrastructure.Xml/XmlSerializerFactory.cs:103-106 | `Create<T>(key, overrides)` fails exactly when overrides are given without a key; with overrides and a key it returns the table's entry for (type, key) |
| SerializerCache.EqualRootKeysShareSerializer | src/Infrastructure.Xml/XmlSerializerFactory.cs:83-85 | two calls whose keys the comparer identifies return the same serializer, even for distinct root objects, and together add at most the one entry for that key |
| SerializerCache.SameCacheKeyIgnoresNewOverrides | src/Infrastructure.Xml/XmlSerializerFactory.cs:130-132 | a second call with the same type and key returns the first serializer, which keeps the first overrides |
| XslParameters.ParameterCollection.constructor | src/Infrastructure.Xml/Xsl/ParameterCollection.cs:24-28 | a new collection is empty |
| XslParameters.ParameterCollection.Add | src/Infrastructure.Xml/Xsl/ParameterCollection.cs:36-39 | a null name throws ArgumentNullException and a present name throws ArgumentException, both leaving the collection unchanged; otherwise exactly that pair is added |
| XslParameters.ParameterCollection.AddString | src/Infrastructure.Xml/Xsl/ParameterCollection.cs:36-39 | a null name throws ArgumentNullException and a present name throws ArgumentException naming it, both leaving the collection unchanged; otherwise the string value is stored under the new name |
| XslParameters.ParameterCollection.AddBool | src/Infrastructure.Xml/Xsl/ParameterCollection.cs:45-48 | the same, storing a bool value |
| XslParameters.ParameterCollection.AddInt | src/Infrastructure.Xml/Xsl/ParameterCollection.cs:55-58 | the same, storing a 32-bit integer value |
| XslParameters.ParameterCollection.AddDouble | src/Infrastructure.Xml/Xsl/ParameterCollection.cs:65-68 | the same, storing a double value |
| XslParameters.ParameterCollection.AddNavigators | src/Infrastructure.Xml/Xsl/ParameterCollection.cs:75-78 | the same, storing a navigator array (possibly null) |
| XslParameters.ParameterCollection.AddIterator | src/Infrastructure.Xml/Xsl/ParameterCollection.cs:85-88 | the same, storing a node iterator (possibly null) |
| XslParameters.ParameterCollection.RemoveParameter | src/Infrastructure.Xml/Xsl/ParameterCollection.cs:94-97 | removes only that name; an absent name changes nothing; a null name throws ArgumentNullException |
| XslParameters.ParameterCollection.Clear | src/Infrastructure.Xml/Xsl/ParameterCollection.cs:102-105 | the collection is empty afterwards |
| XslParameters.ParameterCollection.Enumerate | src/Infrastructure.Xml/Xsl/ParameterCollection.cs:113-116 | enumeration yields every stored name exactly once with its value, and nothing else |
| XslArguments.TransformArguments.constructor | src/Infrastructure.Xml/Xsl/TransformArguments.cs:18-22 | a new instance has no function providers and an empty, fresh parameter collection |
| XslArguments.TransformArguments.CreateArguments | src/Infrastructure.Xml/Xsl/TransformArguments.cs:38-57 | fails with NullReferenceException (among the failures modelled) exactly when a provider is null; otherwise the list holds every parameter once under the empty namespace with its value, and every provider in order under its own namespace |
| XslArguments.BuildArguments | src/Infrastructure.Xml/Xsl/TransformArguments.cs:41-56 | the body of `CreateArguments`: the same failure condition and the same description of the list built |
| XslArguments.AddParams | src/Infrastructure.Xml/Xsl/TransformArguments.cs:44-47 | the parameter loop adds one parameter per enumerated entry, in order, with its name, the empty namespace and its value, and the names added are exactly the entries' names |
| XslArguments.AddExtensions | src/Infrastructure.Xml/Xsl/TransformArguments.cs:50-53 | the provider loop fails with NullReferenceException (among the failures modelled) exactly when a provider is null, and otherwise registers each provider, in order, under its own namespace |
| XslArguments.Normalized | src/Infrastructure.Xml/Xsl/TransformArguments.cs:66-98 | a null sequence throws ArgumentNullException("source"); otherwise the only exception is an XsltException; a result holds only providers of the argument |
| XslArguments.GroupsOutcome | src/Infrastructure.Xml/Xsl/TransformArguments.cs:71-95 | the group loop over the groups of the non-null providers throws only XsltException, and returns only providers of the input |
| XslArguments.Normalize | src/Infrastructure.Xml/Xsl/TransformArguments.cs:66-98 | the loop over the groups computes `Normalized`: ArgumentNullException for a null sequence, the first provider of each group, or the XsltException for the first conflicting group |
| XslArguments.BuildConflictMessage | src/Infrastructure.Xml/Xsl/TransformArguments.cs:83-91 | the StringBuilder loop produces the header naming the namespace, then a line break and full name per distinct type |
| XslArguments.ConflictingIffMixed | src/Infrastructure.Xml/Xsl/TransformArguments.cs:78-81 | the source's test (more than one member, not all of the first's type) holds exactly when the group's members do not all share one runtime type |
| XslArguments.NormalizeGroupsSuccess | src/Infrastructure.Xml/Xsl/TransformArguments.cs:71-95 | the loop succeeds exactly when no group conflicts, and then returns the head of every group in group order |
| XslArguments.NormalizeGroupsFailure | src/Infrastructure.Xml/Xsl/TransformArguments.cs:78-92 | a failure is the conflict exception of some conflicting group |
| XslArguments.ConsistentIffGroupsSameType | src/Infrastructure.Xml/Xsl/TransformArguments.cs:71-81 | every group is of one type exactly when any two providers sharing a namespace share a runtime type |
| XslArguments.NormalizeSucceedsIffConsistent | src/Infrastructure.Xml/Xsl/TransformArguments.cs:71-93 | `Normalize` succeeds exactly when no namespace is claimed by two different runtime types among the non-null providers |
| XslArguments.NormalizeKeepsFirsts | src/Infrastructure.Xml/Xsl/TransformArguments.cs:71-95 | on success the result is the reference definition `Firsts` of the non-null providers |
| XslArguments.NormalizeResult | src/Infrastructure.Xml/Xsl/TransformArguments.cs:71-95 | on success: pairwise distinct namespaces, the same namespaces as the non-null input, each the first provider with its namespace, in order of first appearance, all taken from the input |
| XslArguments.NormalizeFailure | src/Infrastructure.Xml/Xsl/TransformArguments.cs:78-92 | on failure the XsltException names a namespace of the input whose providers are of several types, and lists that namespace's distinct types in order |
| XslArguments.NormalizeIdempotent | src/Infrastructure.Xml/Xsl/TransformArguments.cs:71-95 | normalizing a normalized result gives it back unchanged |
| ProviderGrouping.NonNull | src/Infrastructure.Xml/Xsl/TransformArguments.cs:71 | `Where(o => o != null)` keeps every non-null provider, adds nothing and never grows |
| ProviderGrouping.NonNullOfNonNull | src/Infrastructure.Xml/Xsl/TransformArguments.cs:71 | filtering a sequence without nulls returns it unchanged |
| ProviderGrouping.FirstsCharacterization | src/Infrastructure.Xml/Xsl/TransformArguments.cs:71-73 | the group keys with their first members: the input's namespaces, each once, each the first provider with that namespace, in order of first appearance |
| ProviderGrouping.FirstsOfDistinct | src/Infrastructure.Xml/Xsl/TransformArguments.cs:71-73 | a sequence with distinct namespaces is its own list of group heads |
| ProviderGrouping.FilterMembers | src/Infrastructure.Xml/Xsl/TransformArguments.cs:71 | a group holds exactly the input's providers with its key |
| ProviderGrouping.FilterHead | src/Infrastructure.Xml/Xsl/TransformArguments.cs:73 | the `First()` of a group is the first provider of the input with that namespace |
| ProviderGrouping.GroupByShape | src/Infrastructure.Xml/Xsl/TransformArguments.cs:71-73 | `GroupBy` yields one non-empty group per namespace in order of first appearance, keyed by it, headed by the first provider with it |
| ProviderGrouping.DistinctCharacterization | src/Infrastructure.Xml/Xsl/TransformArguments.cs:87 | `Distinct()` keeps every type, drops repeats and adds nothing |
| XslSettings.TransformerSettings.Default | src/Infrastructure.Xml/Xsl/TransformerSettings.cs:16-18 | the parameterless constructor leaves all three flags false and no resolver |
| XslSettings.TransformerSettings.constructor | src/Infrastructure.Xml/Xsl/TransformerSettings.cs:29-36 | the four-argument constructor stores each argument in its property |
| XslReadOnlySettings.ReadOnlyTransformerSettings.constructor | src/Infrastructure.Xml/Xsl/ReadOnlyTransformerSettings.cs:15-18 | a view reads the plain object behind the settings it wraps |
| XslReadOnlySettings.Get | src/Infrastructure.Xml/Xsl/ReadOnlyTransformerSettings.cs:35-65 | a getter fails only on a view over null, with NullReferenceException, and otherwise answers a value of the property's kind |
| XslReadOnlySettings.Set | src/Infrastructure.Xml/Xsl/TransformerSettings.cs:41-65 | on plain settings a setter stores the value, which the getter then returns, and leaves the other three properties unchanged; on a view it throws NotSupportedException naming the property |
| XslReadOnlySettings.ViewReadsThrough | src/Infrastructure.Xml/Xsl/ReadOnlyTransformerSettings.cs:35-65 | each getter of a view answers what the same getter of the wrapped object answers |
| XslReadOnlySettings.ViewOfViewReadsThrough | src/Minx.Xslt/TransformerSettings.cs:77-80 | a view built over a view reads the same values as the inner view |
| XslReadOnlySettings.ViewIsLive | src/Minx.Xslt/TransformerSettings.cs:85-107 | a change made to the wrapped object after the view was built is visible through the view |
| XslReadOnlySettings.ViewRejectsWrites | src/Infrastructure.Xml/Xsl/ReadOnlyTransformerSettings.cs:38-64 | a set on a view throws NotSupportedException naming the property, whatever the value, and changes no value read through the view |
| XslReadOnlySettings.SetterMessage | src/Infrastructure.Xml/Xsl/ReadOnlyTransformerSettings.cs:38-64 | the NotSupportedException message of a setter quotes the property's name between a fixed prefix and suffix |
| XslReadOnlySettings.SetterMessagesDistinct | src/Minx.Xslt/TransformerSettings.cs:88-106 | the four setter messages differ, so each names its own property |
| XslTransformer.Transformer.Create | src/Infrastructure.Xml/Xsl/Transformer.cs:33-44 | no settings means fresh defaults; plain settings keep their flags and get their resolver kept or set to a new XmlUrlResolver; a read-only view always throws (NullReferenceException over null, else NotSupportedException naming Resolver); a new transformer is unloaded and its view reads the caller's object |
| XslTransformer.Transformer.OutputSettings | src/Infrastructure.Xml/Xsl/Transformer.cs:60-74 | fails with InvalidOperationException and its message exactly when no `Load` happened, and otherwise answers the compiled transform's output settings |
| XslTransformer.Transformer.Load | src/Infrastructure.Xml/Xsl/Transformer.cs:85-152 | every overload replaces the compiled transform with a new one built with EnableDebug and loaded with EnableDocumentFunction, EnableScript and Resolver; a file loads by its full name, a stream through a new reader; a null file throws after the replacement; a compile error leaves no output settings |
| XslTransformer.Transformer.Transform | src/Infrastructure.Xml/Xsl/Transformer.cs:175-330 | fails with NullReferenceException (among the failures modelled) exactly when unloaded or a provider is null; otherwise forwards input and output, passes no list without arguments or the described list with them, and gives document() the passed resolver, else the settings' resolver, on the navigable and reader XmlWriter overloads, and the platform's default on the others |
| XslTransformer.DefaultTransformer | src/Infrastructure.Xml/Xsl/Transformer.cs:36-40 | a transformer built without settings enables nothing and resolves with a new XmlUrlResolver |
| XslTransformer.LoadEnablesOutputSettings | src/Infrastructure.Xml/Xsl/Transformer.cs:65-72 | `OutputSettings` is refused before a `Load` and answered after any `Load` |
| MinxArguments.TransformArguments.constructor | src/Minx.Xslt/TransformArguments.cs:16-20 | a new instance has no function providers and an empty, fresh parameter collection |
| MinxArguments.TransformArguments.CreateArguments | src/Minx.Xslt/TransformArguments.cs:36-55 | fails with NullReferenceException (among the failures modelled) exactly when a provider is null; otherwise every parameter once under the empty namespace and every provider in order under its own namespace |
| MinxExceptions.ForMethod | src/Minx.Xslt/MethodCallRequiredException.cs:13 | the one-argument constructor records the method and the message "Method '<method>' must be called", with no inner exception |
| MinxExceptions.WithMessage | src/Minx.Xslt/MethodCallRequiredException.cs:14 | the two-argument constructor records the method and the message verbatim |
| MinxExceptions.WithInner | src/Minx.Xslt/MethodCallRequiredException.cs:15 | the three-argument constructor records the method, the message and the inner exception |
| MinxExceptions.Message | src/Minx.Xslt/MethodCallRequiredException.cs:13-15 | `Message` answers the stored message when there is one |
| MinxExceptions.Store | src/Minx.Xslt/MethodCallRequiredException.cs:24-29 | the writes succeed exactly when the table holds none of the three members, and then add all three; a failure is a SerializationException naming a member already present; entries already present are never overwritten |
| MinxExceptions.GetObjectData | src/Minx.Xslt/MethodCallRequiredException.cs:24-29 | a null info throws NullReferenceException; otherwise `Method` is added, then the base members, with a name already present throwing SerializationException |
| MinxExceptions.GetString | src/Minx.Xslt/MethodCallRequiredException.cs:21 | `GetString` succeeds exactly for a stored string member, answering it, and otherwise throws SerializationException naming the member |
| MinxExceptions.Restore | src/Minx.Xslt/MethodCallRequiredException.cs:16-22 | a null info throws ArgumentNullException; a rebuilt exception has the `Method` stored under "Method" |
| MinxExceptions.RoundTrip | src/Minx.Xslt/MethodCallRequiredException.cs:16-29 | storing into a table without these members succeeds, and deserialising rebuilds the same exception, `Method` included |
| MinxExceptions.StoreRefusesSecondMethod | src/Minx.Xslt/MethodCallRequiredException.cs:26 | storing into a table that already holds "Method" throws and writes nothing |
| MinxExceptions.StoreKeepsOtherMembers | src/Minx.Xslt/MethodCallRequiredException.cs:24-29 | a successful store keeps every other member and adds exactly Method, Message and InnerException |
| MinxTransformer.LoadRequired | src/Minx.Xslt/Transformer.cs:60-64 | the exception thrown before a `Load` names the method `Load` |
| MinxTransformer.Transformer.Create | src/Minx.Xslt/Transformer.cs:22-33 | as for the Infrastructure constructor: defaults, the resolver written back, a read-only view always refused, unloaded afterwards |
| MinxTransformer.Transformer.OutputSettings | src/Minx.Xslt/Transformer.cs:55-69 | fails exactly when no `Load` happened, with MethodCallRequiredException whose `Method` is "Load", and otherwise answers the compiled transform's output settings |
| MinxTransformer.Transformer.Load | src/Minx.Xslt/Transformer.cs:80-147 | every overload replaces the compiled transform, built and loaded from the current settings; a file loads by the path it was built from; a null file throws after the replacement |
| MinxTransformer.Transformer.TransformToWriter | src/Minx.Xslt/Transformer.cs:228-231 | fails with NullReferenceException (among the failures modelled) exactly when unloaded or a provider is null; otherwise writes to the caller's writer, always resolves document() with the settings' resolver, and passes no list without arguments or the described list with them |
| MinxTransformer.Transformer.TransformToSink | src/Minx.Xslt/Transformer.cs:161-209 | unloaded throws NullReferenceException before anything else; otherwise the call writes through a new writer over the sink carrying the compiled output settings, with the resolver and arguments of the XmlWriter overload |
| MinxTransformer.SinkUsesOutputSettings | src/Minx.Xslt/Transformer.cs:242-285 | after a `Load` that compiles, a sink overload succeeds through a writer carrying that stylesheet's output settings and the settings' resolver |
| MathFunctions.TruncRemProperties | src/WebApplication/ExtensionFunctions/MathExtensions.cs:28-31 | the truncated quotient and remainder satisfy dividend = quotient * divisor + remainder; the remainder is smaller than the divisor in magnitude and is zero or has the dividend's sign |
| MathFunctions.TruncRemUnique | src/WebApplication/ExtensionFunctions/MathExtensions.cs:30 | those three facts determine the remainder: any r meeting them is the truncated remainder |
| MathFunctions.Modulus | src/WebApplication/ExtensionFunctions/MathExtensions.cs:28-31 | a zero divisor throws DivideByZeroException and int.MinValue % -1 throws OverflowException; otherwise the result is the truncated remainder, of magnitude below the divisor's and zero or of the dividend's sign |
| MathFunctions.ModulusOfNegativeDividend | src/WebApplication/ExtensionFunctions/MathExtensions.cs:30 | Modulus(-7, 3) is -1, where Dafny's Euclidean -7 % 3 is 2 |
| MathFunctions.RandomSource.Next | src/WebApplication/ExtensionFunctions/MathExtensions.cs:64 | `Random.Next(min, max)` throws ArgumentOutOfRangeException when min > max, answers min when they are equal, else a value with min <= n < max; each successful call is one draw |
| MathFunctions.MathExtensions.constructor | src/WebApplication/ExtensionFunctions/MathExtensions.cs:14-20 | a new object has its own fresh random generator, the namespace "urn:Math", and the class's one runtime type, shared by every instance |
| MathFunctions.TwoInstancesKeepTheFirst | src/Infrastructure.Xml/Xsl/TransformArguments.cs:71-95 | given two providers of one runtime type under one namespace, such as two instances of the class, `Normalize` keeps the first; the program never calls `Normalize`, and registering two instances in one argument set fails at `AddExtensionObject`, whose check is left out |
| MathFunctions.MathExtensions.GetRandomNumbers | src/WebApplication/ExtensionFunctions/MathExtensions.cs:48-80 | exactly `count` numbers (none when count <= 0), each in range, one draw each; min > max with count > 0 throws ArgumentOutOfRangeException |
| MathFunctions.RegisterMathExtensions | src/WebApplication/ExtensionFunctions/MathExtensions.cs:14-17 | a usage scenario: registered with the arguments, the object ends up as the last extension object, under "urn:Math" |

## Left out

- The comparers' `GetHashCode` (src/Infrastructure.Xml/XmlSerializerFactory.cs:229-241, :261-273) is left out. The model assumes that keys the comparer identifies hash alike. The root-key hash includes `XmlRootAttribute`'s own `GetHashCode`, which hashes the attribute's raw fields. So two roots that differ only in a null versus an empty `ElementName` or `DataType` are equal to the comparer but can hash apart, and the cache then builds two serializers. The model does not capture that case: there, `EqualRootKeysShareSerializer`'s shared serializer is not what the program does.
- SerializerCache.EqualRootKeysShareSerializer: holds only under that hashing assumption. It is not promised for two roots that differ only in a null versus an empty `ElementName` or `DataType`.
- `ConcurrentDictionary.GetOrAdd` is modelled sequentially. A concurrent miss can build a serializer twice and discard one, and the model does not capture that race.
- What `XmlSerializer`, `XslCompiledTransform` and `XsltArgumentList` do inside is left out: compilation, transformation, XPath, serialization. The model records only the arguments they receive. `XsltArgumentList`'s own checks are not modelled: a parameter or extension namespace registered twice, a null namespace, and `AddExtensionObject`'s rejection of the XSLT namespace `http://www.w3.org/1999/XSL/Transform`, which a provider can use in the model without failing.
- `IXmlSerializerFactory` and `IXsltFunctionProvider` are interfaces. They are modelled as the classes that implement them (`XmlSerializerFactory`, `FunctionProvider`) rather than as separate interface types.
- The Minx copies of `ParameterCollection` and `IXsltFunctionProvider` are not part of this model. Minx's `TransformArguments` uses the Infrastructure definitions in their place.
- A read-only view built over another read-only view keeps the plain object at the end of the chain, not the inner view. Every getter answers the same either way.
- Null handles are not modelled: a null stylesheet navigator, reader, stream or URI passed to `Load`, and a null input, writer or sink passed to `Transform`. The platform checks these arguments, and the model takes them as non-null.
- The `using` blocks of the Minx sink overloads are not modelled: the writer's `Flush` and `Dispose`. What is modelled is which writer the call receives.
- The XML fragment `GetRandomNumbers` builds is not modelled: the document, the `Number` text produced by `ToString()`, and the node iterator over it. The model keeps only the sequence of numbers in document order.
- Actual randomness is left out: `Random.Next` is any value in its range. `RandomSource.Next` does not model System.Random's sequence of values.
- XslArguments.BuildArguments: `XsltArgumentList.AddParam` throws ArgumentNullException for a null parameter value (a null string, navigator array or iterator) and rejects a name that is not a valid XML name. Neither check is modelled, so "fails exactly when a provider is null" holds only among the failures modelled.
- XslArguments.AddParams: for the same reason, adding a parameter with a null value or an invalid name never fails in the model.
- XslArguments.TransformArguments.CreateArguments: inherits the gap of `BuildArguments` for null parameter values and invalid names.
- XslTransformer.Transformer.Transform: inherits the gap of `BuildArguments` for null parameter values and invalid names.
- MinxArguments.TransformArguments.CreateArguments: inherits the gap of `BuildArguments` for null parameter values and invalid names.
- MinxTransformer.Transformer.TransformToWriter: inherits the gap of `BuildArguments` for null parameter values and invalid names, and so does `TransformToSink`.
- SerializerCache.XmlSerializerFactory.CreateWithRoot: the root override's properties are constants. The table keeps the caller's `XmlRootAttribute` by reference, and the comparer reads its current properties, so a root changed after it was cached would move its entry to another key. The model does not capture that; it takes roots as unchanged after first use.
- A provider whose `NamespaceUri` is null cannot be expressed: `FunctionProvider.namespaceUri` is a non-null string. Grouping under a null key and `AddExtensionObject`'s ArgumentNullException for it are not modelled.
- Double-valued parameters are kept as 64-bit patterns, and no floating-point arithmetic is modelled.
- For base `Exception` serialization, only `Message` and `InnerException` are stored and restored. Its other members are not: ClassName, Data, HelpURL, StackTrace, HResult and Source. `GetString`'s conversion of non-string members is not modelled either.
- `Environment.NewLine` is taken to be "\r\n", the Windows value the repository targets.
- The WebForms pages and `UIExtensions` in the sample web application are not part of this model.
