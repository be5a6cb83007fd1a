/**
 * `Infrastructure.Xml.Xsl.TransformArguments`: the stylesheet parameters and
 * extension objects of one transformation, and the `XsltArgumentList` built
 * from them. Also the private `Normalize`, which keeps one extension object
 * per namespace and rejects a namespace claimed by objects of different types.
 */
module XslArguments {
  import opened Common
  import opened HostXml
  import opened XslParameters
  import opened ProviderGrouping

  function ParamNames(ps: seq<Param>): set<string>
  {
    set p | p in ps :: p.name
  }

  /**
   * `list` is what `CreateArguments` builds: every stored parameter exactly
   * once under the empty namespace with its value, and one extension object per
   * provider, in the providers' order and under each provider's own namespace.
   */
  predicate DescribesArguments(list: ArgumentList, parameters: map<string, ParameterValue>, providers: seq<FunctionProvider?>)
  {
    && (forall i :: 0 <= i < |list.params| ==>
          && list.params[i].namespaceUri == ""
          && list.params[i].name in parameters
          && parameters[list.params[i].name] == list.params[i].value)
    && (forall i, j :: 0 <= i < j < |list.params| ==> list.params[i].name != list.params[j].name)
    && parameters.Keys <= ParamNames(list.params)
    && |list.extensions| == |providers|
    && (forall i :: 0 <= i < |providers| ==>
          && list.extensions[i].provider == providers[i]
          && list.extensions[i].namespaceUri == list.extensions[i].provider.namespaceUri)
  }

  class TransformArguments {
    /** `FunctionProviders`, a list callers add to and remove from; it may hold nulls. */
    var functionProviders: seq<FunctionProvider?>
    /** `Parameters`, fixed at construction. */
    const parameters: ParameterCollection

    constructor ()
      ensures functionProviders == []
      ensures fresh(parameters) && parameters.parameters == map[]
    {
      functionProviders := [];
      parameters := new ParameterCollection();
    }

    /** `CreateArguments`: see `BuildArguments`; nothing of the instance changes. */
    method CreateArguments() returns (r: Result<ArgumentList>)
      ensures r.Failure? <==> null in functionProviders
      ensures r.Failure? ==> r.error == NullReference
      ensures r.Success? ==> DescribesArguments(r.value, parameters.parameters, functionProviders)
    {
      r := BuildArguments(parameters, functionProviders);
    }
  }

  /** The first loop of `CreateArguments`: one `AddParam(name, "", value)` per enumerated parameter, in that order. */
  method AddParams(items: seq<Entry>) returns (params: seq<Param>)
    ensures |params| == |items|
    ensures forall i :: 0 <= i < |items| ==> params[i] == Param(items[i].name, "", items[i].value)
    ensures ParamNames(params) == Names(items)
  {
    params := [];
    for k := 0 to |items|
      invariant |params| == k
      invariant forall i :: 0 <= i < k ==> params[i] == Param(items[i].name, "", items[i].value)
      invariant ParamNames(params) == Names(items[..k])
    {
      ghost var before := params;
      params := params + [Param(items[k].name, "", items[k].value)];
      assert items[..k + 1] == items[..k] + [items[k]];
      assert ParamNames(params) == ParamNames(before) + {items[k].name};
      assert Names(items[..k + 1]) == Names(items[..k]) + {items[k].name};
    }
    assert items[..|items|] == items;
  }

  /**
   * The second loop of `CreateArguments`: one `AddExtensionObject(provider.NamespaceUri, provider)`
   * per provider, in order; reading `NamespaceUri` of a null provider throws NullReferenceException.
   */
  method AddExtensions(providers: seq<FunctionProvider?>) returns (r: Result<seq<Extension>>)
    ensures r.Failure? <==> null in providers
    ensures r.Failure? ==> r.error == NullReference
    ensures r.Success? ==>
      && |r.value| == |providers|
      && forall i :: 0 <= i < |providers| ==> r.value[i] == Extension(providers[i].namespaceUri, providers[i])
  {
    var extensions: seq<Extension> := [];
    for k := 0 to |providers|
      invariant |extensions| == k
      invariant null !in providers[..k]
      invariant forall i :: 0 <= i < k ==> extensions[i] == Extension(providers[i].namespaceUri, providers[i])
    {
      var item := providers[k];
      if item == null {
        assert providers[k] == null;
        return Failure(NullReference);
      }
      extensions := extensions + [Extension(item.namespaceUri, item)];
      assert providers[..k + 1] == providers[..k] + [item];
    }
    assert providers[..|providers|] == providers;
    return Success(extensions);
  }

  /**
   * The body of `CreateArguments`, the same in both assemblies: the stored
   * parameters, then the providers, into a new argument list. A null
   * provider throws NullReferenceException.
   */
  method BuildArguments(parameters: ParameterCollection, providers: seq<FunctionProvider?>) returns (r: Result<ArgumentList>)
    ensures r.Failure? <==> null in providers
    ensures r.Failure? ==> r.error == NullReference
    ensures r.Success? ==> DescribesArguments(r.value, parameters.parameters, providers)
  {
    var items := parameters.Enumerate();
    var params := AddParams(items);
    var extensions := AddExtensions(providers);
    if extensions.Failure? {
      return Failure(extensions.error);
    }
    return Success(ArgumentList(params, extensions.value));
  }

  /**
   * The source's conflict test on one group: more than one member, and not
   * all of the type of the first.
   */
  predicate Conflicting(g: Grouping)
    requires |g.items| > 0
  {
    |g.items| > 1 && !AllOfType(g.items, g.items[0].runtimeType)
  }

  /** `group.All(o => o.GetType() == t)`. */
  predicate AllOfType(items: seq<FunctionProvider>, t: SystemType)
  {
    forall p :: p in items ==> p.runtimeType == t
  }

  /** All members of `items` have one runtime type. */
  predicate SameType(items: seq<FunctionProvider>)
  {
    forall p, q :: p in items && q in items ==> p.runtimeType == q.runtimeType
  }

  /** No namespace is used by providers of two different runtime types. */
  predicate Consistent(s: seq<FunctionProvider>)
  {
    forall p, q :: p in s && q in s && p.namespaceUri == q.namespaceUri ==> p.runtimeType == q.runtimeType
  }

  /** The exception for a conflicting group: its key and each distinct type of its members. */
  function ConflictError(g: Grouping): Exception
  {
    XsltError(ConflictMessage(g.key, Distinct(TypesOf(g.items))))
  }

  /** The loop of `Normalize` over its groups: the first member of each, or the exception for the first conflicting group. */
  function NormalizeGroups(groups: seq<Grouping>): Result<seq<FunctionProvider>>
    requires forall i :: 0 <= i < |groups| ==> |groups[i].items| > 0
  {
    if groups == [] then Success([])
    else if Conflicting(groups[0]) then Failure(ConflictError(groups[0]))
    else Prepend([groups[0].items[0]], NormalizeGroups(groups[1..]))
  }

  /** `xs` ahead of a successful result; a failure stays as it is. */
  function Prepend(xs: seq<FunctionProvider>, r: Result<seq<FunctionProvider>>): Result<seq<FunctionProvider>>
  {
    match r
    case Success(rest) => Success(xs + rest)
    case Failure(e) => Failure(e)
  }

  lemma PrependNothing(r: Result<seq<FunctionProvider>>)
    ensures Prepend([], r) == r
  {
    if r.Success? {
      assert [] + r.value == r.value;
    }
  }

  lemma PrependTwice(xs: seq<FunctionProvider>, ys: seq<FunctionProvider>, r: Result<seq<FunctionProvider>>)
    ensures Prepend(xs, Prepend(ys, r)) == Prepend(xs + ys, r)
  {
    if r.Success? {
      assert xs + (ys + r.value) == (xs + ys) + r.value;
    }
  }

  /**
   * What `Normalize` returns or throws; a null argument makes `Where` throw
   * ArgumentNullException, and otherwise only a conflict throws, with an
   * XsltException. A result holds only providers of the argument.
   */
  function Normalized(functionProviders: Option<seq<FunctionProvider?>>): (r: Result<seq<FunctionProvider>>)
    ensures functionProviders.None? ==> r == Failure(ArgumentNull("source"))
    ensures functionProviders.Some? && r.Failure? ==> r.error.XsltError?
    ensures r.Success? ==> forall i :: 0 <= i < |r.value| ==> r.value[i] in functionProviders.value
  {
    match functionProviders
    case None => Failure(ArgumentNull("source"))
    case Some(ps) =>
      var groups := GroupBy(NonNull(ps));
      GroupByShape(NonNull(ps));
      GroupsOutcome(ps);
      NormalizeGroups(groups)
  }

  /** The group loop on the groups of `ps` throws only XsltException, and keeps only providers of `ps`. */
  lemma GroupsOutcome(ps: seq<FunctionProvider?>)
    ensures var groups := GroupBy(NonNull(ps));
      && (forall i :: 0 <= i < |groups| ==> |groups[i].items| > 0)
      && (NormalizeGroups(groups).Failure? ==> NormalizeGroups(groups).error.XsltError?)
      && (NormalizeGroups(groups).Success? ==>
            forall i :: 0 <= i < |NormalizeGroups(groups).value| ==> NormalizeGroups(groups).value[i] in ps)
  {
    var s := NonNull(ps);
    GroupByShape(s);
    FirstsCharacterization(s);
    NormalizeGroupsSuccess(GroupBy(s));
    if NormalizeGroups(GroupBy(s)).Failure? {
      NormalizeGroupsFailure(GroupBy(s));
    }
  }

  /** The `StringBuilder` of `Normalize`: the header, then a line break and the full name of each type. */
  method BuildConflictMessage(ns: string, types: seq<SystemType>) returns (sb: string)
    ensures sb == ConflictMessage(ns, types)
  {
    sb := ConflictHeader(ns);
    for k := 0 to |types|
      invariant sb == ConflictHeader(ns) + TypeLines(types[..k])
    {
      assert types[..k + 1][..k] == types[..k];
      sb := sb + NewLine + types[k].fullName;
    }
    assert types[..|types|] == types;
  }

  /**
   * `Normalize`: walk the groups, throwing XsltException for the first group
   * with members of two types and keeping the first member of every other.
   */
  method Normalize(functionProviders: Option<seq<FunctionProvider?>>) returns (r: Result<seq<FunctionProvider>>)
    ensures r == Normalized(functionProviders)
  {
    if functionProviders.None? {
      return Failure(ArgumentNull("source"));
    }
    var groups := GroupBy(NonNull(functionProviders.value));
    GroupByShape(NonNull(functionProviders.value));
    var results: seq<FunctionProvider> := [];
    assert groups[0..] == groups;
    PrependNothing(NormalizeGroups(groups));
    for i := 0 to |groups|
      invariant NormalizeGroups(groups) == Prepend(results, NormalizeGroups(groups[i..]))
    {
      assert groups[i..][1..] == groups[i + 1..];
      var group := groups[i];
      var first := group.items[0];
      if |group.items| > 1 {
        var t := first.runtimeType;
        if !AllOfType(group.items, t) {
          var message := BuildConflictMessage(group.key, Distinct(TypesOf(group.items)));
          return Failure(XsltError(message));
        }
      }
      PrependTwice(results, [first], NormalizeGroups(groups[i + 1..]));
      results := results + [first];
    }
    assert groups[|groups|..] == [];
    assert results + [] == results;
    return Success(results);
  }

  /** The source's test agrees with "the members have more than one type". */
  lemma ConflictingIffMixed(g: Grouping)
    requires |g.items| > 0
    ensures Conflicting(g) <==> !SameType(g.items)
  {
    if |g.items| == 1 {
      assert forall p :: p in g.items ==> p == g.items[0];
    }
  }

  /** The first member of each group, in the groups' order: `First()` of each. */
  function Heads(groups: seq<Grouping>): (r: seq<FunctionProvider>)
    requires forall i :: 0 <= i < |groups| ==> |groups[i].items| > 0
    ensures |r| == |groups|
    ensures forall i :: 0 <= i < |groups| ==> r[i] == groups[i].items[0]
  {
    if groups == [] then [] else [groups[0].items[0]] + Heads(groups[1..])
  }

  /** The group loop succeeds iff no group conflicts, and then yields the first member of each group. */
  lemma {:induction false} NormalizeGroupsSuccess(groups: seq<Grouping>)
    requires forall i :: 0 <= i < |groups| ==> |groups[i].items| > 0
    ensures NormalizeGroups(groups).Success? <==> forall i :: 0 <= i < |groups| ==> !Conflicting(groups[i])
    ensures NormalizeGroups(groups).Success? ==> NormalizeGroups(groups).value == Heads(groups)
  {
    if groups != [] {
      NormalizeGroupsSuccess(groups[1..]);
      assert forall i :: 1 <= i < |groups| ==> groups[i] == groups[1..][i - 1];
    }
  }

  /** When the group loop throws, it throws the exception of one conflicting group. */
  lemma {:induction false} NormalizeGroupsFailure(groups: seq<Grouping>)
    requires forall i :: 0 <= i < |groups| ==> |groups[i].items| > 0
    requires NormalizeGroups(groups).Failure?
    ensures exists i :: 0 <= i < |groups| && Conflicting(groups[i]) && NormalizeGroups(groups).error == ConflictError(groups[i])
  {
    if !Conflicting(groups[0]) {
      NormalizeGroupsFailure(groups[1..]);
      var i :| 0 <= i < |groups[1..]| && Conflicting(groups[1..][i]) && NormalizeGroups(groups[1..]).error == ConflictError(groups[1..][i]);
      assert groups[i + 1] == groups[1..][i];
    }
  }

  /** Each group holds exactly the providers of its key's namespace. */
  lemma GroupMember(s: seq<FunctionProvider>, i: int, p: FunctionProvider)
    requires 0 <= i < |GroupBy(s)|
    ensures p in GroupBy(s)[i].items <==> p in s && p.namespaceUri == GroupBy(s)[i].key
  {
    GroupByShape(s);
    FilterMembers(s, GroupBy(s)[i].key);
  }

  /** Every provider belongs to some group. */
  lemma GroupOf(s: seq<FunctionProvider>, p: FunctionProvider) returns (i: int)
    requires p in s
    ensures 0 <= i < |GroupBy(s)| && GroupBy(s)[i].key == p.namespaceUri
  {
    GroupByShape(s);
    FirstsCharacterization(s);
    assert p.namespaceUri in NamespacesOf(Firsts(s));
    var f :| f in Firsts(s) && f.namespaceUri == p.namespaceUri;
    i :| 0 <= i < |Firsts(s)| && Firsts(s)[i] == f;
  }

  /** A namespace whose group has members of two types makes the providers inconsistent, and only such a group does. */
  lemma ConsistentIffGroupsSameType(s: seq<FunctionProvider>)
    ensures Consistent(s) <==> forall i :: 0 <= i < |GroupBy(s)| ==> SameType(GroupBy(s)[i].items)
  {
    var groups := GroupBy(s);
    if Consistent(s) {
      forall i | 0 <= i < |groups|
        ensures SameType(groups[i].items)
      {
        forall p, q | p in groups[i].items && q in groups[i].items
          ensures p.runtimeType == q.runtimeType
        {
          GroupMember(s, i, p);
          GroupMember(s, i, q);
        }
      }
    }
    if forall i :: 0 <= i < |groups| ==> SameType(groups[i].items) {
      forall p, q | p in s && q in s && p.namespaceUri == q.namespaceUri
        ensures p.runtimeType == q.runtimeType
      {
        var i := GroupOf(s, p);
        GroupMember(s, i, p);
        GroupMember(s, i, q);
        assert p in groups[i].items && q in groups[i].items;
      }
    }
  }

  /** `Normalize` succeeds exactly when no namespace is used by providers of two runtime types. */
  lemma NormalizeSucceedsIffConsistent(ps: seq<FunctionProvider?>)
    ensures Normalized(Some(ps)).Success? <==> Consistent(NonNull(ps))
  {
    var s := NonNull(ps);
    GroupByShape(s);
    NormalizeGroupsSuccess(GroupBy(s));
    ConsistentIffGroupsSameType(s);
    forall i | 0 <= i < |GroupBy(s)|
      ensures Conflicting(GroupBy(s)[i]) <==> !SameType(GroupBy(s)[i].items)
    {
      ConflictingIffMixed(GroupBy(s)[i]);
    }
  }

  /**
   * On success `Normalize` keeps the first provider of each namespace, in order
   * of first appearance: the reference definition `Firsts` of the non-null
   * providers.
   */
  lemma NormalizeKeepsFirsts(ps: seq<FunctionProvider?>)
    ensures Normalized(Some(ps)).Success? ==> Normalized(Some(ps)).value == Firsts(NonNull(ps))
  {
    var s := NonNull(ps);
    GroupByShape(s);
    NormalizeGroupsSuccess(GroupBy(s));
  }

  /**
   * What a successful `Normalize` returns, stated outright: one provider per
   * namespace of the non-null input, each the first with its namespace, in
   * order of first appearance, and each taken from the input.
   */
  lemma NormalizeResult(ps: seq<FunctionProvider?>)
    requires Normalized(Some(ps)).Success?
    ensures var r, s := Normalized(Some(ps)).value, NonNull(ps);
      && DistinctNamespaces(r)
      && NamespacesOf(r) == NamespacesOf(s)
      && (forall i :: 0 <= i < |r| ==> r[i].namespaceUri in NamespacesOf(s) && r[i] == s[FirstIndex(s, r[i].namespaceUri)])
      && (forall i, j :: 0 <= i < j < |r| ==> FirstIndex(s, r[i].namespaceUri) < FirstIndex(s, r[j].namespaceUri))
      && (forall i :: 0 <= i < |r| ==> r[i] in ps)
  {
    var s := NonNull(ps);
    NormalizeKeepsFirsts(ps);
    FirstsCharacterization(s);
    var r := Normalized(Some(ps)).value;
    forall i | 0 <= i < |r|
      ensures r[i] in ps
    {
      assert s[FirstIndex(s, r[i].namespaceUri)] in ps;
    }
  }

  /**
   * When `Normalize` throws, the XsltException names a namespace of the input
   * whose providers have more than one type, and lists the distinct types of
   * that namespace's providers in order of first appearance.
   */
  lemma NormalizeFailure(ps: seq<FunctionProvider?>)
    requires Normalized(Some(ps)).Failure?
    ensures exists ns ::
      && ns in NamespacesOf(NonNull(ps))
      && !SameType(Filter(NonNull(ps), ns))
      && Normalized(Some(ps)).error == XsltError(ConflictMessage(ns, Distinct(TypesOf(Filter(NonNull(ps), ns)))))
  {
    var s := NonNull(ps);
    GroupByShape(s);
    FirstsCharacterization(s);
    NormalizeGroupsFailure(GroupBy(s));
    var i :| 0 <= i < |GroupBy(s)| && Conflicting(GroupBy(s)[i]) && Normalized(Some(ps)).error == ConflictError(GroupBy(s)[i]);
    ConflictingIffMixed(GroupBy(s)[i]);
    assert Firsts(s)[i] in Firsts(s);
  }

  /** Providers with pairwise distinct namespaces never share a namespace between two types. */
  lemma DistinctIsConsistent(r: seq<FunctionProvider>)
    requires DistinctNamespaces(r)
    ensures Consistent(r)
  {
    forall p, q | p in r && q in r && p.namespaceUri == q.namespaceUri
      ensures p == q
    {
      var i :| 0 <= i < |r| && r[i] == p;
      var j :| 0 <= j < |r| && r[j] == q;
      assert !(i < j);
      assert !(j < i);
    }
  }

  /** `Normalize` is idempotent: normalizing its result gives that result back. */
  lemma NormalizeIdempotent(ps: seq<FunctionProvider?>)
    requires Normalized(Some(ps)).Success?
    ensures Normalized(Some(Normalized(Some(ps)).value)) == Normalized(Some(ps))
  {
    var r := Normalized(Some(ps)).value;
    NormalizeResult(ps);
    NonNullOfNonNull(r);
    FirstsOfDistinct(r);
    DistinctIsConsistent(r);
    NormalizeSucceedsIffConsistent(r);
    NormalizeKeepsFirsts(r);
  }
}
