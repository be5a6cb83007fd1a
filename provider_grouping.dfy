/**
 * The LINQ pipeline inside `TransformArguments.Normalize`, as functions on
 * sequences of extension objects: `Where(o => o != null)`,
 * `GroupBy(o => o.NamespaceUri)`, `Select(o => o.GetType()).Distinct()`, and
 * the message of the exception thrown for a namespace claimed by providers of
 * different types. `Firsts` is the reference definition of what `Normalize`
 * keeps: the first provider of each namespace, in order of first appearance.
 */
module ProviderGrouping {
  import opened HostXml

  function NamespacesOf(s: seq<FunctionProvider>): set<string>
  {
    set p | p in s :: p.namespaceUri
  }

  /** No two providers of `s` share a namespace. */
  predicate DistinctNamespaces(s: seq<FunctionProvider>)
  {
    forall i, j :: 0 <= i < j < |s| ==> s[i].namespaceUri != s[j].namespaceUri
  }

  /** `Where(o => o != null)`: the non-null providers, in their order. */
  function NonNull(ps: seq<FunctionProvider?>): (r: seq<FunctionProvider>)
    ensures |r| <= |ps|
    ensures forall i :: 0 <= i < |r| ==> r[i] in ps
    ensures forall i :: 0 <= i < |ps| && ps[i] != null ==> ps[i] in r
  {
    if ps == [] then []
    else
      var init, last := ps[..|ps| - 1], ps[|ps| - 1];
      assert ps == init + [last];
      NonNull(init) + (if last == null then [] else [last])
  }

  /** A sequence without nulls passes through `Where(o => o != null)` unchanged. */
  lemma {:induction false} NonNullOfNonNull(s: seq<FunctionProvider>)
    ensures NonNull(s) == s
  {
    if s != [] {
      NonNullOfNonNull(s[..|s| - 1]);
      assert s == s[..|s| - 1] + [s[|s| - 1]];
    }
  }

  /** The least index of a provider of `s` whose namespace is `ns`. */
  function FirstIndex(s: seq<FunctionProvider>, ns: string): (k: nat)
    requires ns in NamespacesOf(s)
    ensures k < |s| && s[k].namespaceUri == ns
    ensures forall j :: 0 <= j < k ==> s[j].namespaceUri != ns
  {
    if s[0].namespaceUri == ns then 0
    else
      var p :| p in s && p.namespaceUri == ns;
      assert s == [s[0]] + s[1..];
      assert p in s[1..];
      1 + FirstIndex(s[1..], ns)
  }

  /** The first provider of each namespace, in order of first appearance. */
  function Firsts(s: seq<FunctionProvider>): seq<FunctionProvider>
  {
    if s == [] then []
    else
      var init, last := s[..|s| - 1], s[|s| - 1];
      if last.namespaceUri in NamespacesOf(init) then Firsts(init) else Firsts(init) + [last]
  }

  /** The providers of `s` whose namespace is `ns`, in their order: one group of `GroupBy`. */
  function Filter(s: seq<FunctionProvider>, ns: string): seq<FunctionProvider>
  {
    if s == [] then []
    else
      var init, last := s[..|s| - 1], s[|s| - 1];
      Filter(init, ns) + (if last.namespaceUri == ns then [last] else [])
  }

  /** One `IGrouping<string, IXsltFunctionProvider>`: a key and its members. */
  datatype Grouping = Grouping(key: string, items: seq<FunctionProvider>)

  /** `GroupBy(o => o.NamespaceUri)`: one group per namespace in order of first appearance, members in input order. */
  function GroupBy(s: seq<FunctionProvider>): seq<Grouping>
  {
    var f := Firsts(s);
    seq(|f|, i requires 0 <= i < |f| => Grouping(f[i].namespaceUri, Filter(s, f[i].namespaceUri)))
  }

  lemma NamespacesOfSnoc(init: seq<FunctionProvider>, last: FunctionProvider)
    ensures NamespacesOf(init + [last]) == NamespacesOf(init) + {last.namespaceUri}
  {
    assert forall p :: p in init + [last] <==> p in init || p == last;
  }

  /** Adding a provider at the end does not move the first index of a namespace already present. */
  lemma FirstIndexSnocOld(init: seq<FunctionProvider>, last: FunctionProvider, ns: string)
    requires ns in NamespacesOf(init)
    ensures ns in NamespacesOf(init + [last])
    ensures FirstIndex(init + [last], ns) == FirstIndex(init, ns)
  {
    NamespacesOfSnoc(init, last);
    assert forall j :: 0 <= j < |init| ==> (init + [last])[j] == init[j];
  }

  /** A namespace that first appears in the last provider has that provider's index. */
  lemma FirstIndexSnocNew(init: seq<FunctionProvider>, last: FunctionProvider)
    requires last.namespaceUri !in NamespacesOf(init)
    ensures last.namespaceUri in NamespacesOf(init + [last])
    ensures FirstIndex(init + [last], last.namespaceUri) == |init|
  {
    NamespacesOfSnoc(init, last);
    assert forall j :: 0 <= j < |init| ==> (init + [last])[j] == init[j] && init[j] in init;
  }

  /**
   * `Firsts` keeps exactly the namespaces of its input, each once, each
   * represented by its first provider, in order of first appearance.
   */
  lemma {:induction false} FirstsCharacterization(s: seq<FunctionProvider>)
    ensures NamespacesOf(Firsts(s)) == NamespacesOf(s)
    ensures DistinctNamespaces(Firsts(s))
    ensures forall i :: 0 <= i < |Firsts(s)| ==>
      Firsts(s)[i].namespaceUri in NamespacesOf(s) && Firsts(s)[i] == s[FirstIndex(s, Firsts(s)[i].namespaceUri)]
    ensures forall i, j :: 0 <= i < j < |Firsts(s)| ==>
      FirstIndex(s, Firsts(s)[i].namespaceUri) < FirstIndex(s, Firsts(s)[j].namespaceUri)
  {
    if s == [] {
      return;
    }
    var init, last := s[..|s| - 1], s[|s| - 1];
    assert s == init + [last];
    FirstsCharacterization(init);
    NamespacesOfSnoc(init, last);
    var fi := Firsts(init);
    forall i | 0 <= i < |fi|
      ensures FirstIndex(s, fi[i].namespaceUri) == FirstIndex(init, fi[i].namespaceUri)
      ensures s[FirstIndex(s, fi[i].namespaceUri)] == fi[i]
    {
      assert fi[i] in fi;
      FirstIndexSnocOld(init, last, fi[i].namespaceUri);
    }
    if last.namespaceUri in NamespacesOf(init) {
      assert Firsts(s) == fi;
    } else {
      var f := Firsts(s);
      assert f == fi + [last];
      FirstIndexSnocNew(init, last);
      NamespacesOfSnoc(fi, last);
      forall i, j | 0 <= i < j < |f|
        ensures f[i].namespaceUri != f[j].namespaceUri
      {
        if j == |fi| {
          assert f[i] == fi[i] && fi[i] in fi;
        }
      }
    }
  }

  /** A sequence whose namespaces are pairwise distinct is its own `Firsts`. */
  lemma {:induction false} FirstsOfDistinct(s: seq<FunctionProvider>)
    requires DistinctNamespaces(s)
    ensures Firsts(s) == s
  {
    if s != [] {
      var init, last := s[..|s| - 1], s[|s| - 1];
      assert s == init + [last];
      FirstsOfDistinct(init);
      forall p | p in init
        ensures p.namespaceUri != last.namespaceUri
      {
        var k :| 0 <= k < |init| && init[k] == p;
        assert s[k] == p;
      }
    }
  }

  /** The members of a group are exactly the providers with that namespace. */
  lemma {:induction false} FilterMembers(s: seq<FunctionProvider>, ns: string)
    ensures forall p :: p in Filter(s, ns) <==> p in s && p.namespaceUri == ns
  {
    if s != [] {
      var init, last := s[..|s| - 1], s[|s| - 1];
      assert s == init + [last];
      FilterMembers(init, ns);
    }
  }

  /** A namespace that does not occur has an empty group. */
  lemma {:induction false} FilterAbsent(s: seq<FunctionProvider>, ns: string)
    requires ns !in NamespacesOf(s)
    ensures Filter(s, ns) == []
  {
    if s != [] {
      var init, last := s[..|s| - 1], s[|s| - 1];
      assert s == init + [last];
      NamespacesOfSnoc(init, last);
      FilterAbsent(init, ns);
    }
  }

  /** The group of a namespace that occurs is not empty, and `First()` of it is the first provider with it. */
  lemma {:induction false} FilterHead(s: seq<FunctionProvider>, ns: string)
    requires ns in NamespacesOf(s)
    ensures |Filter(s, ns)| > 0 && Filter(s, ns)[0] == s[FirstIndex(s, ns)]
  {
    var init, last := s[..|s| - 1], s[|s| - 1];
    assert s == init + [last];
    NamespacesOfSnoc(init, last);
    if ns in NamespacesOf(init) {
      FilterHead(init, ns);
      FirstIndexSnocOld(init, last, ns);
      assert s[FirstIndex(init, ns)] == init[FirstIndex(init, ns)];
    } else {
      FilterAbsent(init, ns);
      FirstIndexSnocNew(init, last);
    }
  }

  /**
   * The groups of `GroupBy` are those of the namespaces of `s`, each keyed
   * once, each non-empty and headed by the first provider with its key.
   */
  lemma GroupByShape(s: seq<FunctionProvider>)
    ensures |GroupBy(s)| == |Firsts(s)|
    ensures forall i :: 0 <= i < |GroupBy(s)| ==>
      && GroupBy(s)[i].key == Firsts(s)[i].namespaceUri
      && GroupBy(s)[i].items == Filter(s, GroupBy(s)[i].key)
      && |GroupBy(s)[i].items| > 0
      && GroupBy(s)[i].items[0] == Firsts(s)[i]
  {
    FirstsCharacterization(s);
    var f := Firsts(s);
    forall i | 0 <= i < |f|
      ensures |Filter(s, f[i].namespaceUri)| > 0 && Filter(s, f[i].namespaceUri)[0] == f[i]
    {
      FilterHead(s, f[i].namespaceUri);
    }
  }

  /** `Select(o => o.GetType())`. */
  function TypesOf(g: seq<FunctionProvider>): (ts: seq<SystemType>)
    ensures |ts| == |g|
  {
    seq(|g|, i requires 0 <= i < |g| => g[i].runtimeType)
  }

  /** `Distinct()`: each element once, in order of first occurrence. */
  function Distinct(ts: seq<SystemType>): seq<SystemType>
  {
    if ts == [] then []
    else
      var init, last := ts[..|ts| - 1], ts[|ts| - 1];
      if last in init then Distinct(init) else Distinct(init) + [last]
  }

  /** `Distinct()` keeps every element, drops repeats and adds nothing. */
  lemma {:induction false} DistinctCharacterization(ts: seq<SystemType>)
    ensures forall t :: t in Distinct(ts) <==> t in ts
    ensures forall i, j :: 0 <= i < j < |Distinct(ts)| ==> Distinct(ts)[i] != Distinct(ts)[j]
  {
    if ts != [] {
      var init, last := ts[..|ts| - 1], ts[|ts| - 1];
      assert ts == init + [last];
      DistinctCharacterization(init);
      if last !in init {
        var d := Distinct(ts);
        forall i, j | 0 <= i < j < |d|
          ensures d[i] != d[j]
        {
          if j == |d| - 1 {
            assert d[i] in Distinct(init);
          }
        }
      }
    }
  }

  /** `Environment.NewLine`, which `StringBuilder.AppendLine` writes; the repository targets Windows. */
  const NewLine: string := "\r\n"

  /** The first sentence of the exception message, which names the namespace. */
  function ConflictHeader(ns: string): string
  {
    "The namespace for each IXsltFunctionProvider is expected to be unique. The namespace '" + ns +
    "' is being used by the following types."
  }

  /** One line per type: a line break, then the type's full name. */
  function TypeLines(ts: seq<SystemType>): string
  {
    if ts == [] then ""
    else TypeLines(ts[..|ts| - 1]) + NewLine + ts[|ts| - 1].fullName
  }

  /** The message of the XsltException thrown for namespace `ns` claimed by the types `ts`. */
  function ConflictMessage(ns: string, ts: seq<SystemType>): string
  {
    ConflictHeader(ns) + TypeLines(ts)
  }
}
