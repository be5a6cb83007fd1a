/**
 * `XmlSerializerFactory`: builds `XmlSerializer`s and caches the two kinds
 * whose platform constructor leaks (root override, attribute overrides) in
 * get-or-create tables that are never evicted. A key's equality is that of
 * the factory's own comparers, which the tables below realise as map keys.
 */
module SerializerCache {
  import opened Common
  import opened HostXml

  /**
   * `XmlRootAttribute`: the root element override; its four properties are
   * what the cache compares. The fields hold what the getters answer:
   * `DataType` and `ElementName` answer the empty string for a null value,
   * `Namespace` answers null as it is.
   */
  class XmlRootAttribute {
    const dataType: string
    const elementName: string
    const isNullable: bool
    const ns: NString

    constructor (dataType: NString, elementName: NString, isNullable: bool, ns: NString)
      ensures this.dataType == dataType.GetOr("") && this.elementName == elementName.GetOr("")
      ensures this.isNullable == isNullable && this.ns == ns
    {
      this.dataType := dataType.GetOr("");
      this.elementName := elementName.GetOr("");
      this.isNullable := isNullable;
      this.ns := ns;
    }
  }

  /** `XmlAttributeOverrides`: opaque; the cache never looks into it. */
  class XmlAttributeOverrides {
    constructor ()
    {
    }
  }

  /** `XmlSerializer`: a handle recording the arguments of the platform constructor that built it. */
  class XmlSerializer {
    const forType: SystemType
    const root: XmlRootAttribute?
    const overrides: XmlAttributeOverrides?

    constructor (forType: SystemType, root: XmlRootAttribute?, overrides: XmlAttributeOverrides?)
      ensures this.forType == forType && this.root == root && this.overrides == overrides
    {
      this.forType := forType;
      this.root := root;
      this.overrides := overrides;
    }
  }

  /** `SerializerWithRootKey`: a type and the root override object, held by reference. */
  datatype RootKey = RootKey(keyType: SystemType, root: XmlRootAttribute?)

  /**
   * `SerializerWithRootKeyComparer.Equals`: the same type, and either both
   * roots null or both non-null with equal properties. Every key equals
   * itself, and equal keys have one type and agree on whether a root is given.
   */
  predicate RootKeyEquals(x: RootKey, y: RootKey)
    ensures x == y ==> RootKeyEquals(x, y)
    ensures RootKeyEquals(x, y) ==> x.keyType == y.keyType && (x.root == null <==> y.root == null)
  {
    x.keyType == y.keyType &&
    ((x.root == null && y.root == null) ||
     (x.root != null && y.root != null &&
      x.root.dataType == y.root.dataType &&
      x.root.elementName == y.root.elementName &&
      x.root.isNullable == y.root.isNullable &&
      x.root.ns == y.root.ns))
  }

  /** The four properties of a root override that the comparer looks at. */
  datatype RootFields = RootFields(dataType: string, elementName: string, isNullable: bool, ns: NString)

  /** What of a root key the comparer sees: the type and, unless the root is null, its four properties. */
  datatype RootSignature = RootSignature(keyType: SystemType, root: Option<RootFields>)

  function Fields(root: XmlRootAttribute): RootFields
  {
    RootFields(root.dataType, root.elementName, root.isNullable, root.ns)
  }

  function Signature(k: RootKey): RootSignature
  {
    RootSignature(k.keyType, if k.root == null then None else Some(Fields(k.root)))
  }

  /**
   * The comparer identifies exactly the keys with the same signature, so a
   * map keyed by signatures is a dictionary built with that comparer.
   */
  lemma RootKeyEqualsIffSameSignature(x: RootKey, y: RootKey)
    ensures RootKeyEquals(x, y) <==> Signature(x) == Signature(y)
  {
  }

  /** The root-key comparer is an equivalence relation, even across distinct root objects. */
  lemma RootKeyEqualsIsEquivalence(x: RootKey, y: RootKey, z: RootKey)
    ensures RootKeyEquals(x, x)
    ensures RootKeyEquals(x, y) ==> RootKeyEquals(y, x)
    ensures RootKeyEquals(x, y) && RootKeyEquals(y, z) ==> RootKeyEquals(x, z)
  {
    RootKeyEqualsIffSameSignature(x, x);
    RootKeyEqualsIffSameSignature(x, y);
    RootKeyEqualsIffSameSignature(y, x);
    RootKeyEqualsIffSameSignature(y, z);
    RootKeyEqualsIffSameSignature(x, z);
  }

  /** `SerializerWithOverridesKey`: a type and the caller's cache key. */
  datatype OverridesKey = OverridesKey(keyType: SystemType, cacheKey: NString)

  /** `SerializerWithOverridesKeyComparer.Equals`: same type and `string.Equals` on the keys. */
  predicate OverridesKeyEquals(x: OverridesKey, y: OverridesKey)
  {
    x.keyType == y.keyType && x.cacheKey == y.cacheKey
  }

  /** The overrides-key comparer is an equivalence relation, and it is equality of keys. */
  lemma OverridesKeyEqualsIsEquivalence(x: OverridesKey, y: OverridesKey, z: OverridesKey)
    ensures OverridesKeyEquals(x, y) <==> x == y
    ensures OverridesKeyEquals(x, x)
    ensures OverridesKeyEquals(x, y) ==> OverridesKeyEquals(y, x)
    ensures OverridesKeyEquals(x, y) && OverridesKeyEquals(y, z) ==> OverridesKeyEquals(x, z)
  {
  }

  /** An entry of the root table holds a serializer built for its type with a root of its signature. */
  predicate RootEntry(sig: RootSignature, s: XmlSerializer)
  {
    s.forType == sig.keyType && s.root != null && sig.root == Some(Fields(s.root)) && s.overrides == null
  }

  /** An entry of the overrides table holds a serializer built for its type with some overrides, under a non-null key. */
  predicate OverridesEntry(key: OverridesKey, s: XmlSerializer)
  {
    s.forType == key.keyType && key.cacheKey.Some? && s.root == null && s.overrides != null
  }

  /** True when every entry of `older` is still in `newer` with the same serializer. */
  predicate Grows<K, V(==)>(older: map<K, V>, newer: map<K, V>)
  {
    older.Keys <= newer.Keys && forall k :: k in older ==> newer[k] == older[k]
  }

  class XmlSerializerFactory {
    var withRoot: map<RootSignature, XmlSerializer>
    var withOverrides: map<OverridesKey, XmlSerializer>

    ghost predicate Valid()
      reads this
    {
      (forall sig :: sig in withRoot ==> RootEntry(sig, withRoot[sig])) &&
      (forall key :: key in withOverrides ==> OverridesEntry(key, withOverrides[key]))
    }

    constructor ()
      ensures Valid()
      ensures withRoot == map[] && withOverrides == map[]
    {
      withRoot := map[];
      withOverrides := map[];
    }

    /** `Create<T>()`: never cached; a fresh serializer for `T` every call. */
    method CreateFor(t: SystemType) returns (s: XmlSerializer)
      ensures fresh(s)
      ensures s.forType == t && s.root == null && s.overrides == null
    {
      s := new XmlSerializer(t, null, null);
    }

    /** `Create(t)`: a null type throws; otherwise a fresh, uncached serializer. */
    method Create(t: SystemType?) returns (r: Result<XmlSerializer>)
      ensures r.Failure? <==> t == null
      ensures r.Failure? ==> r.error == ArgumentNull("t")
      ensures r.Success? ==> fresh(r.value) && r.value.forType == t && r.value.root == null && r.value.overrides == null
    {
      if t == null {
        return Failure(ArgumentNull("t"));
      }
      var s := CreateFor(t);
      r := Success(s);
    }

    /**
     * `Create(t, root)`: a null type throws; a null root falls back to the
     * uncached `Create(t)`; otherwise get-or-create under the key's signature.
     * A hit changes nothing and returns the serializer built for the first
     * equal key; a miss adds exactly one entry.
     */
    method CreateWithRoot(t: SystemType?, root: XmlRootAttribute?) returns (r: Result<XmlSerializer>)
      requires Valid()
      modifies this
      ensures Valid()
      ensures withOverrides == old(withOverrides)
      ensures Grows(old(withRoot), withRoot)
      ensures t == null <==> r == Failure(ArgumentNull("t"))
      ensures t == null || root == null ==> withRoot == old(withRoot)
      ensures t != null && root == null ==>
        r.Success? && fresh(r.value) && r.value.forType == t && r.value.root == null && r.value.overrides == null
      ensures t != null && root != null ==>
        var sig := Signature(RootKey(t, root));
        && r.Success? && sig in withRoot && r.value == withRoot[sig]
        && (sig in old(withRoot) ==> withRoot == old(withRoot))
        && (sig !in old(withRoot) ==>
              fresh(r.value) && r.value.forType == t && r.value.root == root && r.value.overrides == null &&
              withRoot == old(withRoot)[sig := r.value])
    {
      if t == null {
        return Failure(ArgumentNull("t"));
      }
      if root == null {
        r := Create(t);
        return;
      }
      var sig := Signature(RootKey(t, root));
      if sig in withRoot {
        r := Success(withRoot[sig]);
      } else {
        var s := new XmlSerializer(t, root, null);
        withRoot := withRoot[sig := s];
        r := Success(s);
      }
    }

    /** `Create<T>(root)`: `Create(typeof(T), root)`, whose type is never null. */
    method CreateForWithRoot(t: SystemType, root: XmlRootAttribute?) returns (r: Result<XmlSerializer>)
      requires Valid()
      modifies this
      ensures Valid()
      ensures withOverrides == old(withOverrides) && Grows(old(withRoot), withRoot)
      ensures r.Success?
      ensures root != null ==> Signature(RootKey(t, root)) in withRoot && r.value == withRoot[Signature(RootKey(t, root))]
    {
      r := CreateWithRoot(t, root);
    }

    /**
     * `Create(t, cacheKey, overrides)`: a null type throws; null overrides fall
     * back to the uncached `Create(t)` whatever the key; a null key with
     * overrides throws; otherwise get-or-create under (type, key). A hit keeps
     * the first serializer and ignores the overrides passed now.
     */
    method CreateWithOverrides(t: SystemType?, cacheKey: NString, overrides: XmlAttributeOverrides?)
      returns (r: Result<XmlSerializer>)
      requires Valid()
      modifies this
      ensures Valid()
      ensures withRoot == old(withRoot)
      ensures Grows(old(withOverrides), withOverrides)
      ensures t == null ==> r == Failure(ArgumentNull("t"))
      ensures t != null && overrides != null && cacheKey.None? ==> r == Failure(ArgumentNull("cacheKey"))
      ensures t == null || overrides == null || cacheKey.None? ==> withOverrides == old(withOverrides)
      ensures t != null && overrides == null ==>
        r.Success? && fresh(r.value) && r.value.forType == t && r.value.root == null && r.value.overrides == null
      ensures t != null && overrides != null && cacheKey.Some? ==>
        var key := OverridesKey(t, cacheKey);
        && r.Success? && key in withOverrides && r.value == withOverrides[key]
        && (key in old(withOverrides) ==> withOverrides == old(withOverrides))
        && (key !in old(withOverrides) ==>
              fresh(r.value) && r.value.forType == t && r.value.root == null && r.value.overrides == overrides &&
              withOverrides == old(withOverrides)[key := r.value])
    {
      if t == null {
        return Failure(ArgumentNull("t"));
      }
      if overrides == null {
        r := Create(t);
        return;
      }
      if cacheKey.None? {
        return Failure(ArgumentNull("cacheKey"));
      }
      var key := OverridesKey(t, cacheKey);
      if key in withOverrides {
        r := Success(withOverrides[key]);
      } else {
        var s := new XmlSerializer(t, null, overrides);
        withOverrides := withOverrides[key := s];
        r := Success(s);
      }
    }

    /** `Create<T>(cacheKey, overrides)`: `Create(typeof(T), cacheKey, overrides)`. */
    method CreateForWithOverrides(t: SystemType, cacheKey: NString, overrides: XmlAttributeOverrides?)
      returns (r: Result<XmlSerializer>)
      requires Valid()
      modifies this
      ensures Valid()
      ensures withRoot == old(withRoot) && Grows(old(withOverrides), withOverrides)
      ensures r.Failure? <==> overrides != null && cacheKey.None?
      ensures r.Success? && overrides != null ==>
        OverridesKey(t, cacheKey) in withOverrides && r.value == withOverrides[OverridesKey(t, cacheKey)]
    {
      r := CreateWithOverrides(t, cacheKey, overrides);
    }
  }

  /**
   * Two root-override calls whose keys the comparer identifies return the
   * same serializer, even for distinct root objects, and the two calls
   * together add at most the one entry for that key.
   */
  method EqualRootKeysShareSerializer(f: XmlSerializerFactory, t: SystemType, root1: XmlRootAttribute, root2: XmlRootAttribute)
    returns (s1: XmlSerializer, s2: XmlSerializer)
    requires f.Valid()
    requires RootKeyEquals(RootKey(t, root1), RootKey(t, root2))
    modifies f
    ensures f.Valid()
    ensures s1 == s2 && s1.root != null && Fields(s1.root) == Fields(root2)
    ensures f.withRoot == old(f.withRoot)[Signature(RootKey(t, root1)) := s1]
    ensures f.withOverrides == old(f.withOverrides)
  {
    var r1 := f.CreateWithRoot(t, root1);
    ghost var after := f.withRoot;
    var r2 := f.CreateWithRoot(t, root2);
    RootKeyEqualsIffSameSignature(RootKey(t, root1), RootKey(t, root2));
    assert f.withRoot == after;
    s1, s2 := r1.value, r2.value;
  }

  /**
   * A second overrides call with the same type and key returns the first
   * serializer, built with the first overrides, whatever overrides it passes.
   */
  method SameCacheKeyIgnoresNewOverrides(f: XmlSerializerFactory, t: SystemType, key: string,
                                         first: XmlAttributeOverrides, second: XmlAttributeOverrides)
    returns (s1: XmlSerializer, s2: XmlSerializer)
    requires f.Valid()
    requires OverridesKey(t, Some(key)) !in f.withOverrides
    modifies f
    ensures f.Valid()
    ensures s1 == s2 && s2.overrides == first
  {
    var r1 := f.CreateWithOverrides(t, Some(key), first);
    var r2 := f.CreateWithOverrides(t, Some(key), second);
    s1, s2 := r1.value, r2.value;
  }
}
