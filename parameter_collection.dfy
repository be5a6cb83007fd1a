/**
 * `ParameterCollection`: the name to value dictionary of stylesheet
 * parameters (top-level xsl:param, section 11.4 of XSLT 1.0) that
 * `TransformArguments` later hands to the platform.
 */
module XslParameters {
  import opened Common
  import opened HostXml

  /** One (name, value) pair of the collection, as its enumerator yields it. */
  datatype Entry = Entry(name: string, value: ParameterValue)

  function Names(items: seq<Entry>): set<string>
  {
    set e | e in items :: e.name
  }

  /** Each name of `m` occurs in `items` exactly once, paired with its value, and nothing else does. */
  predicate EnumeratesExactly(items: seq<Entry>, m: map<string, ParameterValue>)
  {
    && (forall i :: 0 <= i < |items| ==> items[i].name in m && m[items[i].name] == items[i].value)
    && (forall i, j :: 0 <= i < j < |items| ==> items[i].name != items[j].name)
    && m.Keys <= Names(items)
  }

  class ParameterCollection {
    var parameters: map<string, ParameterValue>

    /** A new collection is empty. */
    constructor ()
      ensures parameters == map[]
    {
      parameters := map[];
    }

    /**
     * `Dictionary.Add` behind every `Add` overload: a null name throws
     * ArgumentNullException, a name already present throws ArgumentException,
     * and either way nothing changes; otherwise exactly that pair is added.
     */
    method Add(name: NString, value: ParameterValue) returns (err: Outcome)
      modifies this
      ensures name.None? ==> err == Some(ArgumentNull("key")) && parameters == old(parameters)
      ensures name.Some? && name.value in old(parameters) ==>
        err == Some(DuplicateKey(name.value)) && parameters == old(parameters)
      ensures name.Some? && name.value !in old(parameters) ==>
        err == None && parameters == old(parameters)[name.value := value]
    {
      if name.None? {
        return Some(ArgumentNull("key"));
      }
      if name.value in parameters {
        return Some(DuplicateKey(name.value));
      }
      parameters := parameters[name.value := value];
      err := None;
    }

    /** `Add(string name, string value)`. */
    method AddString(name: NString, value: NString) returns (err: Outcome)
      modifies this
      ensures err.None? <==> name.Some? && name.value !in old(parameters)
      ensures err.None? ==> parameters == old(parameters)[name.value := StringValue(value)]
      ensures err.Some? ==> parameters == old(parameters)
      ensures err == if name.None? then Some(ArgumentNull("key"))
        else if name.value in old(parameters) then Some(DuplicateKey(name.value))
        else None
    {
      err := Add(name, StringValue(value));
    }

    /** `Add(string name, bool value)`. */
    method AddBool(name: NString, value: bool) returns (err: Outcome)
      modifies this
      ensures err.None? <==> name.Some? && name.value !in old(parameters)
      ensures err.None? ==> parameters == old(parameters)[name.value := BoolValue(value)]
      ensures err.Some? ==> parameters == old(parameters)
      ensures err == if name.None? then Some(ArgumentNull("key"))
        else if name.value in old(parameters) then Some(DuplicateKey(name.value))
        else None
    {
      err := Add(name, BoolValue(value));
    }

    /** `Add(string name, int value)`. */
    method AddInt(name: NString, value: int32) returns (err: Outcome)
      modifies this
      ensures err.None? <==> name.Some? && name.value !in old(parameters)
      ensures err.None? ==> parameters == old(parameters)[name.value := IntValue(value)]
      ensures err.Some? ==> parameters == old(parameters)
      ensures err == if name.None? then Some(ArgumentNull("key"))
        else if name.value in old(parameters) then Some(DuplicateKey(name.value))
        else None
    {
      err := Add(name, IntValue(value));
    }

    /** `Add(string name, double value)`, the double kept as its bit pattern. */
    method AddDouble(name: NString, value: bv64) returns (err: Outcome)
      modifies this
      ensures err.None? <==> name.Some? && name.value !in old(parameters)
      ensures err.None? ==> parameters == old(parameters)[name.value := DoubleValue(value)]
      ensures err.Some? ==> parameters == old(parameters)
      ensures err == if name.None? then Some(ArgumentNull("key"))
        else if name.value in old(parameters) then Some(DuplicateKey(name.value))
        else None
    {
      err := Add(name, DoubleValue(value));
    }

    /** `Add(string name, params XPathNavigator[] value)`. */
    method AddNavigators(name: NString, value: Option<seq<Handle>>) returns (err: Outcome)
      modifies this
      ensures err.None? <==> name.Some? && name.value !in old(parameters)
      ensures err.None? ==> parameters == old(parameters)[name.value := NavigatorsValue(value)]
      ensures err.Some? ==> parameters == old(parameters)
      ensures err == if name.None? then Some(ArgumentNull("key"))
        else if name.value in old(parameters) then Some(DuplicateKey(name.value))
        else None
    {
      err := Add(name, NavigatorsValue(value));
    }

    /** `Add(string name, XPathNodeIterator value)`. */
    method AddIterator(name: NString, value: Option<Handle>) returns (err: Outcome)
      modifies this
      ensures err.None? <==> name.Some? && name.value !in old(parameters)
      ensures err.None? ==> parameters == old(parameters)[name.value := IteratorValue(value)]
      ensures err.Some? ==> parameters == old(parameters)
      ensures err == if name.None? then Some(ArgumentNull("key"))
        else if name.value in old(parameters) then Some(DuplicateKey(name.value))
        else None
    {
      err := Add(name, IteratorValue(value));
    }

    /**
     * `RemoveParameter`: removes only that name; an absent name is a silent
     * no-op; a null name throws ArgumentNullException from `Dictionary.Remove`.
     */
    method RemoveParameter(name: NString) returns (err: Outcome)
      modifies this
      ensures name.None? ==> err == Some(ArgumentNull("key")) && parameters == old(parameters)
      ensures name.Some? ==> err == None && parameters == old(parameters) - {name.value}
      ensures name.Some? && name.value !in old(parameters) ==> parameters == old(parameters)
    {
      if name.None? {
        return Some(ArgumentNull("key"));
      }
      parameters := parameters - {name.value};
      err := None;
    }

    /** `Clear`: the collection is empty afterwards. */
    method Clear()
      modifies this
      ensures parameters == map[]
    {
      parameters := map[];
    }

    /**
     * `GetEnumerator`, run to the end: every stored name exactly once with its
     * value. The order is the dictionary's and is left unspecified.
     */
    method Enumerate() returns (items: seq<Entry>)
      ensures EnumeratesExactly(items, parameters)
    {
      items := [];
      var remaining := parameters.Keys;
      while remaining != {}
        invariant remaining <= parameters.Keys
        invariant forall i :: 0 <= i < |items| ==>
          items[i].name in parameters && items[i].name !in remaining && parameters[items[i].name] == items[i].value
        invariant forall i, j :: 0 <= i < j < |items| ==> items[i].name != items[j].name
        invariant parameters.Keys - remaining == Names(items)
        decreases remaining
      {
        var name :| name in remaining;
        ghost var before := items;
        items := items + [Entry(name, parameters[name])];
        assert Names(items) == Names(before) + {name};
        remaining := remaining - {name};
      }
    }
  }
}
