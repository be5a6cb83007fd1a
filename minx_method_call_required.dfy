/**
 * `Minx.Xslt.MethodCallRequiredException`: the exception a Minx transformer
 * throws when a property is read before the method that must precede it.
 * It carries the name of that method in `Method`, which survives the
 * exception's serialization: `GetObjectData` stores it next to the base
 * exception's members, and the deserialising constructor reads it back.
 */
module MinxExceptions {
  import opened Common

  /** `new MethodCallRequiredException(method)`: the message names the method; a null name formats as empty. */
  function ForMethod(methodName: NString): (e: Exception)
    ensures e.MethodCallRequired? && e.methodName == methodName && e.inner.None?
    ensures e.rawMessage == Some("Method '" + methodName.GetOr("") + "' must be called")
  {
    MethodCallRequired(methodName, Some("Method '" + methodName.GetOr("") + "' must be called"), None)
  }

  /** `new MethodCallRequiredException(method, message)`: the message as given, no inner exception. */
  function WithMessage(methodName: NString, message: NString): (e: Exception)
    ensures e.MethodCallRequired? && e.methodName == methodName && e.rawMessage == message && e.inner.None?
  {
    MethodCallRequired(methodName, message, None)
  }

  /** `new MethodCallRequiredException(method, message, inner)`: the message and inner exception as given. */
  function WithInner(methodName: NString, message: NString, inner: Option<Exception>): (e: Exception)
    ensures e.MethodCallRequired? && e.methodName == methodName && e.rawMessage == message && e.inner == inner
  {
    MethodCallRequired(methodName, message, inner)
  }

  /** `Exception.Message`: the stored message, or the platform's default text when it is null. */
  function Message(e: Exception): (text: string)
    requires e.MethodCallRequired?
    ensures e.rawMessage.Some? ==> text == e.rawMessage.value
  {
    e.rawMessage.GetOr("Exception of type 'Minx.Xslt.MethodCallRequiredException' was thrown.")
  }

  /** A value stored in a `SerializationInfo`: a string (possibly null) or an exception (possibly null). */
  datatype Stored = StoredString(s: NString) | StoredException(e: Option<Exception>)

  /** `SerializationInfo`: a name to value table that refuses a name twice. */
  class SerializationInfo {
    var values: map<string, Stored>

    constructor ()
      ensures values == map[]
    {
      values := map[];
    }
  }

  /** The members this model stores: `Method`, then the base exception's `Message` and `InnerException`. */
  const Members: set<string> := {"Method", "Message", "InnerException"}

  /** The table after `GetObjectData` and the exception it throws, if any; a member already present throws SerializationException, leaving the writes before it in place. */
  function Store(values: map<string, Stored>, e: Exception): (r: (map<string, Stored>, Outcome))
    requires e.MethodCallRequired?
    ensures r.1.None? <==> values.Keys !! Members
    ensures r.1.Some? ==> r.1.value.Serialization? && r.1.value.member in Members * values.Keys
    ensures r.1.None? ==> r.0.Keys == values.Keys + Members
    ensures forall k :: k in values ==> k in r.0 && r.0[k] == values[k]
  {
    if "Method" in values then (values, Some(Serialization("Method")))
    else
      var v1 := values["Method" := StoredString(e.methodName)];
      if "Message" in v1 then (v1, Some(Serialization("Message")))
      else
        var v2 := v1["Message" := StoredString(e.rawMessage)];
        if "InnerException" in v2 then (v2, Some(Serialization("InnerException")))
        else (v2["InnerException" := StoredException(e.inner)], None)
  }

  /**
   * `GetObjectData`: `info.AddValue("Method", Method)`, then the base
   * exception's members. A null info throws NullReferenceException at the
   * first `AddValue`.
   */
  method GetObjectData(e: Exception, info: SerializationInfo?) returns (err: Outcome)
    requires e.MethodCallRequired?
    modifies info
    ensures info == null ==> err == Some(NullReference)
    ensures info != null ==> (info.values, err) == Store(old(info.values), e)
  {
    if info == null {
      return Some(NullReference);
    }
    if "Method" in info.values {
      return Some(Serialization("Method"));
    }
    info.values := info.values["Method" := StoredString(e.methodName)];
    if "Message" in info.values {
      return Some(Serialization("Message"));
    }
    info.values := info.values["Message" := StoredString(e.rawMessage)];
    if "InnerException" in info.values {
      return Some(Serialization("InnerException"));
    }
    info.values := info.values["InnerException" := StoredException(e.inner)];
    err := None;
  }

  /** `info.GetString(name)`: a missing member, or one that is not a string, throws SerializationException. */
  function GetString(values: map<string, Stored>, name: string): (r: Result<NString>)
    ensures r.Success? <==> name in values && values[name].StoredString?
    ensures r.Failure? ==> r.error == Serialization(name)
    ensures r.Success? ==> values[name] == StoredString(r.value)
  {
    if name in values && values[name].StoredString? then Success(values[name].s)
    else Failure(Serialization(name))
  }

  /**
   * The deserialising constructor: the base exception reads `Message` and
   * `InnerException` (a null info throws ArgumentNullException), then
   * `Method` is read with `GetString`.
   */
  function Restore(info: Option<map<string, Stored>>): (r: Result<Exception>)
    ensures r.Success? ==> r.value.MethodCallRequired?
    ensures info.None? ==> r == Failure(ArgumentNull("info"))
    ensures r.Success? ==> info.Some? && "Method" in info.value && info.value["Method"] == StoredString(r.value.methodName)
  {
    match info
    case None => Failure(ArgumentNull("info"))
    case Some(values) =>
      match GetString(values, "Message")
      case Failure(err) => Failure(err)
      case Success(message) =>
        if "InnerException" !in values || !values["InnerException"].StoredException? then Failure(Serialization("InnerException"))
        else
          match GetString(values, "Method")
          case Failure(err) => Failure(err)
          case Success(methodName) => Success(MethodCallRequired(methodName, message, values["InnerException"].e))
  }

  /**
   * Round trip: storing an exception into a table that holds none of its
   * members succeeds, and the deserialising constructor rebuilds the same
   * exception, `Method` included.
   */
  lemma RoundTrip(values: map<string, Stored>, e: Exception)
    requires e.MethodCallRequired?
    requires values.Keys !! Members
    ensures Store(values, e).1 == None
    ensures Restore(Some(Store(values, e).0)) == Success(e)
  {
    assert "Method" !in values && "Message" !in values && "InnerException" !in values;
  }

  /** Storing into a table that already holds `Method` throws SerializationException and writes nothing. */
  lemma StoreRefusesSecondMethod(values: map<string, Stored>, e: Exception)
    requires e.MethodCallRequired? && "Method" in values
    ensures Store(values, e) == (values, Some(Serialization("Method")))
  {
  }

  /** Whatever else the table holds, a successful store leaves it untouched and adds exactly the three members. */
  lemma StoreKeepsOtherMembers(values: map<string, Stored>, e: Exception)
    requires e.MethodCallRequired? && Store(values, e).1 == None
    ensures Store(values, e).0.Keys == values.Keys + Members
    ensures forall k :: k in values ==> Store(values, e).0[k] == values[k]
  {
  }
}
