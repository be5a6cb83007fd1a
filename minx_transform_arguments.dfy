/**
 * `Minx.Xslt.TransformArguments`: the same parameters and extension objects
 * as the Infrastructure class, without `Normalize`. Its parameter collection
 * and extension-object interface are the Minx copies of the Infrastructure
 * ones and are modelled by the same definitions.
 */
module MinxArguments {
  import opened Common
  import opened HostXml
  import opened XslParameters
  import opened XslArguments

  class TransformArguments {
    /** `FunctionProviders`, a list callers add to and remove from; it may hold nulls. */
    var functionProviders: seq<FunctionProvider?>
    /** `Parameters`, fixed at construction. */
    const parameters: ParameterCollection

    constructor ()
      ensures functionProviders == []
      ensures fresh(parameters) && parameters.parameters == map[]
    {
      functionProviders := [];
      parameters := new ParameterCollection();
    }

    /**
     * `CreateArguments`: every stored parameter once under the empty
     * namespace, then every provider under its own namespace, in order; a
     * null provider throws NullReferenceException. Nothing of the instance
     * changes.
     */
    method CreateArguments() returns (r: Result<ArgumentList>)
      ensures r.Failure? <==> null in functionProviders
      ensures r.Failure? ==> r.error == NullReference
      ensures r.Success? ==> DescribesArguments(r.value, parameters.parameters, functionProviders)
    {
      r := BuildArguments(parameters, functionProviders);
    }
  }
}
