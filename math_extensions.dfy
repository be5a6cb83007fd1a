/**
 * `WebApplication.ExtensionFunctions.MathExtensions`: the extension object
 * a stylesheet reaches under the namespace "urn:Math" (extension functions,
 * section 14.2 of XSLT 1.0). `Modulus` is C#'s `%` on 32-bit integers, which
 * truncates toward zero; `GetRandomNumbers` draws `count` numbers from the
 * object's own random number generator.
 */
module MathFunctions {
  import opened Common
  import opened HostXml
  import opened XslArguments
  import MinxArguments
  import opened ProviderGrouping

  function Abs(x: int): nat
  {
    if x < 0 then -x else x
  }

  /** The quotient of C#'s integer division, which rounds toward zero. */
  function TruncDiv(dividend: int, divisor: int): int
    requires divisor != 0
  {
    var q := Abs(dividend) / Abs(divisor);
    if (dividend < 0) == (divisor < 0) then q else -q
  }

  /** The remainder that goes with `TruncDiv`: its magnitude is that of the remainder of the magnitudes, its sign the dividend's. */
  function TruncRem(dividend: int, divisor: int): int
    requires divisor != 0
  {
    var m := Abs(dividend) % Abs(divisor);
    if dividend < 0 then -m else m
  }

  /** Moving a sign out of a product. */
  lemma NegatedProduct(x: int, y: int)
    ensures (-x) * y == -(x * y) && x * (-y) == -(x * y) && (-x) * (-y) == x * y
  {
  }

  /** The truncated quotient times the divisor is the product of the magnitudes, with the dividend's sign. */
  lemma TruncDivTimesDivisor(dividend: int, divisor: int)
    requires divisor != 0
    ensures var p := (Abs(dividend) / Abs(divisor)) * Abs(divisor);
      TruncDiv(dividend, divisor) * divisor == if dividend < 0 then -p else p
  {
    NegatedProduct(Abs(dividend) / Abs(divisor), Abs(divisor));
  }

  /** Division and remainder fit together, and the remainder is small and has the dividend's sign. */
  lemma {:induction false} TruncRemProperties(dividend: int, divisor: int)
    requires divisor != 0
    ensures dividend == TruncDiv(dividend, divisor) * divisor + TruncRem(dividend, divisor)
    ensures Abs(TruncRem(dividend, divisor)) < Abs(divisor)
    ensures TruncRem(dividend, divisor) == 0 || (TruncRem(dividend, divisor) < 0 <==> dividend < 0)
  {
    var a: int, b: int := Abs(dividend), Abs(divisor);
    var q: int, m: int := a / b, a % b;
    var p: int := q * b;
    assert a == p + m && 0 <= m < b;
    TruncDivTimesDivisor(dividend, divisor);
    if dividend < 0 {
      assert dividend == -a && TruncRem(dividend, divisor) == -m;
      assert TruncDiv(dividend, divisor) * divisor == -p;
    } else {
      assert dividend == a && TruncRem(dividend, divisor) == m;
      assert TruncDiv(dividend, divisor) * divisor == p;
    }
  }

  /**
   * Those three facts pin the remainder down: any `r` with
   * `dividend == q * divisor + r`, smaller than the divisor in magnitude and
   * zero or of the dividend's sign, is `TruncRem(dividend, divisor)`.
   */
  lemma {:induction false} TruncRemUnique(dividend: int, divisor: int, q: int, r: int)
    requires divisor != 0
    requires dividend == q * divisor + r
    requires Abs(r) < Abs(divisor)
    requires r == 0 || (r < 0 <==> dividend < 0)
    ensures r == TruncRem(dividend, divisor)
  {
    TruncRemProperties(dividend, divisor);
    var q0, r0 := TruncDiv(dividend, divisor), TruncRem(dividend, divisor);
    // (q - q0) * divisor == r0 - r, and |r0 - r| < |divisor| because r and r0 never have opposite signs.
    assert (q - q0) * divisor == r0 - r;
    assert Abs(r0 - r) < Abs(divisor);
    if q != q0 {
      MultipleAtLeastDivisor(q - q0, divisor);
    }
  }

  lemma MultipleAtLeastDivisor(k: int, d: int)
    requires k != 0 && d != 0
    ensures Abs(k * d) >= Abs(d)
  {
    if k > 0 && d > 0 {
      assert k * d >= d;
    } else if k > 0 {
      assert k * d <= d;
    } else if d > 0 {
      assert k * d <= -d;
    } else {
      assert k * d >= -d;
    }
  }

  /** The namespace the extension object is registered under. */
  const NamespaceUri: string := "urn:Math"

  /** The full name of the class's runtime type. */
  const TypeName: string := "WebApplication.ExtensionFunctions.MathExtensions"

  /**
   * `Modulus(dividend, divisor)`, that is `dividend % divisor` on `int`: a
   * zero divisor throws DivideByZeroException, `int.MinValue % -1` throws
   * OverflowException, and otherwise the result is the truncated remainder.
   */
  function Modulus(dividend: int32, divisor: int32): (r: Result<int32>)
    ensures r.Failure? <==> divisor == 0 || (dividend == Int32Min && divisor == -1)
    ensures r.Failure? ==> r.error == (if divisor == 0 then DivideByZero else ArithmeticOverflow)
    ensures r.Success? ==> dividend as int == TruncDiv(dividend as int, divisor as int) * divisor as int + r.value as int
    ensures r.Success? ==> Abs(r.value as int) < Abs(divisor as int)
    ensures r.Success? ==> r.value == 0 || (r.value < 0 <==> dividend < 0)
  {
    if divisor == 0 then Failure(DivideByZero)
    else if dividend == Int32Min && divisor == -1 then Failure(ArithmeticOverflow)
    else
      TruncRemProperties(dividend as int, divisor as int);
      Success(TruncRem(dividend as int, divisor as int) as int32)
  }

  /** C#'s `%` and Dafny's Euclidean `%` differ on a negative dividend: -7 % 3 is -1 in C#, 2 in Dafny. */
  lemma ModulusOfNegativeDividend()
    ensures Modulus(-7, 3) == Success(-1)
    ensures (-7) % 3 == 2
  {
  }

  /** `System.Random`: only the number of values drawn so far is kept. */
  class RandomSource {
    var draws: nat

    constructor ()
      ensures draws == 0
    {
      draws := 0;
    }

    /**
     * `Next(minValue, maxValue)`: ArgumentOutOfRangeException when
     * `minValue > maxValue`, `minValue` when they are equal, otherwise some
     * value at least `minValue` and below `maxValue`; which one is left open.
     */
    method Next(minValue: int32, maxValue: int32) returns (r: Result<int32>)
      modifies this
      ensures r.Failure? <==> minValue > maxValue
      ensures r.Failure? ==> r.error == ArgumentOutOfRange("minValue") && draws == old(draws)
      ensures r.Success? ==> InRange(r.value, minValue, maxValue) && draws == old(draws) + 1
    {
      if minValue > maxValue {
        return Failure(ArgumentOutOfRange("minValue"));
      }
      draws := draws + 1;
      if minValue == maxValue {
        return Success(minValue);
      }
      var n: int32 :| minValue <= n < maxValue;
      return Success(n);
    }
  }

  /** What `Next(min, max)` may return: `min` when the bounds are equal, else at least `min` and below `max`. */
  predicate InRange(n: int32, min: int32, max: int32)
  {
    if min == max then n == min else min <= n < max
  }

  /** The fragment `GetRandomNumbers` builds: `<Numbers>` holding one `<Number>` per value, in order. */
  datatype Numbers = Numbers(children: seq<int32>)

  class MathExtensions {
    /** The private `randomNumberGenerator`, created with the object. */
    const randomNumberGenerator: RandomSource
    /** This object seen as an `IXsltFunctionProvider`: its `NamespaceUri` and its runtime type. */
    const provider: FunctionProvider

    /** `NamespaceUri` answers "urn:Math" for every instance, and `GetType()` the class itself. */
    ghost predicate Valid()
    {
      provider.namespaceUri == NamespaceUri && provider.runtimeType.fullName == TypeName
    }

    /**
     * `new MathExtensions()`. `GetType()` answers the one `Type` of the class
     * for every instance, so that type is passed in rather than made here.
     */
    constructor (mathType: SystemType)
      requires mathType.fullName == TypeName
      ensures fresh(randomNumberGenerator) && randomNumberGenerator.draws == 0
      ensures Valid()
      ensures provider.runtimeType == mathType
    {
      randomNumberGenerator := new RandomSource();
      provider := new FunctionProvider(NamespaceUri, mathType);
    }

    /**
     * `GetRandomNumbers(min, max, count)`: one draw per element while
     * `i < count`, so no element (and no draw) when `count <= 0`. When
     * `min > max` and at least one element is wanted, the first draw throws
     * and no fragment is returned.
     */
    method GetRandomNumbers(min: int32, max: int32, count: int32) returns (r: Result<Numbers>)
      modifies randomNumberGenerator
      ensures r.Failure? <==> count > 0 && min > max
      ensures r.Failure? ==> r.error == ArgumentOutOfRange("minValue") && randomNumberGenerator.draws == old(randomNumberGenerator.draws)
      ensures r.Success? ==> |r.value.children| == (if count > 0 then count as int else 0)
      ensures r.Success? ==> forall k :: 0 <= k < |r.value.children| ==> InRange(r.value.children[k], min, max)
      ensures r.Success? ==> randomNumberGenerator.draws == old(randomNumberGenerator.draws) + |r.value.children|
    {
      var children: seq<int32> := [];
      var i: int32 := 0;
      while i < count
        invariant 0 <= i as int <= if count > 0 then count as int else 0
        invariant |children| == i as int
        invariant forall k :: 0 <= k < |children| ==> InRange(children[k], min, max)
        invariant randomNumberGenerator.draws == old(randomNumberGenerator.draws) + i as int
        invariant i > 0 ==> min <= max
      {
        var randomNumber := randomNumberGenerator.Next(min, max);
        if randomNumber.Failure? {
          return Failure(randomNumber.error);
        }
        children := children + [randomNumber.value];
        i := i + 1;
      }
      return Success(Numbers(children));
    }
  }

  /**
   * Two instances of the class share one runtime type and one namespace, so
   * given both, `Normalize` keeps the first rather than reporting a conflict.
   * This is a fact about `Normalize` alone: the program never calls it, and
   * registering both instances in one argument set fails instead at
   * `AddExtensionObject`, whose duplicate-namespace check this model leaves out.
   */
  lemma TwoInstancesKeepTheFirst(a: MathExtensions, b: MathExtensions)
    requires a.Valid() && b.Valid()
    requires a.provider.runtimeType == b.provider.runtimeType
    ensures Normalized(Some([a.provider, b.provider])) == Success([a.provider])
  {
    var ps: seq<FunctionProvider?> := [a.provider, b.provider];
    var s := NonNull(ps);
    assert s == [a.provider, b.provider] by {
      assert ps == [a.provider] + [b.provider];
      assert ps[..1] == [a.provider];
      assert NonNull(ps[..1]) == [a.provider] by {
        assert ps[..1][..0] == [];
      }
    }
    NormalizeSucceedsIffConsistent(ps);
    NormalizeKeepsFirsts(ps);
    assert s[..1] == [a.provider];
    assert b.provider.namespaceUri in NamespacesOf(s[..1]);
    assert Firsts(s[..1]) == [a.provider] by {
      assert s[..1][..0] == [];
    }
  }

  /**
   * A usage scenario, not a call the pages make (they register only their
   * own extension objects): registering the extension object with a
   * `TransformArguments` and building the argument list puts it under
   * "urn:Math", after every provider already registered, so a stylesheet
   * reaches `Modulus` and `GetRandomNumbers` through that namespace.
   */
  method RegisterMathExtensions(m: MathExtensions, arguments: MinxArguments.TransformArguments)
    returns (r: Result<ArgumentList>)
    requires m.Valid()
    modifies arguments
    ensures arguments.functionProviders == old(arguments.functionProviders) + [m.provider]
    ensures r.Success? <==> null !in old(arguments.functionProviders)
    ensures r.Failure? ==> r.error == NullReference
    ensures r.Success? ==>
      && |r.value.extensions| == |arguments.functionProviders|
      && r.value.extensions[|r.value.extensions| - 1] == Extension("urn:Math", m.provider)
  {
    arguments.functionProviders := arguments.functionProviders + [m.provider];
    r := arguments.CreateArguments();
    if r.Success? {
      assert DescribesArguments(r.value, arguments.parameters.parameters, arguments.functionProviders);
    }
  }
}
