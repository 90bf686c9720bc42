/** Values held in a parsed configuration (a ".param" or ".director" file),
    the errors the configuration layer raises, and the lookups it performs
    on values (indexing into a list value, converting a number to a float). */
module ConfigValues {

  /** One configuration value as the config parser infers it from text:
      an integer, a float, a string, or a list of such values. */
  datatype Value =
    | IntVal(i: int)
    | RealVal(r: real)
    | StrVal(s: string)
    | ListVal(items: seq<Value>)

  /** A parsed configuration: keys (including comment annotations such as
      "#sigma_max") mapped to values. */
  type Config = map<string, Value>

  /** The exceptions the modelled code raises. */
  datatype Error =
    | NotFound(key: string)                    // getpar: key in neither map (ValueError)
    | MissingKey(key: string)                  // d[key] on an absent key (KeyError)
    | NotAList(key: string)                    // d[key][i] on a scalar value (TypeError)
    | IndexOutOfRange(key: string, index: nat) // d[key][i] past the list's end (IndexError)
    | NotANumber                               // arithmetic or float() on a non-number
    | DivisionByZero                           // ZeroDivisionError
    | ROrbOutOfRange                           // setup_param: r_orb outside [0, 1] (ValueError)

  datatype Option<+T> = None | Some(value: T) {
    function GetOr(default: T): T {
      match this
      case Some(v) => v
      case None => default
    }
  }

  datatype Result<+T> = Success(value: T) | Failure(error: Error) {
    predicate IsFailure() { Failure? }

    function PropagateFailure<U>(): Result<U>
      requires Failure?
    {
      Failure(error)
    }

    function Extract(): T
      requires Success?
    {
      value
    }
  }

  predicate IsNumber(v: Value) {
    v.IntVal? || v.RealVal?
  }

  /** The value of a number as a real (Python's float(v) on an int or a float). */
  function RealOf(v: Value): (x: real)
    requires IsNumber(v)
    ensures v.IntVal? ==> x == v.i as real
    ensures v.RealVal? ==> x == v.r
  {
    if v.IntVal? then v.i as real else v.r
  }

  /** Python's float(v) on a parsed value. The parser turns every token that
      reads as a number into an IntVal or a RealVal, so a string value never
      converts, and a list never does. */
  function AsReal(v: Value): (x: Result<real>)
    ensures x.Success? <==> IsNumber(v)
    ensures x.Success? ==> x.value == RealOf(v)
    ensures x.Failure? ==> x.error == NotANumber
  {
    if IsNumber(v) then Success(RealOf(v)) else Failure(NotANumber)
  }

  /** Python's c[key][i] for a list-valued key. */
  function Element(c: Config, key: string, i: nat): (r: Result<Value>)
    ensures r.Success? <==> key in c && c[key].ListVal? && i < |c[key].items|
    ensures r.Success? ==> r.value == c[key].items[i]
    ensures key !in c ==> r == Failure(MissingKey(key))
    ensures key in c && !c[key].ListVal? ==> r == Failure(NotAList(key))
    ensures key in c && c[key].ListVal? && i >= |c[key].items| ==> r == Failure(IndexOutOfRange(key, i))
  {
    if key !in c then Failure(MissingKey(key))
    else match c[key]
      case ListVal(items) =>
        if i < |items| then Success(items[i]) else Failure(IndexOutOfRange(key, i))
      case _ => Failure(NotAList(key))
  }
}
