/**
 * The pieces of Python the tools lean on, made explicit: an expression either
 * returns a value or raises an exception, and `in`, subscripting, `.keys()`,
 * `sorted(...)[-1]`, truthiness and `str()` behave on JSON values as CPython
 * 3.11 does.
 */
module Python {
  import opened Json
  import LexOrder

  /** An `Optional` value: `None`, or a present value. */
  datatype Option<+T> = None | Some(value: T)

  /** The exceptions that can arise in the modelled code. */
  datatype PyException =
    | KeyError(key: string)
    | IndexError(message: string)
    | TypeError(message: string)
    | AttributeError(message: string)
      /** `requests.HTTPError` from `raise_for_status()`. */
    | HTTPError(status: nat, reason: string, url: string)
      /** Any other `requests.RequestException` raised by `requests.get`. */
    | RequestFailure(message: string)
    | UnboundLocalError(name: string)
  {
    /** `isinstance(e, requests.RequestException)` */
    predicate IsRequestException() {
      HTTPError? || RequestFailure?
    }

    /** `str(e)` */
    function Str(): string {
      match this
      case KeyError(key) => "'" + key + "'"
      case IndexError(message) => message
      case TypeError(message) => message
      case AttributeError(message) => message
      case HTTPError(status, reason, url) =>
        NatToString(status) + (if status < 500 then " Client Error: " else " Server Error: ")
        + reason + " for url: " + url
      case RequestFailure(message) => message
      case UnboundLocalError(name) =>
        "cannot access local variable '" + name + "' where it is not associated with a value"
    }
  }

  /** The outcome of evaluating Python code: a value, or a raised exception. */
  datatype Py<+T> = Returns(value: T) | Raises(exception: PyException) {
    predicate IsFailure() {
      Raises?
    }

    function PropagateFailure<U>(): Py<U>
      requires Raises?
    {
      Raises(exception)
    }

    function Extract(): T
      requires Returns?
    {
      value
    }
  }

  /** `needle` occurs as a contiguous piece of `hay`. */
  predicate IsSubstring(needle: string, hay: string)
    decreases |hay|
  {
    needle <= hay || (|hay| > 0 && IsSubstring(needle, hay[1..]))
  }

  /** `needle` occurs in `hay` starting at index `i`. */
  predicate OccursAt(needle: string, hay: string, i: int) {
    0 <= i && i + |needle| <= |hay| && hay[i..i + |needle|] == needle
  }

  /** `IsSubstring` agrees with the positional definition of a substring. */
  lemma {:induction false} IsSubstringAt(needle: string, hay: string)
    ensures IsSubstring(needle, hay) <==> exists i :: OccursAt(needle, hay, i)
    decreases |hay|
  {
    if needle <= hay {
      assert OccursAt(needle, hay, 0);
    } else if |hay| > 0 {
      IsSubstringAt(needle, hay[1..]);
      if exists i :: OccursAt(needle, hay, i) {
        var i :| OccursAt(needle, hay, i);
        assert i != 0;
        assert hay[1..][i - 1..i - 1 + |needle|] == hay[i..i + |needle|];
        assert OccursAt(needle, hay[1..], i - 1);
      }
      if IsSubstring(needle, hay[1..]) {
        var i :| OccursAt(needle, hay[1..], i);
        assert hay[1..][i..i + |needle|] == hay[i + 1..i + 1 + |needle|];
        assert OccursAt(needle, hay, i + 1);
      }
    } else {
      assert forall i :: !OccursAt(needle, hay, i);
    }
  }

  /** `key in container` */
  function Contains(container: Json, key: string): (r: Py<bool>)
    ensures r.Raises? <==> !(container.JObject? || container.JArray? || container.JString?)
    ensures r.Raises? ==> r.exception.TypeError?
    ensures container.JObject? ==> r == Returns(key in container.fields)
    ensures container.JArray? ==> r == Returns(JString(key) in container.items)
    ensures container.JString? ==> r == Returns(IsSubstring(key, container.s))
  {
    match container
    case JObject(fields) => Returns(key in fields)
    case JArray(items) => Returns(JString(key) in items)
    case JString(s) => Returns(IsSubstring(key, s))
    case _ => Raises(TypeError("argument of type '" + TypeName(container) + "' is not iterable"))
  }

  /** `container[key]` with a `str` key */
  function Subscript(container: Json, key: string): (r: Py<Json>)
    ensures r.Returns? <==> container.JObject? && key in container.fields
    ensures r.Returns? ==> r.value == container.fields[key]
    ensures container.JObject? && key !in container.fields ==> r == Raises(KeyError(key))
  {
    match container
    case JObject(fields) => if key in fields then Returns(fields[key]) else Raises(KeyError(key))
    case JArray(_) => Raises(TypeError("list indices must be integers or slices, not str"))
    case JString(_) => Raises(TypeError("string indices must be integers, not 'str'"))
    case _ => Raises(TypeError("'" + TypeName(container) + "' object is not subscriptable"))
  }

  /** `container.keys()` */
  function KeysOf(container: Json): (r: Py<set<string>>)
    ensures r.Returns? <==> container.JObject?
    ensures r.Returns? ==> r.value == container.fields.Keys
  {
    match container
    case JObject(fields) => Returns(fields.Keys)
    case _ => Raises(AttributeError("'" + TypeName(container) + "' object has no attribute 'keys'"))
  }

  /** `sorted(keys)[-1]`: the greatest key, or IndexError on an empty list. */
  function LastOfSorted(keys: set<string>): (r: Py<string>)
    ensures keys == {} <==> r == Raises(IndexError("list index out of range"))
    ensures r.Returns? <==> keys != {}
    ensures r.Returns? ==> LexOrder.IsGreatest(r.value, keys)
  {
    if keys == {} then Raises(IndexError("list index out of range")) else Returns(LexOrder.Latest(keys))
  }

  /** `bool(value)` */
  predicate Truthy(value: Json) {
    match value
    case JNull => false
    case JBool(b) => b
    case JNumber(n) => n != 0
    case JString(s) => s != ""
    case JArray(items) => items != []
    case JObject(fields) => fields != map[]
  }

  /** `str(value)` as an f-string renders it; see README, "Left out", for lists and dicts. */
  function Display(value: Json): string {
    match value
    case JNull => "None"
    case JBool(b) => if b then "True" else "False"
    case JNumber(n) => if n < 0 then "-" + NatToString(-n) else NatToString(n)
    case JString(s) => s
    case JArray(_) => "<list>"
    case JObject(_) => "<dict>"
  }

  /** `f"{s}"` for an `Optional[str]`: `None` is rendered as the text "None". */
  function FormatOptional(s: Option<string>): string {
    match s
    case None => "None"
    case Some(v) => v
  }

  function DigitChar(d: nat): (c: char)
    requires d < 10
    ensures '0' <= c <= '9'
  {
    "0123456789"[d]
  }

  /** Decimal digits of `n`, no sign, no leading zeros. */
  function NatToString(n: nat): (s: string)
    ensures |s| > 0 && forall i :: 0 <= i < |s| ==> '0' <= s[i] <= '9'
    decreases n
  {
    if n < 10 then [DigitChar(n)] else NatToString(n / 10) + [DigitChar(n % 10)]
  }
}
