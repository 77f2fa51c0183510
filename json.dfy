/** Values as they reach the model classes through keyword arguments, and the clock. */
module Json {
  import opened Wrappers

  /** A timestamp as `datetime.now().timestamp()` returns it; only equality is ever used. */
  type Timestamp = int

  /** A JSON value handed to a setter: a string, an integer, a float or a list of ids. */
  datatype Value = Str(s: string) | Int(i: int) | Float(r: real) | StrList(items: seq<string>)

  /** `isinstance(value, (int, float))`, and the number it stands for. */
  function AsNumber(v: Value): (n: Option<real>)
    ensures n.Some? <==> v.Int? || v.Float?
    ensures v.Int? ==> n == Some(v.i as real)
    ensures v.Float? ==> n == Some(v.r)
  {
    match v
    case Int(i) => Some(i as real)
    case Float(r) => Some(r)
    case _ => None
  }

  /** The value the last `key` entry of `kwargs` carries, or `default` when no entry has that key. */
  function LastValue<V>(kwargs: seq<(string, V)>, key: string, default: V): V
    decreases |kwargs|
  {
    if kwargs == [] then default
    else LastValue(kwargs[1..], key, if kwargs[0].0 == key then kwargs[0].1 else default)
  }

  lemma {:induction false} LastValueAbsent<V>(kwargs: seq<(string, V)>, key: string, default: V)
    requires forall i :: 0 <= i < |kwargs| ==> kwargs[i].0 != key
    ensures LastValue(kwargs, key, default) == default
    decreases |kwargs|
  {
    if kwargs != [] {
      assert kwargs[0].0 != key;
      LastValueAbsent(kwargs[1..], key, default);
    }
  }

  lemma {:induction false} LastValueIsLast<V>(kwargs: seq<(string, V)>, key: string, default: V, i: nat)
    requires i < |kwargs| && kwargs[i].0 == key
    requires forall j :: i < j < |kwargs| ==> kwargs[j].0 != key
    ensures LastValue(kwargs, key, default) == kwargs[i].1
    decreases |kwargs|
  {
    if i == 0 {
      LastValueAbsent(kwargs[1..], key, kwargs[0].1);
    } else {
      LastValueIsLast(kwargs[1..], key, if kwargs[0].0 == key then kwargs[0].1 else default, i - 1);
    }
  }
}
