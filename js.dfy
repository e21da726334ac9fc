/** The slice of JavaScript's value model that the console's client logic depends on:
    values as they arrive from JSON responses and form inputs, truthiness, property
    access, object spread, settled promises and error objects. */
module Js {

  datatype Option<+T> = None | Some(value: T) {
    function GetOr(default: T): T {
      match this
      case Some(v) => v
      case None => default
    }
  }

  /** A failure-compatible result: `Err` carries the value a JavaScript `throw` would carry. */
  datatype Result<+R> = Ok(value: R) | Err(error: Value) {
    predicate IsFailure() { Err? }
    function PropagateFailure<U>(): Result<U>
      requires Err?
    {
      Err(error)
    }
    function Extract(): R
      requires Ok?
    {
      value
    }
  }

  /** A JavaScript value. Numbers are exact reals; `NaN` is kept apart because the client
      produces it (parseFloat of a non-numeric text, arithmetic with undefined). */
  datatype Value =
    | Undefined
    | Null
    | Bool(b: bool)
    | Num(n: real)
    | NaN
    | Str(s: string)
    | Arr(items: seq<Value>)
    | Obj(fields: map<string, Value>)

  /** A settled promise: the outcome of one call to the backend or to a hook operation. */
  datatype Settled = Fulfilled(value: Value) | Rejected(reason: Value)

  /** The rejection `Promise.all` settles with: the first failed call, in the order the calls were made, if any. */
  function FirstRejection(outcomes: seq<Settled>): (r: Option<Value>)
    ensures r.None? <==> forall i :: 0 <= i < |outcomes| ==> outcomes[i].Fulfilled?
    ensures r.Some? ==> exists i :: 0 <= i < |outcomes| && outcomes[i] == Rejected(r.value)
  {
    if outcomes == [] then None
    else if outcomes[0].Rejected? then Some(outcomes[0].reason)
    else FirstRejection(outcomes[1..])
  }

  /** JavaScript's ToBoolean. */
  predicate Truthy(v: Value) {
    match v
    case Undefined => false
    case Null => false
    case Bool(b) => b
    case Num(n) => n != 0.0
    case NaN => false
    case Str(s) => s != ""
    case Arr(_) => true
    case Obj(_) => true
  }

  /** `undefined` or `null`: the values on which property access throws. */
  predicate Nullish(v: Value) {
    v == Undefined || v == Null
  }

  /** Property access `v.k` (and `v?.k`) on a value that does not throw: an own field of an
      object, `undefined` otherwise. */
  function Get(v: Value, k: string): (r: Value)
    ensures v.Obj? && k in v.fields ==> r == v.fields[k]
    ensures !(v.Obj? && k in v.fields) ==> r == Undefined
  {
    if v.Obj? && k in v.fields then v.fields[k] else Undefined
  }

  /** The list a mirror holds when it is given `v`: the elements of an array, nothing otherwise. */
  function Items(v: Value): seq<Value> {
    if v.Arr? then v.items else []
  }

  predicate IsDigit(c: char) {
    '0' <= c <= '9'
  }

  predicate AllDigits(s: string) {
    forall i :: 0 <= i < |s| ==> IsDigit(s[i])
  }

  function DigitValue(c: char): nat
    requires IsDigit(c)
  {
    c as int - '0' as int
  }

  function DigitChar(d: nat): (c: char)
    requires d < 10
    ensures IsDigit(c) && DigitValue(c) == d
  {
    ('0' as int + d) as char
  }

  /** The decimal text of a natural number, as `String(n)` writes it. */
  function NatToString(n: nat): (s: string)
    ensures |s| >= 1 && AllDigits(s)
  {
    if n < 10 then [DigitChar(n)] else NatToString(n / 10) + [DigitChar(n % 10)]
  }

  /** Different counts are written differently. */
  lemma {:induction false} NatToStringInjective(a: nat, b: nat)
    requires NatToString(a) == NatToString(b)
    ensures a == b
  {
    var s, t := NatToString(a), NatToString(b);
    if a < 10 && b < 10 {
      assert DigitValue(s[0]) == a && DigitValue(t[0]) == b;
    } else if a >= 10 && b >= 10 {
      assert s[|s| - 1] == t[|t| - 1];
      assert DigitValue(s[|s| - 1]) == a % 10 && DigitValue(t[|t| - 1]) == b % 10;
      assert s[..|s| - 1] == NatToString(a / 10) && t[..|t| - 1] == NatToString(b / 10);
      NatToStringInjective(a / 10, b / 10);
    }
  }

  /** The index keys `"0"`, `"1"`, … of a run of `n` elements. */
  predicate IsIndexKey(k: string, n: nat) {
    exists i :: 0 <= i < n && k == NatToString(i)
  }

  /** The fields `{...v}` gives a list of elements: each element under its index key. */
  function IndexFields(items: seq<Value>): (r: map<string, Value>)
    ensures forall k :: k in r <==> IsIndexKey(k, |items|)
  {
    if items == [] then map[]
    else
      var m := IndexFields(items[..|items| - 1]);
      var r := m[NatToString(|items| - 1) := items[|items| - 1]];
      assert forall k :: IsIndexKey(k, |items|) ==> k in r by {
        forall k | IsIndexKey(k, |items|) ensures k in r {
          var i :| 0 <= i < |items| && k == NatToString(i);
          if i < |items| - 1 {
            assert IsIndexKey(k, |items| - 1);
          }
        }
      }
      r
  }

  /** Each element sits under its own index key. */
  lemma {:induction false} IndexFieldsAt(items: seq<Value>, i: nat)
    requires i < |items|
    ensures NatToString(i) in IndexFields(items) && IndexFields(items)[NatToString(i)] == items[i]
    decreases |items|
  {
    var n := |items| - 1;
    if i < n {
      IndexFieldsAt(items[..n], i);
      if NatToString(i) == NatToString(n) {
        NatToStringInjective(i, n);
      }
    }
  }

  /** The characters of a text, each as a one-character string. */
  function Chars(s: string): (r: seq<Value>)
    ensures |r| == |s| && forall i :: 0 <= i < |s| ==> r[i] == Str([s[i]])
  {
    seq(|s|, i requires 0 <= i < |s| => Str([s[i]]))
  }

  /** The own enumerable fields that `{...v}` copies from `v`: an object's fields, an array's
      elements and a text's characters under their index keys, and nothing from `undefined`,
      `null`, a boolean or a number. */
  function Spread(v: Value): (r: map<string, Value>)
    ensures v.Obj? ==> r == v.fields
    ensures v.Arr? ==> forall k :: k in r <==> IsIndexKey(k, |v.items|)
    ensures v.Str? ==> forall k :: k in r <==> IsIndexKey(k, |v.s|)
    ensures !v.Obj? && !v.Arr? && !v.Str? ==> r == map[]
  {
    match v
    case Obj(fields) => fields
    case Arr(items) => IndexFields(items)
    case Str(s) => IndexFields(Chars(s))
    case _ => map[]
  }

  /** The `i`-th element of an array, or the `i`-th character of a text, is spread under the
      key `String(i)`. */
  lemma SpreadIndexed(v: Value, i: nat)
    requires v.Arr? ==> i < |v.items|
    requires v.Str? ==> i < |v.s|
    requires v.Arr? || v.Str?
    ensures NatToString(i) in Spread(v)
    ensures v.Arr? ==> Spread(v)[NatToString(i)] == v.items[i]
    ensures v.Str? ==> Spread(v)[NatToString(i)] == Str([v.s[i]])
  {
    if v.Arr? {
      IndexFieldsAt(v.items, i);
    } else {
      IndexFieldsAt(Chars(v.s), i);
    }
  }

  /** The shallow merge `{...a, ...b}`: every field of either, with `b` winning on shared keys. */
  function Merge(a: Value, b: Value): (r: Value)
    ensures r.Obj?
    ensures r.fields.Keys == Spread(a).Keys + Spread(b).Keys
    ensures forall k :: k in Spread(b) ==> r.fields[k] == Spread(b)[k]
    ensures forall k :: k in Spread(a) && k !in Spread(b) ==> r.fields[k] == Spread(a)[k]
  {
    Obj(Spread(a) + Spread(b))
  }

  /** `a === b` on the primitive values the client compares (ids, statuses): `NaN` equals
      nothing, and arrays and objects, compared by identity in JavaScript, are never equal here. */
  predicate StrictEquals(a: Value, b: Value) {
    a == b && a != NaN && !a.Arr? && !a.Obj?
  }

  /** The SameValueZero comparison of `Array.prototype.includes`: like `===`, except that
      `NaN` is found. */
  predicate SameValueZero(a: Value, b: Value) {
    a == b && !a.Arr? && !a.Obj?
  }

  /** `list.includes(v)`. */
  predicate Contains(list: seq<Value>, v: Value) {
    exists i :: 0 <= i < |list| && SameValueZero(list[i], v)
  }

  /** `new Error(message)`. */
  function ErrorObject(message: string): Value {
    Obj(map["message" := Str(message)])
  }

  /** `new Error(message)` for a message that is already a value of the program (the
      conversion of a non-string message to text is not modelled). */
  function NewError(message: Value): (r: Value)
    ensures Get(r, "message") == message
    ensures message.Str? ==> r == ErrorObject(message.s)
  {
    Obj(map["message" := message])
  }

  /** The TypeError a method call on a value of the wrong type throws. */
  const TypeErrorValue: Value := Obj(map["name" := Str("TypeError"), "message" := Str("TypeError")])

  /** The message an `Error` object made by `ErrorObject` carries. */
  lemma ErrorObjectMessage(message: string)
    ensures Get(ErrorObject(message), "message") == Str(message)
    ensures Truthy(Get(ErrorObject(message), "message")) <==> message != ""
  {
  }
}
