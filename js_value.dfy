/**
 * The JavaScript values the strategy handles: the parsed request body, the
 * decoded canvas payload, the profile and the user. Only the behaviour the
 * strategy observes is modelled: truthiness, reading an own property, and
 * `Object.assign` copying a value's own enumerable entries.
 */
module JsValue {
  import opened JsString

  datatype Option<+T> = None | Some(value: T)

  /** How a JavaScript expression completes: with a value, or by throwing. */
  datatype Completion<+T, +E> = Normal(value: T) | Throw(error: E) {
    predicate IsFailure() { Throw? }

    function PropagateFailure<U>(): Completion<U, E>
      requires Throw?
    {
      Throw(error)
    }

    function Extract(): T
      requires Normal?
    {
      value
    }
  }

  /** A JSON-shaped JavaScript value (numbers are kept integral). */
  datatype Value =
    | Undefined
    | Null
    | Bool(b: bool)
    | Num(n: int)
    | Str(s: string)
    | Arr(items: seq<Value>)
    | Obj(fields: map<string, Value>)

  /** JavaScript's truthiness: `undefined`, `null`, `false`, `0` and `''` are falsy. */
  predicate Truthy(v: Value) {
    match v
    case Undefined => false
    case Null => false
    case Bool(b) => b
    case Num(n) => n != 0
    case Str(s) => s != ""
    case Arr(_) => true
    case Obj(_) => true
  }

  /** Reading a property of these values throws a TypeError. */
  predicate Nullish(v: Value) {
    v.Undefined? || v.Null?
  }

  /** `v[key]` on a value that is not nullish, for a key that is not an array
      index and names no built-in property: an object's own entry, or `undefined`. */
  function Get(v: Value, key: string): (r: Value)
    ensures r != Undefined ==> v.Obj? && key in v.fields && v.fields[key] == r
    ensures v.Obj? && key in v.fields ==> r == v.fields[key]
  {
    if v.Obj? && key in v.fields then v.fields[key] else Undefined
  }

  /** The entries `Object.assign` copies out of a source value. */
  function OwnEntries(v: Value): map<string, Value> {
    match v
    case Obj(fields) => fields
    case Arr(items) => IndexedEntries(items)
    case Str(s) => IndexedEntries(Characters(s))
    case _ => map[]
  }

  /** A string's characters, as the one-character strings its indices hold. */
  function Characters(s: string): (cs: seq<Value>)
    ensures |cs| == |s|
    ensures forall i :: 0 <= i < |s| ==> cs[i] == Str([s[i]])
  {
    if s == [] then [] else Characters(s[..|s| - 1]) + [Str([s[|s| - 1]])]
  }

  /** The index-keyed entries of an array-like value. */
  function IndexedEntries(xs: seq<Value>): map<string, Value> {
    if xs == [] then map[]
    else IndexedEntries(xs[..|xs| - 1])[DecimalString(|xs| - 1) := xs[|xs| - 1]]
  }

  /** An array-like value contributes exactly one entry per index, keyed by
      the index's decimal spelling and holding the element at that index. */
  lemma {:induction false} IndexedEntriesAt(xs: seq<Value>)
    ensures forall i :: 0 <= i < |xs| ==>
      DecimalString(i) in IndexedEntries(xs) && IndexedEntries(xs)[DecimalString(i)] == xs[i]
    ensures forall k :: k in IndexedEntries(xs) ==> exists i :: 0 <= i < |xs| && k == DecimalString(i)
    decreases |xs|
  {
    if xs != [] {
      var n := |xs| - 1;
      var init := xs[..n];
      var m := IndexedEntries(init);
      assert IndexedEntries(xs) == m[DecimalString(n) := xs[n]];
      IndexedEntriesAt(init);
      forall i | 0 <= i < n
        ensures DecimalString(i) in IndexedEntries(xs) && IndexedEntries(xs)[DecimalString(i)] == xs[i]
      {
        if DecimalString(i) == DecimalString(n) {
          DecimalStringInjective(i, n);
        }
        assert init[i] == xs[i];
      }
      forall k | k in IndexedEntries(xs)
        ensures exists i :: 0 <= i < |xs| && k == DecimalString(i)
      {
        if k != DecimalString(n) {
          assert k in m;
          var i :| 0 <= i < n && k == DecimalString(i);
        }
      }
    }
  }

  /** `Object.assign(target, source)` on a plain-object target: the source's
      entries override the target's, and the target's other entries stay. */
  function AssignFrom(target: map<string, Value>, source: Value): (r: map<string, Value>)
    ensures r.Keys == target.Keys + OwnEntries(source).Keys
    ensures forall k :: k in OwnEntries(source) ==> r[k] == OwnEntries(source)[k]
    ensures forall k :: k in target && k !in OwnEntries(source) ==> r[k] == target[k]
    ensures Nullish(source) ==> r == target
  {
    target + OwnEntries(source)
  }
}
