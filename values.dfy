/**
 * The dynamic values that flow through the application: the parsed JSON the
 * language model returns and the values stored in the per-user session
 * state (dicts, lists, strings, ...), together with Python's truthiness.
 */
module Values {

  /** The conventional optional value; `:-` propagates `None`. */
  datatype Option<+T> = None | Some(value: T) {
    predicate IsFailure() {
      None?
    }

    function PropagateFailure<U>(): Option<U>
      requires None?
    {
      None
    }

    function Extract(): T
      requires Some?
    {
      value
    }
  }

  /** A Python value as produced by `json.loads` or kept in the session state. */
  datatype Value =
    | VNone
    | VBool(b: bool)
    | VInt(i: int)
    | VStr(s: string)
    | VList(items: seq<Value>)
    | VDict(fields: map<string, Value>)

  /** Python's `bool(v)`: `None`, `False`, `0` and empty containers are false. */
  predicate Truthy(v: Value) {
    match v
    case VNone => false
    case VBool(b) => b
    case VInt(i) => i != 0
    case VStr(s) => s != ""
    case VList(items) => items != []
    case VDict(fields) => fields != map[]
  }

  /** Python's `d.get(key, default)` on a dict. */
  function GetOr(d: map<string, Value>, key: string, default: Value): Value {
    if key in d then d[key] else default
  }

  /** A list of strings as the JSON array of strings it is stored as. */
  function StringsValue(xs: seq<string>): (v: Value)
    ensures v.VList? && |v.items| == |xs|
    ensures forall i :: 0 <= i < |xs| ==> v.items[i] == VStr(xs[i])
  {
    VList(seq(|xs|, i requires 0 <= i < |xs| => VStr(xs[i])))
  }

  /** Reads a JSON array back as a list of strings; `None` when an item is not a string. */
  function DecodeStrings(items: seq<Value>): (r: Option<seq<string>>)
    ensures r.Some? ==> |r.value| == |items|
    ensures r.Some? ==> forall i :: 0 <= i < |items| ==> items[i] == VStr(r.value[i])
  {
    if items == [] then Some([])
    else if !items[0].VStr? then None
    else
      var rest :- DecodeStrings(items[1..]);
      Some([items[0].s] + rest)
  }

  /** Decoding succeeds exactly when every item is a string. */
  lemma {:induction false} DecodeStringsSucceeds(items: seq<Value>)
    ensures DecodeStrings(items).Some? <==> forall i :: 0 <= i < |items| ==> items[i].VStr?
  {
    if items != [] {
      DecodeStringsSucceeds(items[1..]);
      if items[0].VStr? && DecodeStrings(items[1..]).Some? {
        assert forall i :: 1 <= i < |items| ==> items[i] == items[1..][i - 1];
      }
    }
  }

  /** Encoding a list of strings and decoding it gives the list back. */
  lemma {:induction false} DecodeStringsValue(xs: seq<string>)
    ensures DecodeStrings(StringsValue(xs).items) == Some(xs)
  {
    if xs != [] {
      assert StringsValue(xs).items[1..] == StringsValue(xs[1..]).items;
      DecodeStringsValue(xs[1..]);
      assert [xs[0]] + xs[1..] == xs;
    }
  }
}
