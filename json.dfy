/**
 * JSON values as serde_json produces them, without text formatting.
 * An object is a map from key to value, so keys are unique and unordered.
 */
module Json {
  import opened Common

  datatype Value =
    | Null
    | Bool(b: bool)
    | Int(i: int)
    | Num(f: Float)
    | Str(s: string)
    | Array(items: seq<Value>)
      /** An array written from a hash set: the library fixes no element order. */
    | Unordered(elements: set<Value>)
    | Obj(fields: map<string, Value>)

  type JsonObject = map<string, Value>

  /** No key occurs twice, stated element by element. */
  predicate Distinct(keys: seq<string>) {
    |keys| == 0 || (keys[0] !in keys[1..] && Distinct(keys[1..]))
  }

  /**
   * The object serde writes for a record whose fields are named `keys` and
   * hold `vals`, each field marked `skip_serializing_if = "Option::is_none"`:
   * a field is written exactly when its value is present.
   */
  function ObjectOf(keys: seq<string>, vals: seq<Option<Value>>): JsonObject
    requires |keys| == |vals|
  {
    if |keys| == 0 then map[]
    else
      var rest := ObjectOf(keys[1..], vals[1..]);
      if vals[0].Some? then rest[keys[0] := vals[0].value] else rest
  }

  /** Prepending a key that is not yet in a distinct list keeps it distinct. */
  lemma DistinctCons(k: string, rest: seq<string>)
    requires k !in rest && Distinct(rest)
    ensures Distinct([k] + rest)
  {
    assert ([k] + rest)[1..] == rest;
  }

  /** Only the record's own field names appear. */
  lemma {:induction false} ObjectOfKeys(keys: seq<string>, vals: seq<Option<Value>>)
    requires |keys| == |vals|
    ensures forall k :: k in ObjectOf(keys, vals) ==> k in keys
  {
    if |keys| > 0 {
      ObjectOfKeys(keys[1..], vals[1..]);
      forall k | k in ObjectOf(keys, vals)
        ensures k in keys
      {
        if k != keys[0] {
          assert k in keys[1..];
        }
      }
    }
  }

  /** Field `i` is written iff its value is present, and then with that value. */
  lemma {:induction false} ObjectOfAt(keys: seq<string>, vals: seq<Option<Value>>, i: nat)
    requires |keys| == |vals| && Distinct(keys) && i < |keys|
    ensures keys[i] in ObjectOf(keys, vals) <==> vals[i].Some?
    ensures vals[i].Some? ==> ObjectOf(keys, vals)[keys[i]] == vals[i].value
  {
    if i > 0 {
      assert keys[i] == keys[1..][i - 1];
      ObjectOfAt(keys[1..], vals[1..], i - 1);
    } else {
      ObjectOfKeys(keys[1..], vals[1..]);
    }
  }

  /** Setting field `i` to a present value changes the object at that key alone. */
  lemma {:induction false} ObjectOfUpdate(keys: seq<string>, vals: seq<Option<Value>>, i: nat, v: Value)
    requires |keys| == |vals| && Distinct(keys) && i < |keys|
    ensures ObjectOf(keys, vals[i := Some(v)]) == ObjectOf(keys, vals)[keys[i] := v]
  {
    if i > 0 {
      assert vals[i := Some(v)][1..] == vals[1..][i - 1 := Some(v)];
      assert keys[i] == keys[1..][i - 1];
      ObjectOfUpdate(keys[1..], vals[1..], i - 1, v);
    } else {
      assert vals[i := Some(v)][1..] == vals[1..];
    }
  }

  /** Making field `i` absent removes its key and changes nothing else. */
  lemma {:induction false} ObjectOfClear(keys: seq<string>, vals: seq<Option<Value>>, i: nat)
    requires |keys| == |vals| && Distinct(keys) && i < |keys|
    ensures ObjectOf(keys, vals[i := None]) == ObjectOf(keys, vals) - {keys[i]}
  {
    if i > 0 {
      assert vals[i := None][1..] == vals[1..][i - 1 := None];
      assert keys[i] == keys[1..][i - 1];
      ObjectOfClear(keys[1..], vals[1..], i - 1);
    } else {
      assert vals[i := None][1..] == vals[1..];
      ObjectOfKeys(keys[1..], vals[1..]);
    }
  }

  /** A record with every field absent is the empty object. */
  lemma {:induction false} ObjectOfNone(keys: seq<string>, vals: seq<Option<Value>>)
    requires |keys| == |vals|
    requires forall i :: 0 <= i < |vals| ==> vals[i].None?
    ensures ObjectOf(keys, vals) == map[]
  {
    if |keys| > 0 {
      ObjectOfNone(keys[1..], vals[1..]);
    }
  }

  function OptStr(o: Option<string>): (v: Option<Value>)
    ensures v.Some? <==> o.Some?
    ensures o.Some? ==> v.value == Str(o.value)
  {
    if o.Some? then Some(Str(o.value)) else None
  }

  function OptBool(o: Option<bool>): (v: Option<Value>)
    ensures v.Some? <==> o.Some?
    ensures o.Some? ==> v.value == Bool(o.value)
  {
    if o.Some? then Some(Bool(o.value)) else None
  }

  function OptInt(o: Option<int>): (v: Option<Value>)
    ensures v.Some? <==> o.Some?
    ensures o.Some? ==> v.value == Int(o.value)
  {
    if o.Some? then Some(Int(o.value)) else None
  }
}
