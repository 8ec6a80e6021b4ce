/**
 * Already-parsed JSON values (RFC 8259) and the decoding rules of Go's
 * `encoding/json` restated on the value tree:
 *   - `null` decodes into any Go type as its zero value, with no error;
 *   - an absent struct field keeps its zero value;
 *   - unknown object members are ignored;
 *   - a value of the wrong JSON kind is an error (`None`).
 * Objects keep their members in text order; a lookup returns the LAST member
 * with the key, as `encoding/json` does for a repeated key when it decodes
 * into a map or a `json.RawMessage`.  Struct fields are read through the
 * same lookup, which does not follow Go's handling of a key repeated in a
 * struct (each occurrence decoded into the field in turn).
 */
module Json {
  import opened Wrappers
  import opened Text

  datatype Value =
    | Null
    | Bool(b: bool)
    | Number(literal: Str)
    | String(s: Str)
    | Array(items: seq<Value>)
    | Object(members: seq<Member>)

  datatype Member = Member(key: Str, value: Value)

  /** The value of the last member named `key`, if any. */
  function Lookup(members: seq<Member>, key: Str): (r: Option<Value>)
    ensures r.None? <==> forall i :: 0 <= i < |members| ==> members[i].key != key
    ensures r.Some? ==> exists i :: 0 <= i < |members| && members[i] == Member(key, r.value)
    ensures r.Some? ==> exists i :: (0 <= i < |members| && members[i] == Member(key, r.value) &&
                                     forall j :: i < j < |members| ==> members[j].key != key)
    decreases |members|
  {
    if members == [] then None
    else if members[|members| - 1].key == key then Some(members[|members| - 1].value)
    else
      var r := Lookup(members[..|members| - 1], key);
      assert forall i :: 0 <= i < |members| - 1 ==> members[..|members| - 1][i] == members[i];
      r
  }

  /** Lookup in a two-member object: the second member wins over the first. */
  lemma LookupPair(a: Member, b: Member, key: Str)
    ensures Lookup([a, b], key) == if b.key == key then Some(b.value) else if a.key == key then Some(a.value) else None
  {
    assert [a, b][..1] == [a];
    assert [a][..0] == [];
  }

  /** The number of nodes of a value tree. */
  function Size(v: Value): nat {
    match v
    case Array(items) => 1 + SizeSum(items)
    case Object(members) => 1 + MemberSizeSum(members)
    case _ => 1
  }

  function SizeSum(vs: seq<Value>): nat
    decreases vs
  {
    if vs == [] then 0 else SizeSum(vs[..|vs| - 1]) + Size(vs[|vs| - 1])
  }

  function MemberSizeSum(ms: seq<Member>): nat
    decreases ms
  {
    if ms == [] then 0 else MemberSizeSum(ms[..|ms| - 1]) + Size(ms[|ms| - 1].value)
  }

  lemma {:induction false} MemberSizeBound(ms: seq<Member>, i: nat)
    requires i < |ms|
    ensures Size(ms[i].value) <= MemberSizeSum(ms)
    decreases |ms|
  {
    if i < |ms| - 1 {
      MemberSizeBound(ms[..|ms| - 1], i);
    }
  }

  /** The value found by `Lookup` is a strict part of the object. */
  lemma LookupSmaller(members: seq<Member>, key: Str)
    requires Lookup(members, key).Some?
    ensures Size(Lookup(members, key).value) < Size(Object(members))
  {
    var i :| 0 <= i < |members| && members[i] == Member(key, Lookup(members, key).value);
    MemberSizeBound(members, i);
  }

  /** Go decoding into a struct type accepts an object or `null`. */
  predicate IsStruct(v: Value) {
    v.Object? || v.Null?
  }

  /** The member a struct field decodes from; absent members read as `null`. */
  function Field(v: Value, key: Str): Value {
    if v.Object? then
      match Lookup(v.members, key)
      case Some(x) => x
      case None => Null
    else Null
  }

  /** A `json.RawMessage` field: the member's value, or `None` (a nil slice) when absent. */
  function RawField(v: Value, key: Str): Option<Value> {
    if v.Object? then Lookup(v.members, key) else None
  }

  /** Decoding into `map[string]json.RawMessage`; `null` gives a nil map. */
  function RawObject(v: Value): (r: Option<seq<Member>>)
    ensures r.Some? <==> IsStruct(v)
    ensures v.Object? ==> r == Some(v.members)
    ensures v.Null? ==> r == Some([])
  {
    match v
    case Object(ms) => Some(ms)
    case Null => Some([])
    case _ => None
  }

  function DecodeString(v: Value): (r: Option<Str>)
    ensures r.Some? <==> (v.String? || v.Null?)
    ensures v.String? ==> r == Some(v.s)
    ensures v.Null? ==> r == Some("")
  {
    match v
    case String(s) => Some(s)
    case Null => Some("")
    case _ => None
  }

  function DecodeBool(v: Value): (r: Option<bool>)
    ensures r.Some? <==> (v.Bool? || v.Null?)
    ensures v.Bool? ==> r == Some(v.b)
    ensures v.Null? ==> r == Some(false)
  {
    match v
    case Bool(b) => Some(b)
    case Null => Some(false)
    case _ => None
  }

  /** Decoding into a slice `[]T`, element by element. */
  function DecodeList<T>(v: Value, dec: Value -> Option<T>): (r: Option<seq<T>>)
    ensures v.Null? ==> r == Some([])
    ensures !v.Null? && !v.Array? ==> r.None?
    ensures v.Array? ==> (r.Some? <==> forall i :: 0 <= i < |v.items| ==> dec(v.items[i]).Some?)
    ensures v.Array? && r.Some? ==>
      |r.value| == |v.items| && forall i :: 0 <= i < |v.items| ==> dec(v.items[i]) == Some(r.value[i])
  {
    match v
    case Null => Some([])
    case Array(items) => DecodeItems(items, dec)
    case _ => None
  }

  function DecodeItems<T>(items: seq<Value>, dec: Value -> Option<T>): (r: Option<seq<T>>)
    ensures r.Some? <==> forall i :: 0 <= i < |items| ==> dec(items[i]).Some?
    ensures r.Some? ==>
      |r.value| == |items| && forall i :: 0 <= i < |items| ==> dec(items[i]) == Some(r.value[i])
    decreases |items|
  {
    if items == [] then Some([])
    else
      var init := items[..|items| - 1];
      assert forall i :: 0 <= i < |items| - 1 ==> init[i] == items[i];
      match (DecodeItems(init, dec), dec(items[|items| - 1]))
      case (Some(xs), Some(x)) => Some(xs + [x])
      case _ => None
  }

  function DecodeStrings(v: Value): Option<seq<Str>> {
    DecodeList(v, DecodeString)
  }

  /** Decoding into `map[string]T`: every member's value must decode; a repeated key keeps its last value. */
  function DecodeMap<T>(v: Value, dec: Value -> Option<T>): (r: Option<map<Str, T>>)
    ensures v.Null? ==> r == Some(map[])
    ensures !IsStruct(v) ==> r.None?
    ensures v.Object? ==> r == DecodeMembers(v.members, dec)
  {
    match v
    case Null => Some(map[])
    case Object(ms) => DecodeMembers(ms, dec)
    case _ => None
  }

  function DecodeMembers<T>(ms: seq<Member>, dec: Value -> Option<T>): (r: Option<map<Str, T>>)
    ensures r.Some? <==> forall i :: 0 <= i < |ms| ==> dec(ms[i].value).Some?
    ensures r.Some? ==> forall k :: k in r.value <==> Lookup(ms, k).Some?
    ensures r.Some? ==> forall k :: k in r.value ==> dec(Lookup(ms, k).value) == Some(r.value[k])
    decreases |ms|
  {
    if ms == [] then Some(map[])
    else
      var init := ms[..|ms| - 1];
      assert forall i :: 0 <= i < |ms| - 1 ==> init[i] == ms[i];
      match (DecodeMembers(init, dec), dec(ms[|ms| - 1].value))
      case (Some(m), Some(x)) => Some(m[ms[|ms| - 1].key := x])
      case _ => None
  }
}
