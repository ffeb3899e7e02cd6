/** The values that object graphs and JSON documents stand for, and the round trips between
    them. */
module JsonValues {
  import opened PyJson
  import opened JsonGraph

  /** A Python value without identity: what remains of an object graph when sharing is
      forgotten.  Dicts here have string keys. */
  datatype PyVal = VNone | VBool(b: bool) | VInt(i: int) | VFloat(bits: nat) | VStr(s: string) | VBytes(base64: string)
                 | VTuple(items: seq<PyVal>) | VList(items: seq<PyVal>) | VDict(members: map<string, PyVal>)

  ghost predicate Distinct<T>(keys: seq<T>) {
    forall i, j :: 0 <= i < j < |keys| ==> keys[i] != keys[j]
  }

  /** The object r of the heap stands for v. */
  ghost predicate Denotes(heap: map<Ref, PyObj>, r: Ref, v: PyVal)
    decreases v
  {
    r in heap &&
    var o := heap[r];
    match v
    case VNone => o.PyNone?
    case VBool(b) => o == PyBool(b)
    case VInt(i) => o == PyInt(i)
    case VFloat(bits) => o == PyFloat(bits)
    case VStr(s) => o == PyStr(s)
    case VBytes(base64) => o == PyBytes(base64)
    case VTuple(vs) =>
      o.PyTuple? && |o.items| == |vs| && forall i :: 0 <= i < |vs| ==> Denotes(heap, o.items[i], vs[i])
    case VList(vs) =>
      o.PyList? && |o.items| == |vs| && forall i :: 0 <= i < |vs| ==> Denotes(heap, o.items[i], vs[i])
    case VDict(m) =>
      && o.PyDict? && |o.keys| == |o.values| && Distinct(o.keys)
      && (forall k :: k in m ==> k in o.keys)
      && forall i :: 0 <= i < |o.keys| ==> o.keys[i] in m && Denotes(heap, o.values[i], m[o.keys[i]])
  }

  /** to_json on values: identity and sharing play no part. */
  function Encode(v: PyVal): Json {
    match v
    case VNone => JNull
    case VBool(b) => JBool(b)
    case VInt(i) => if IntJson(i).Ok? then IntJson(i).value else JNull
    case VFloat(bits) => JFloat(bits)
    case VStr(s) => JString(s)
    case VBytes(base64) => JString(base64)
    case VTuple(vs) => JArray(seq(|vs|, i requires 0 <= i < |vs| => Encode(vs[i])))
    case VList(vs) => JArray(seq(|vs|, i requires 0 <= i < |vs| => Encode(vs[i])))
    case VDict(m) => JObject(map k | k in m :: Encode(m[k]))
  }

  predicate InRange(v: PyVal) {
    match v
    case VInt(i) => INT64_MIN <= i <= UINT64_MAX
    case VTuple(vs) => forall i :: 0 <= i < |vs| ==> InRange(vs[i])
    case VList(vs) => forall i :: 0 <= i < |vs| ==> InRange(vs[i])
    case VDict(m) => forall k :: k in m ==> InRange(m[k])
    case VNone => true
    case VBool(_) => true
    case VFloat(_) => true
    case VStr(_) => true
    case VBytes(_) => true
  }

  /** from_json, branch by branch: the unsigned test comes first because an unsigned number
      also counts as an integer. */
  predicate IsNumberUnsigned(j: Json) { j.JUint? }
  predicate IsNumberInteger(j: Json) { j.JInt? || j.JUint? }

  function Decode(j: Json): PyVal {
    match j
    case JNull => VNone
    case JBool(b) => VBool(b)
    case JUint(u) => VInt(u)
    case JInt(i) => VInt(i)
    case JFloat(bits) => VFloat(bits)
    case JString(s) => VStr(s)
    case JArray(items) => VList(seq(|items|, i requires 0 <= i < |items| => Decode(items[i])))
    case JObject(members) => VDict(map k | k in members :: Decode(members[k]))
  }

  // ----- Objects and their values -----

  lemma {:induction false} AssignedDistinct<T>(keys: seq<string>, values: seq<T>)
    requires |keys| == |values| && Distinct(keys)
    ensures forall i :: 0 <= i < |keys| ==> keys[i] in Assigned(keys, values) && Assigned(keys, values)[keys[i]] == values[i]
    ensures forall k :: k in Assigned(keys, values) ==> k in keys
    decreases |keys|
  {
    if keys != [] {
      AssignedDistinct(keys[..|keys| - 1], values[..|keys| - 1]);
    }
  }

  /** What to_json returns depends only on the value: shared and copied parts look the same. */
  lemma {:induction false} ConvIsEncode(heap: map<Ref, PyObj>, r: Ref, refs: set<Ref>, v: PyVal)
    requires Closed(heap) && Denotes(heap, r, v) && Conv(heap, r, refs).Ok?
    ensures Conv(heap, r, refs) == Ok(Encode(v))
    decreases v
  {
    match v
    case VNone => case VBool(_) => case VInt(_) => case VFloat(_) => case VStr(_) => case VBytes(_) =>
    case VTuple(vs) =>
      var values := ConvAll(heap, heap[r].items, refs + {r}).value;
      forall i | 0 <= i < |vs|
        ensures values[i] == Encode(vs[i])
      {
        ConvAllOk(heap, heap[r].items, refs + {r}, i);
        ConvIsEncode(heap, heap[r].items[i], refs + {r}, vs[i]);
      }
      assert values == Encode(v).items;
    case VList(vs) =>
      var values := ConvAll(heap, heap[r].items, refs + {r}).value;
      forall i | 0 <= i < |vs|
        ensures values[i] == Encode(vs[i])
      {
        ConvAllOk(heap, heap[r].items, refs + {r}, i);
        ConvIsEncode(heap, heap[r].items[i], refs + {r}, vs[i]);
      }
      assert values == Encode(v).items;
    case VDict(m) =>
      var keys, rs := heap[r].keys, heap[r].values;
      var values := ConvAll(heap, rs, refs + {r}).value;
      forall i | 0 <= i < |rs|
        ensures values[i] == Encode(m[keys[i]])
      {
        ConvAllOk(heap, rs, refs + {r}, i);
        ConvIsEncode(heap, rs[i], refs + {r}, m[keys[i]]);
      }
      AssignedEncode(keys, values, m);
  }

  lemma AssignedEncode(keys: seq<string>, values: seq<Json>, m: map<string, PyVal>)
    requires |values| == |keys| && Distinct(keys) && forall k :: k in m ==> k in keys
    requires forall i :: 0 <= i < |keys| ==> keys[i] in m && values[i] == Encode(m[keys[i]])
    ensures JObject(Assigned(keys, values)) == Encode(VDict(m))
  {
    AssignedDistinct(keys, values);
    assert Assigned(keys, values) == Encode(VDict(m)).members;
  }

  // ----- Round trips -----

  /** What a trip through JSON makes of a value: tuples become lists. */
  function Listed(v: PyVal): PyVal {
    match v
    case VTuple(vs) => VList(seq(|vs|, i requires 0 <= i < |vs| => Listed(vs[i])))
    case VList(vs) => VList(seq(|vs|, i requires 0 <= i < |vs| => Listed(vs[i])))
    case VDict(m) => VDict(map k | k in m :: Listed(m[k]))
    case VNone => v
    case VBool(_) => v
    case VInt(_) => v
    case VFloat(_) => v
    case VStr(_) => v
    case VBytes(base64) => VStr(base64)
  }

  /** from_json(to_json(v)) is v with tuples as lists and bytes as their Base64 text. */
  lemma {:induction false} ValueRoundTrip(v: PyVal)
    requires InRange(v)
    ensures Decode(Encode(v)) == Listed(v)
  {
    match v
    case VNone => case VBool(_) => case VInt(_) => case VFloat(_) => case VStr(_) => case VBytes(_) =>
    case VTuple(vs) =>
      forall i | 0 <= i < |vs| ensures Decode(Encode(vs[i])) == Listed(vs[i]) { ValueRoundTrip(vs[i]); }
      assert Decode(Encode(v)).items == Listed(v).items;
    case VList(vs) =>
      forall i | 0 <= i < |vs| ensures Decode(Encode(vs[i])) == Listed(vs[i]) { ValueRoundTrip(vs[i]); }
      assert Decode(Encode(v)).items == Listed(v).items;
    case VDict(m) =>
      forall k | k in m ensures Decode(Encode(m[k])) == Listed(m[k]) { ValueRoundTrip(m[k]); }
      assert Decode(Encode(v)).members == Listed(v).members;
  }

  /** Numbers fit their tag. */
  predicate WellTagged(j: Json) {
    match j
    case JInt(i) => INT64_MIN <= i <= INT64_MAX
    case JUint(u) => u <= UINT64_MAX
    case JArray(items) => forall i :: 0 <= i < |items| ==> WellTagged(items[i])
    case JObject(members) => forall k :: k in members ==> WellTagged(members[k])
    case JNull => true
    case JBool(_) => true
    case JFloat(_) => true
    case JString(_) => true
  }

  /** Unsigned numbers that fit the signed type take its tag. */
  function Retagged(j: Json): Json {
    match j
    case JUint(u) => if u <= INT64_MAX then JInt(u) else j
    case JArray(items) => JArray(seq(|items|, i requires 0 <= i < |items| => Retagged(items[i])))
    case JObject(members) => JObject(map k | k in members :: Retagged(members[k]))
    case JNull => j
    case JBool(_) => j
    case JInt(_) => j
    case JFloat(_) => j
    case JString(_) => j
  }

  /** Equality of JSON values with numbers compared by value, whatever their tag. */
  predicate SameJson(j: Json, k: Json) {
    match j
    case JInt(i) => (k.JInt? && k.i == i) || (k.JUint? && k.u == i)
    case JUint(u) => (k.JInt? && k.i == u) || (k.JUint? && k.u == u)
    case JArray(items) =>
      k.JArray? && |k.items| == |items| && forall i :: 0 <= i < |items| ==> SameJson(items[i], k.items[i])
    case JObject(members) =>
      k.JObject? && k.members.Keys == members.Keys && forall key :: key in members ==> SameJson(members[key], k.members[key])
    case JNull => k == j
    case JBool(_) => k == j
    case JFloat(_) => k == j
    case JString(_) => k == j
  }

  /** to_json(from_json(j)) equals j with numbers compared by value. */
  lemma {:induction false} JsonRoundTrip(j: Json)
    requires WellTagged(j)
    ensures InRange(Decode(j)) && Encode(Decode(j)) == Retagged(j) && SameJson(j, Retagged(j))
  {
    match j
    case JNull => case JBool(_) => case JInt(_) => case JUint(_) => case JFloat(_) => case JString(_) =>
    case JArray(items) =>
      forall i | 0 <= i < |items|
        ensures InRange(Decode(items[i])) && Encode(Decode(items[i])) == Retagged(items[i])
        ensures SameJson(items[i], Retagged(items[i]))
      {
        JsonRoundTrip(items[i]);
      }
      assert Encode(Decode(j)).items == Retagged(j).items;
    case JObject(members) =>
      forall k | k in members
        ensures InRange(Decode(members[k])) && Encode(Decode(members[k])) == Retagged(members[k])
        ensures SameJson(members[k], Retagged(members[k]))
      {
        JsonRoundTrip(members[k]);
      }
      assert Encode(Decode(j)).members == Retagged(j).members;
  }
}
