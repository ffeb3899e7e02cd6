/** from_json as it builds objects, and the two round trips on object graphs. */
module JsonHeap {
  import opened PyJson
  import opened JsonGraph
  import opened JsonValues

  /** Nothing in the first heap has changed in the second. */
  ghost predicate Grown(heap: map<Ref, PyObj>, larger: map<Ref, PyObj>) {
    forall r :: r in heap ==> r in larger && larger[r] == heap[r]
  }

  lemma {:induction false} DenotesGrown(heap: map<Ref, PyObj>, larger: map<Ref, PyObj>, r: Ref, v: PyVal)
    requires Denotes(heap, r, v) && Grown(heap, larger)
    ensures Denotes(larger, r, v)
    decreases v
  {
    var o := heap[r];
    if v.VTuple? || v.VList? {
      forall i | 0 <= i < |v.items|
        ensures Denotes(larger, o.items[i], v.items[i])
      {
        DenotesGrown(heap, larger, o.items[i], v.items[i]);
      }
    } else if v.VDict? {
      forall i | 0 <= i < |o.keys|
        ensures Denotes(larger, o.values[i], v.members[o.keys[i]])
      {
        DenotesGrown(heap, larger, o.values[i], v.members[o.keys[i]]);
      }
    }
  }

  /** Objects from `base` on only refer to earlier ones from `base` on. */
  ghost predicate Layered(heap: map<Ref, PyObj>, base: Ref) {
    forall r, i :: r in heap && base <= r && 0 <= i < |Children(heap[r])| ==> base <= Children(heap[r])[i] < r
  }

  class PyHeap {
    var objs: map<Ref, PyObj>
    var next: Ref

    ghost predicate Valid()
      reads this
    {
      Closed(objs) && forall r :: r in objs ==> r < next
    }

    method Alloc(o: PyObj, ghost base: Ref) returns (r: Ref)
      requires Valid() && Paired(o) && AllIn(objs, Children(o)) && base <= next && Layered(objs, base)
      requires forall i :: 0 <= i < |Children(o)| ==> base <= Children(o)[i]
      modifies this
      ensures Valid() && Grown(old(objs), objs) && Layered(objs, base)
      ensures r == old(next) && next == r + 1 && r in objs && objs[r] == o
    {
      r := next;
      objs := objs[r := o];
      next := next + 1;
    }

    /** from_json.  The new objects stand for the document and form a tree of their own. */
    method FromJson(j: Json, ghost base: Ref) returns (r: Ref)
      requires Valid() && base <= next && Layered(objs, base)
      modifies this
      ensures Valid() && Grown(old(objs), objs) && Layered(objs, base)
      ensures base <= r && r in objs && old(next) <= next && Denotes(objs, r, Decode(j))
      decreases j, 1
    {
      if j.JNull? {
        r := Alloc(PyNone, base);
      } else if j.JBool? {
        r := Alloc(PyBool(j.b), base);
      } else if IsNumberUnsigned(j) {
        r := Alloc(PyInt(j.u), base);
      } else if IsNumberInteger(j) {
        r := Alloc(PyInt(j.i), base);
      } else if j.JFloat? {
        r := Alloc(PyFloat(j.bits), base);
      } else if j.JString? {
        r := Alloc(PyStr(j.s), base);
      } else if j.JArray? {
        r := FromArray(j, base);
      } else {
        r := FromObject(j, base);
      }
    }

    method FromArray(j: Json, ghost base: Ref) returns (r: Ref)
      requires j.JArray? && Valid() && base <= next && Layered(objs, base)
      modifies this
      ensures Valid() && Grown(old(objs), objs) && Layered(objs, base)
      ensures base <= r && r in objs && old(next) <= next && Denotes(objs, r, Decode(j))
      decreases j, 0
    {
      var items: seq<Ref> := [];
      var i := 0;
      while i < |j.items|
        invariant 0 <= i <= |j.items| && |items| == i
        invariant Valid() && Grown(old(objs), objs) && Layered(objs, base) && old(next) <= next
        invariant forall k :: 0 <= k < i ==> base <= items[k] && Denotes(objs, items[k], Decode(j.items[k]))
      {
        ghost var before := objs;
        var one := FromJson(j.items[i], base);
        forall k | 0 <= k < i
          ensures Denotes(objs, items[k], Decode(j.items[k]))
        {
          DenotesGrown(before, objs, items[k], Decode(j.items[k]));
        }
        items := items + [one];
        i := i + 1;
      }
      ghost var before := objs;
      r := Alloc(PyList(items), base);
      forall k | 0 <= k < |items|
        ensures Denotes(objs, items[k], Decode(j.items[k]))
      {
        DenotesGrown(before, objs, items[k], Decode(j.items[k]));
      }
    }

    method FromObject(j: Json, ghost base: Ref) returns (r: Ref)
      requires j.JObject? && Valid() && base <= next && Layered(objs, base)
      modifies this
      ensures Valid() && Grown(old(objs), objs) && Layered(objs, base)
      ensures base <= r && r in objs && old(next) <= next && Denotes(objs, r, Decode(j))
      decreases j, 0
    {
      var keys: seq<string>, values: seq<Ref> := [], [];
      var rest := j.members.Keys;
      while rest != {}
        invariant rest <= j.members.Keys && Distinct(keys) && forall k :: k in keys ==> k !in rest
        invariant forall k :: k in j.members ==> k in rest || k in keys
        invariant Valid() && Grown(old(objs), objs) && Layered(objs, base) && old(next) <= next
        invariant Filed(objs, base, keys, values, j.members)
        decreases rest
      {
        ghost var before := objs;
        var key :| key in rest;
        var one := FromJson(j.members[key], base);
        FiledMore(before, objs, base, keys, values, j.members, key, one);
        keys, values, rest := keys + [key], values + [one], rest - {key};
      }
      ghost var before := objs;
      r := Alloc(PyDict(keys, values), base);
      FiledGrown(before, objs, base, keys, values, j.members);
      FiledDenotes(objs, base, keys, values, j.members, r);
    }
  }

  /** The entries made so far stand for the members they were made from. */
  ghost predicate Filed(heap: map<Ref, PyObj>, base: Ref, keys: seq<string>, values: seq<Ref>, members: map<string, Json>) {
    && |keys| == |values|
    && forall i :: 0 <= i < |keys| ==>
         keys[i] in members && base <= values[i] && Denotes(heap, values[i], Decode(members[keys[i]]))
  }

  lemma FiledGrown(heap: map<Ref, PyObj>, larger: map<Ref, PyObj>, base: Ref, keys: seq<string>, values: seq<Ref>,
                   members: map<string, Json>)
    requires Filed(heap, base, keys, values, members) && Grown(heap, larger)
    ensures Filed(larger, base, keys, values, members)
  {
    forall i | 0 <= i < |keys|
      ensures Denotes(larger, values[i], Decode(members[keys[i]]))
    {
      DenotesGrown(heap, larger, values[i], Decode(members[keys[i]]));
    }
  }

  lemma FiledMore(heap: map<Ref, PyObj>, larger: map<Ref, PyObj>, base: Ref, keys: seq<string>, values: seq<Ref>,
                  members: map<string, Json>, key: string, one: Ref)
    requires Filed(heap, base, keys, values, members) && Grown(heap, larger)
    requires key in members && base <= one && Denotes(larger, one, Decode(members[key]))
    ensures Filed(larger, base, keys + [key], values + [one], members)
  {
    FiledGrown(heap, larger, base, keys, values, members);
  }

  lemma FiledDenotes(heap: map<Ref, PyObj>, base: Ref, keys: seq<string>, values: seq<Ref>, members: map<string, Json>, r: Ref)
    requires Filed(heap, base, keys, values, members) && r in heap && heap[r] == PyDict(keys, values)
    requires Distinct(keys) && forall k :: k in members ==> k in keys
    ensures Denotes(heap, r, Decode(JObject(members)))
  {
  }

  /** By type: the object that from_json builds for a document. */
  lemma ObjectExact(heap: map<Ref, PyObj>, r: Ref, j: Json)
    requires Denotes(heap, r, Decode(j))
    ensures var o := heap[r];
      match j
      case JNull => o == PyNone
      case JBool(b) => o == PyBool(b)
      case JInt(i) => o == PyInt(i)
      case JUint(u) => o == PyInt(u)
      case JFloat(bits) => o == PyFloat(bits)
      case JString(s) => o == PyStr(s)
      case JArray(items) =>
        o.PyList? && |o.items| == |items| && forall i :: 0 <= i < |items| ==> Denotes(heap, o.items[i], Decode(items[i]))
      case JObject(members) =>
        && o.PyDict? && |o.keys| == |o.values| && Distinct(o.keys) && (forall k :: k in members <==> k in o.keys)
        && forall i :: 0 <= i < |o.keys| ==> Denotes(heap, o.values[i], Decode(members[o.keys[i]]))
  {
  }

  /** On objects that form a tree of their own to_json succeeds, with the value's document. */
  lemma {:induction false} LayeredConverts(heap: map<Ref, PyObj>, base: Ref, r: Ref, refs: set<Ref>, v: PyVal)
    requires Closed(heap) && Layered(heap, base) && base <= r && Denotes(heap, r, v) && InRange(v)
    requires forall a :: a in refs ==> r < a
    ensures Conv(heap, r, refs) == Ok(Encode(v))
    decreases v
  {
    var o, rs := heap[r], Children(heap[r]);
    if IsContainer(o) {
      forall i | 0 <= i < |rs|
        ensures Conv(heap, rs[i], refs + {r}).Ok?
      {
        LayeredConverts(heap, base, rs[i], refs + {r}, if v.VDict? then v.members[o.keys[i]] else v.items[i]);
      }
      if ConvAll(heap, rs, refs + {r}).Err? {
        var i := ConvAllErr(heap, rs, refs + {r});
      }
    }
    ConvIsEncode(heap, r, refs, v);
  }

  /** to_json of what from_json built is the document again, numbers compared by value. */
  lemma BuiltConverts(heap: map<Ref, PyObj>, base: Ref, r: Ref, j: Json)
    requires Closed(heap) && Layered(heap, base) && base <= r && Denotes(heap, r, Decode(j)) && WellTagged(j)
    ensures Conv(heap, r, {}) == Ok(Retagged(j)) && SameJson(j, Retagged(j))
  {
    JsonRoundTrip(j);
    LayeredConverts(heap, base, r, {}, Decode(j));
  }

  /** Objects through to_json and from_json: if the conversion succeeds, what is built stands
      for the same value, with tuples as lists and bytes as text. */
  lemma GraphRoundTrip(heap: map<Ref, PyObj>, r: Ref, v: PyVal, j: Json, built: map<Ref, PyObj>, r': Ref)
    requires Closed(heap) && Denotes(heap, r, v) && InRange(v) && Conv(heap, r, {}) == Ok(j)
    requires Denotes(built, r', Decode(j))
    ensures Denotes(built, r', Listed(v))
  {
    ConvIsEncode(heap, r, {}, v);
    ValueRoundTrip(v);
  }

  /** Every object whose dicts have distinct key texts stands for some value once to_json
      succeeds on it. */
  lemma {:induction false} HasValue(heap: map<Ref, PyObj>, r: Ref, refs: set<Ref>) returns (v: PyVal)
    requires Closed(heap) && r in heap && Conv(heap, r, refs).Ok?
    requires forall x :: x in heap && heap[x].PyDict? ==> Distinct(heap[x].keys)
    ensures Denotes(heap, r, v) && InRange(v)
    decreases heap.Keys - refs, 0
  {
    var o := heap[r];
    if IsContainer(o) {
      var vs := HaveValues(heap, Children(o), refs + {r});
      if o.PyDict? {
        AssignedDistinct(o.keys, vs);
        v := VDict(Assigned(o.keys, vs));
        forall k | k in v.members
          ensures InRange(v.members[k])
        {
          var i :| 0 <= i < |o.keys| && o.keys[i] == k;
        }
      } else if o.PyTuple? {
        v := VTuple(vs);
      } else {
        v := VList(vs);
      }
    } else {
      match o
      case PyNone => v := VNone;
      case PyBool(b) => v := VBool(b);
      case PyInt(i) => v := VInt(i);
      case PyFloat(bits) => v := VFloat(bits);
      case PyStr(s) => v := VStr(s);
      case PyBytes(base64) => v := VBytes(base64);
    }
  }

  lemma {:induction false} HaveValues(heap: map<Ref, PyObj>, rs: seq<Ref>, refs: set<Ref>) returns (vs: seq<PyVal>)
    requires Closed(heap) && AllIn(heap, rs) && ConvAll(heap, rs, refs).Ok?
    requires forall x :: x in heap && heap[x].PyDict? ==> Distinct(heap[x].keys)
    ensures |vs| == |rs| && forall i :: 0 <= i < |rs| ==> Denotes(heap, rs[i], vs[i]) && InRange(vs[i])
    decreases heap.Keys - refs, 1 + |rs|
  {
    vs := [];
    if rs != [] {
      var n := |rs| - 1;
      var front := HaveValues(heap, rs[..n], refs);
      var last := HasValue(heap, rs[n], refs);
      vs := front + [last];
    }
  }
}
