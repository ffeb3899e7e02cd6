/** The Python/JSON bridge: to_json over a possibly cyclic object graph with its set of the
    containers on the current path, and from_json.  The graph is a heap of objects named by
    address; a bytes object carries its Base64 text, and a dict the str() of its keys, in order. */
module PyJson {
  type Ref = nat

  datatype PyObj = PyNone | PyBool(b: bool) | PyInt(i: int) | PyFloat(bits: nat) | PyStr(s: string) | PyBytes(base64: string)
                 | PyTuple(items: seq<Ref>) | PyList(items: seq<Ref>) | PyDict(keys: seq<string>, values: seq<Ref>) | PyOther

  /** JInt and JUint are the two integer tags, number_integer_t and number_unsigned_t. */
  datatype Json = JNull | JBool(b: bool) | JInt(i: int) | JUint(u: nat) | JFloat(bits: nat) | JString(s: string)
                | JArray(items: seq<Json>) | JObject(members: map<string, Json>)

  datatype Error = Circular | OutOfRange | Unsupported
  datatype Result<+T> = Ok(value: T) | Err(error: Error)

  const INT64_MIN: int := -0x8000_0000_0000_0000
  const INT64_MAX: int := 0x7FFF_FFFF_FFFF_FFFF
  const UINT64_MAX: int := 0xFFFF_FFFF_FFFF_FFFF

  // ----- isinstance: bool is a subclass of int -----

  predicate IsBool(o: PyObj) { o.PyBool? }
  predicate IsInt(o: PyObj) { o.PyInt? || o.PyBool? }
  predicate IsContainer(o: PyObj) { o.PyTuple? || o.PyList? || o.PyDict? }

  function IntValue(o: PyObj): int
    requires IsInt(o)
  {
    if o.PyBool? then (if o.b then 1 else 0) else o.i
  }

  /** The two casts, tried in this order. */
  function IntJson(i: int): Result<Json> {
    if INT64_MIN <= i <= INT64_MAX then Ok(JInt(i))
    else if 0 <= i <= UINT64_MAX then Ok(JUint(i))
    else Err(OutOfRange)
  }

  /** The branches of to_json for objects that are not containers. */
  function Leaf(o: PyObj): Result<Json>
    requires !IsContainer(o)
  {
    if o.PyNone? then Ok(JNull)
    else if IsBool(o) then Ok(JBool(o.b))
    else if IsInt(o) then IntJson(IntValue(o))
    else if o.PyFloat? then Ok(JFloat(o.bits))
    else if o.PyBytes? then Ok(JString(o.base64))
    else if o.PyStr? then Ok(JString(o.s))
    else Err(Unsupported)
  }

  function Children(o: PyObj): seq<Ref> {
    match o
    case PyTuple(items) => items
    case PyList(items) => items
    case PyDict(_, values) => values
    case _ => []
  }

  ghost predicate AllIn(heap: map<Ref, PyObj>, rs: seq<Ref>) {
    forall i :: 0 <= i < |rs| ==> rs[i] in heap
  }

  predicate Paired(o: PyObj) {
    o.PyDict? ==> |o.keys| == |o.values|
  }

  /** No dangling references, and a value for each key. */
  ghost predicate Closed(heap: map<Ref, PyObj>) {
    forall r :: r in heap ==> Paired(heap[r]) && AllIn(heap, Children(heap[r]))
  }

  /** out[key] = value for each key in turn: a repeated key text keeps the last value. */
  function Assigned<T>(keys: seq<string>, values: seq<T>): map<string, T>
    requires |keys| == |values|
  {
    if keys == [] then map[]
    else Assigned(keys[..|keys| - 1], values[..|keys| - 1])[keys[|keys| - 1] := values[|keys| - 1]]
  }

  function Assemble(o: PyObj, values: seq<Json>): Json
    requires IsContainer(o) && |values| == |Children(o)| && Paired(o)
  {
    if o.PyDict? then JObject(Assigned(o.keys, values)) else JArray(values)
  }

  // ----- What to_json computes; its recursion ends because every container entered joins
  // ----- refs, and within one container the children left get fewer

  ghost function Conv(heap: map<Ref, PyObj>, r: Ref, refs: set<Ref>): Result<Json>
    requires Closed(heap) && r in heap
    decreases heap.Keys - refs, 0
  {
    var o := heap[r];
    if !IsContainer(o) then Leaf(o)
    else if r in refs then Err(Circular)
    else
      var values := ConvAll(heap, Children(o), refs + {r});
      if values.Err? then Err(values.error) else Ok(Assemble(o, values.value))
  }

  ghost function ConvAll(heap: map<Ref, PyObj>, rs: seq<Ref>, refs: set<Ref>): (values: Result<seq<Json>>)
    requires Closed(heap) && AllIn(heap, rs)
    ensures values.Ok? ==> |values.value| == |rs|
    decreases heap.Keys - refs, 1 + |rs|
  {
    if rs == [] then Ok([])
    else
      var n := |rs| - 1;
      var front := ConvAll(heap, rs[..n], refs);
      if front.Err? then front
      else
        var last := Conv(heap, rs[n], refs);
        if last.Err? then Err(last.error) else Ok(front.value + [last.value])
  }

  /** A failure among the first children is the failure of all. */
  lemma {:induction false} ConvAllFails(heap: map<Ref, PyObj>, rs: seq<Ref>, refs: set<Ref>, n: nat)
    requires Closed(heap) && AllIn(heap, rs) && n <= |rs|
    requires ConvAll(heap, rs[..n], refs).Err?
    ensures ConvAll(heap, rs, refs) == ConvAll(heap, rs[..n], refs)
    decreases |rs|
  {
    if n == |rs| {
      assert rs[..n] == rs;
    } else {
      assert rs[..|rs| - 1][..n] == rs[..n];
      ConvAllFails(heap, rs[..|rs| - 1], refs, n);
    }
  }

  lemma ConvAllNext(heap: map<Ref, PyObj>, rs: seq<Ref>, refs: set<Ref>, i: nat, out: seq<Json>)
    requires Closed(heap) && AllIn(heap, rs) && i < |rs| && ConvAll(heap, rs[..i], refs) == Ok(out)
    ensures var one := Conv(heap, rs[i], refs);
      && (one.Ok? ==> ConvAll(heap, rs[..i + 1], refs) == Ok(out + [one.value]))
      && (one.Err? ==> ConvAll(heap, rs, refs) == Err(one.error))
  {
    assert rs[..i + 1][..i] == rs[..i] && rs[..i + 1][i] == rs[i];
    if Conv(heap, rs[i], refs).Err? {
      ConvAllFails(heap, rs, refs, i + 1);
    }
  }

  lemma AssignedNext<T>(keys: seq<string>, values: seq<T>, i: nat, value: T)
    requires |values| == i < |keys|
    ensures Assigned(keys[..i + 1], values + [value]) == Assigned(keys[..i], values)[keys[i] := value]
  {
    assert keys[..i + 1][..i] == keys[..i] && (values + [value])[..i] == values;
  }

  class Converter {
    var refs: set<Ref>

    constructor ()
      ensures refs == {}
    {
      refs := {};
    }

    /** to_json.  Ends on every finite graph, and leaves refs as it found it unless it fails. */
    method ToJson(heap: map<Ref, PyObj>, r: Ref) returns (res: Result<Json>)
      requires Closed(heap) && r in heap
      modifies this
      ensures res == Conv(heap, r, old(refs))
      ensures res.Ok? ==> refs == old(refs)
      decreases heap.Keys - refs, 0
    {
      var o := heap[r];
      if o.PyTuple? || o.PyList? || o.PyDict? {
        if r in refs {
          return Err(Circular);
        }
        ghost var outer := refs;
        refs := refs + {r};
        if o.PyDict? {
          res := EachEntry(heap, o.keys, o.values);
        } else {
          res := EachItem(heap, o.items);
        }
        if res.Ok? {
          refs := refs - {r};
          assert refs == outer;
        }
      } else {
        res := Leaf(o);
      }
    }

    /** The loop over a tuple or list. */
    method EachItem(heap: map<Ref, PyObj>, items: seq<Ref>) returns (res: Result<Json>)
      requires Closed(heap) && AllIn(heap, items)
      modifies this
      ensures var values := ConvAll(heap, items, old(refs));
        res == if values.Err? then Err(values.error) else Ok(JArray(values.value))
      ensures res.Ok? ==> refs == old(refs)
      decreases heap.Keys - refs, 1
    {
      ghost var path := refs;
      var out: seq<Json> := [];
      var i := 0;
      while i < |items|
        invariant 0 <= i <= |items| && refs == path
        invariant ConvAll(heap, items[..i], path) == Ok(out)
      {
        ConvAllNext(heap, items, path, i, out);
        var one := ToJson(heap, items[i]);
        if one.Err? {
          return one;
        }
        out := out + [one.value];
        i := i + 1;
      }
      assert items[..i] == items;
      res := Ok(JArray(out));
    }

    /** The loop over a dict. */
    method EachEntry(heap: map<Ref, PyObj>, keys: seq<string>, rs: seq<Ref>) returns (res: Result<Json>)
      requires Closed(heap) && AllIn(heap, rs) && |keys| == |rs|
      modifies this
      ensures var values := ConvAll(heap, rs, old(refs));
        res == if values.Err? then Err(values.error) else Ok(JObject(Assigned(keys, values.value)))
      ensures res.Ok? ==> refs == old(refs)
      decreases heap.Keys - refs, 1
    {
      ghost var path, values := refs, [];
      var out: map<string, Json> := map[];
      var i := 0;
      while i < |rs|
        invariant 0 <= i <= |rs| && refs == path && |values| == i
        invariant ConvAll(heap, rs[..i], path) == Ok(values) && out == Assigned(keys[..i], values)
      {
        ConvAllNext(heap, rs, path, i, values);
        var one := ToJson(heap, rs[i]);
        if one.Err? {
          return one;
        }
        AssignedNext(keys, values, i, one.value);
        out := out[keys[i] := one.value];
        values := values + [one.value];
        i := i + 1;
      }
      assert rs[..i] == rs && keys[..i] == keys;
      res := Ok(JObject(out));
    }
  }

  /** The entry point, with a fresh refs. */
  method ToJson(heap: map<Ref, PyObj>, r: Ref) returns (res: Result<Json>)
    requires Closed(heap) && r in heap
    ensures res == Conv(heap, r, {})
  {
    var converter := new Converter();
    res := converter.ToJson(heap, r);
  }
}
