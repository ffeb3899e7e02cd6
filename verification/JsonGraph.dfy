/** When to_json succeeds: exactly on graphs without a reachable cycle whose reachable leaves
    it supports, shared objects included; and what each error means. */
module JsonGraph {
  import opened PyJson

  ghost predicate Path(heap: map<Ref, PyObj>, p: seq<Ref>) {
    && p != [] && AllIn(heap, p)
    && forall i :: 0 <= i < |p| - 1 ==> p[i + 1] in Children(heap[p[i]])
  }

  ghost predicate PathFrom(heap: map<Ref, PyObj>, r: Ref, p: seq<Ref>) {
    Path(heap, p) && p[0] == r
  }

  ghost predicate Repeats(p: seq<Ref>) {
    exists i, j :: 0 <= i < j < |p| && p[i] == p[j]
  }

  ghost predicate CycleFrom(heap: map<Ref, PyObj>, r: Ref) {
    exists p :: PathFrom(heap, r, p) && Repeats(p)
  }

  /** Every leaf that can be reached is of a supported type and, if an integer, in range. */
  ghost predicate LeavesConvert(heap: map<Ref, PyObj>, r: Ref) {
    forall p :: PathFrom(heap, r, p) ==> LeafConverts(heap[p[|p| - 1]])
  }

  predicate LeafConverts(o: PyObj) {
    IsContainer(o) || Leaf(o).Ok?
  }

  lemma {:induction false} ConvAllOk(heap: map<Ref, PyObj>, rs: seq<Ref>, refs: set<Ref>, i: nat)
    requires Closed(heap) && AllIn(heap, rs) && i < |rs| && ConvAll(heap, rs, refs).Ok?
    ensures Conv(heap, rs[i], refs) == Ok(ConvAll(heap, rs, refs).value[i])
    decreases |rs|
  {
    if i < |rs| - 1 {
      ConvAllOk(heap, rs[..|rs| - 1], refs, i);
    }
  }

  lemma {:induction false} ConvAllErr(heap: map<Ref, PyObj>, rs: seq<Ref>, refs: set<Ref>) returns (i: nat)
    requires Closed(heap) && AllIn(heap, rs) && ConvAll(heap, rs, refs).Err?
    ensures i < |rs| && Conv(heap, rs[i], refs) == Err(ConvAll(heap, rs, refs).error)
    ensures forall k :: 0 <= k < i ==> Conv(heap, rs[k], refs).Ok?
    decreases |rs|
  {
    i := |rs| - 1;
    var front := rs[..i];
    if ConvAll(heap, front, refs).Err? {
      i := ConvAllErr(heap, front, refs);
      assert forall k :: 0 <= k <= i ==> front[k] == rs[k];
    } else {
      forall k | 0 <= k < i
        ensures Conv(heap, rs[k], refs).Ok?
      {
        ConvAllOk(heap, front, refs, k);
        assert front[k] == rs[k];
      }
    }
  }

  ghost predicate Clean(heap: map<Ref, PyObj>, refs: set<Ref>, p: seq<Ref>)
    requires Path(heap, p)
  {
    && !Repeats(p) && LeafConverts(heap[p[|p| - 1]])
    && forall i :: 0 <= i < |p| && IsContainer(heap[p[i]]) ==> p[i] !in refs
  }

  lemma CleanLonger(heap: map<Ref, PyObj>, r: Ref, refs: set<Ref>, p: seq<Ref>)
    requires PathFrom(heap, r, p) && |p| > 1 && Path(heap, p[1..]) && r !in refs && IsContainer(heap[r])
    requires Clean(heap, refs + {r}, p[1..])
    ensures Clean(heap, refs, p)
  {
    var tail := p[1..];
    forall j | 1 <= j < |p|
      ensures p[j] != r && (IsContainer(heap[p[j]]) ==> p[j] !in refs)
    {
      assert p[j] == tail[j - 1];
    }
    forall i, j | 1 <= i < j < |p|
      ensures p[i] != p[j]
    {
      assert p[i] == tail[i - 1] && p[j] == tail[j - 1];
    }
  }

  /** After a success no path repeats an object or re-enters refs, and every leaf converts. */
  lemma {:induction false} OkPaths(heap: map<Ref, PyObj>, r: Ref, refs: set<Ref>, p: seq<Ref>)
    requires Closed(heap) && r in heap && Conv(heap, r, refs).Ok? && PathFrom(heap, r, p)
    ensures Clean(heap, refs, p)
    decreases |p|
  {
    if |p| > 1 {
      var rs := Children(heap[r]);
      assert p[0 + 1] in rs;
      var i :| 0 <= i < |rs| && rs[i] == p[1];
      ConvAllOk(heap, rs, refs + {r}, i);
      OkPaths(heap, p[1], refs + {r}, p[1..]);
      CleanLonger(heap, r, refs, p);
    }
  }

  /** A path that shows why a conversion failed. */
  ghost predicate Blames(heap: map<Ref, PyObj>, refs: set<Ref>, p: seq<Ref>, e: Error)
    requires Path(heap, p)
  {
    var last := p[|p| - 1];
    if e == Circular then Repeats(p) || last in refs else !IsContainer(heap[last]) && Leaf(heap[last]) == Err(e)
  }

  lemma Longer(heap: map<Ref, PyObj>, r: Ref, refs: set<Ref>, tail: seq<Ref>, e: Error)
    requires r in heap && Path(heap, tail) && tail[0] in Children(heap[r]) && Blames(heap, refs + {r}, tail, e)
    ensures PathFrom(heap, r, [r] + tail) && Blames(heap, refs, [r] + tail, e)
  {
    var p := [r] + tail;
    assert p[1..] == tail && p[|p| - 1] == tail[|tail| - 1];
    if Repeats(tail) {
      var i, j :| 0 <= i < j < |tail| && tail[i] == tail[j];
      assert p[i + 1] == p[j + 1];
    } else if p[|p| - 1] == r {
      assert p[0] == p[|p| - 1];
    }
  }

  lemma {:induction false} ErrPath(heap: map<Ref, PyObj>, r: Ref, refs: set<Ref>) returns (p: seq<Ref>)
    requires Closed(heap) && r in heap && Conv(heap, r, refs).Err?
    ensures PathFrom(heap, r, p) && Blames(heap, refs, p, Conv(heap, r, refs).error)
    decreases heap.Keys - refs
  {
    p := [r];
    if IsContainer(heap[r]) && r !in refs {
      var i := ConvAllErr(heap, Children(heap[r]), refs + {r});
      var tail := ErrPath(heap, Children(heap[r])[i], refs + {r});
      Longer(heap, r, refs, tail, Conv(heap, r, refs).error);
      p := [r] + tail;
    }
  }

  /** to_json succeeds if and only if no cycle can be reached and every reachable leaf
      converts; being shared is no obstacle. */
  lemma SucceedsExactly(heap: map<Ref, PyObj>, r: Ref)
    requires Closed(heap) && r in heap
    ensures Conv(heap, r, {}).Ok? <==> !CycleFrom(heap, r) && LeavesConvert(heap, r)
  {
    if Conv(heap, r, {}).Ok? {
      forall p | PathFrom(heap, r, p)
        ensures !Repeats(p) && LeafConverts(heap[p[|p| - 1]])
      {
        OkPaths(heap, r, {}, p);
      }
    } else {
      var p := ErrPath(heap, r, {});
    }
  }

  /** "Circular reference detected" is raised only when there is a cycle, and, when all leaves
      convert, whenever there is one. */
  lemma CircularExactly(heap: map<Ref, PyObj>, r: Ref)
    requires Closed(heap) && r in heap
    ensures Conv(heap, r, {}) == Err(Circular) ==> CycleFrom(heap, r)
    ensures LeavesConvert(heap, r) ==> (Conv(heap, r, {}) == Err(Circular) <==> CycleFrom(heap, r))
  {
    SucceedsExactly(heap, r);
    if Conv(heap, r, {}).Err? {
      var p := ErrPath(heap, r, {});
    }
  }

  // ----- What each object becomes -----

  /** By type and range: the document of an object that is not a container, or its error. */
  lemma LeafExact(o: PyObj)
    requires !IsContainer(o)
    ensures o.PyNone? ==> Leaf(o) == Ok(JNull)
    ensures o.PyBool? ==> Leaf(o) == Ok(JBool(o.b))
    ensures o.PyFloat? ==> Leaf(o) == Ok(JFloat(o.bits))
    ensures o.PyStr? ==> Leaf(o) == Ok(JString(o.s))
    ensures o.PyBytes? ==> Leaf(o) == Ok(JString(o.base64))
    ensures o.PyInt? && -0x8000_0000_0000_0000 <= o.i < 0x8000_0000_0000_0000 ==> Leaf(o) == Ok(JInt(o.i))
    ensures o.PyInt? && 0x8000_0000_0000_0000 <= o.i < 0x1_0000_0000_0000_0000 ==> Leaf(o) == Ok(JUint(o.i))
    ensures Leaf(o) == Err(OutOfRange) <==>
      o.PyInt? && (o.i < -0x8000_0000_0000_0000 || 0x1_0000_0000_0000_0000 <= o.i)
    ensures Leaf(o) == Err(Unsupported) <==> o.PyOther?
  {
  }

  ghost predicate CanReach(heap: map<Ref, PyObj>, r: Ref, o: PyObj) {
    exists p :: PathFrom(heap, r, p) && heap[p[|p| - 1]] == o
  }

  /** Each error says what can be reached: an integer that fits neither type, or an object that
      is none of the supported ones. */
  lemma ErrorExact(heap: map<Ref, PyObj>, r: Ref)
    requires Closed(heap) && r in heap
    ensures Conv(heap, r, {}) == Err(OutOfRange) ==>
      exists i :: CanReach(heap, r, PyInt(i)) && (i < -0x8000_0000_0000_0000 || 0x1_0000_0000_0000_0000 <= i)
    ensures Conv(heap, r, {}) == Err(Unsupported) ==> CanReach(heap, r, PyOther)
  {
    if Conv(heap, r, {}).Err? && Conv(heap, r, {}).error != Circular {
      var p := ErrPath(heap, r, {});
      var last := heap[p[|p| - 1]];
      LeafExact(last);
      assert CanReach(heap, r, last);
      assert last.PyInt? ==> last == PyInt(last.i);
    }
  }

  lemma {:induction false} AssignedLast<T>(keys: seq<string>, values: seq<T>)
    requires |keys| == |values|
    ensures forall k :: k in Assigned(keys, values) <==> k in keys
    ensures forall i :: 0 <= i < |keys| && (forall j :: i < j < |keys| ==> keys[j] != keys[i]) ==>
      Assigned(keys, values)[keys[i]] == values[i]
    decreases |keys|
  {
    if keys != [] {
      var n := |keys| - 1;
      AssignedLast(keys[..n], values[..n]);
      assert keys == keys[..n] + [keys[n]];
      forall i | 0 <= i < |keys| && (forall j :: i < j < |keys| ==> keys[j] != keys[i])
        ensures Assigned(keys, values)[keys[i]] == values[i]
      {
        if i < n {
          assert keys[n] != keys[i] && keys[..n][i] == keys[i];
          assert forall j :: i < j < n ==> keys[..n][j] != keys[..n][i];
        }
      }
    }
  }

  /** A sequence becomes an array of its items' documents, in order; a dict an object with its
      key texts, each with the document of the last value under it. */
  lemma ContainerExact(heap: map<Ref, PyObj>, r: Ref, refs: set<Ref>)
    requires Closed(heap) && r in heap && IsContainer(heap[r]) && Conv(heap, r, refs).Ok?
    ensures var o, j := heap[r], Conv(heap, r, refs).value;
      && (o.PyTuple? || o.PyList? ==>
            && j.JArray? && |j.items| == |Children(o)|
            && forall i :: 0 <= i < |j.items| ==> Conv(heap, Children(o)[i], refs + {r}) == Ok(j.items[i]))
      && (o.PyDict? ==>
            && j.JObject? && (forall k :: k in j.members <==> k in o.keys)
            && forall i :: 0 <= i < |o.keys| && (forall l :: i < l < |o.keys| ==> o.keys[l] != o.keys[i]) ==>
                 Conv(heap, o.values[i], refs + {r}) == Ok(j.members[o.keys[i]]))
  {
    var o, rs := heap[r], Children(heap[r]);
    var values := ConvAll(heap, rs, refs + {r}).value;
    forall i | 0 <= i < |rs|
      ensures Conv(heap, rs[i], refs + {r}) == Ok(values[i])
    {
      ConvAllOk(heap, rs, refs + {r}, i);
    }
    if o.PyDict? {
      AssignedLast(o.keys, values);
    }
  }

  /** A container fails as circular when it is on the current path already, and otherwise with
      the error of the first of its items that fails. */
  lemma ContainerFails(heap: map<Ref, PyObj>, r: Ref, refs: set<Ref>)
    requires Closed(heap) && r in heap && IsContainer(heap[r]) && Conv(heap, r, refs).Err?
    ensures r in refs ==> Conv(heap, r, refs) == Err(Circular)
    ensures r !in refs ==>
      var rs := Children(heap[r]);
      exists i :: 0 <= i < |rs| && Conv(heap, rs[i], refs + {r}) == Conv(heap, r, refs)
                  && forall k :: 0 <= k < i ==> Conv(heap, rs[k], refs + {r}).Ok?
  {
    if r !in refs {
      var i := ConvAllErr(heap, Children(heap[r]), refs + {r});
      assert Conv(heap, Children(heap[r])[i], refs + {r}) == Conv(heap, r, refs);
    }
  }
}
