/**
 * What the ModelProcess methods promise, proved about their specifications
 * in Lifecycle: a load happens at most once and leaks on failure, Unload and
 * the Destroy methods are idempotent, the input dataset borrows its memory
 * while the output dataset owns it, and CreateOutput sizes its buffers after
 * the descriptor.
 */
module LifecycleFacts {
  import opened AclModel
  import opened Lifecycle

  /** The device buffers allocated between two states. */
  ghost function Allocated(s: State, t: State): set<Handle> {
    t.device.Keys - s.device.Keys
  }

  /** The part of Valid that makes a new device buffer fresh: handles are
      positive and every live buffer is below the next one. */
  ghost predicate Fresh(s: State) {
    Null < s.next && forall h :: h in s.device ==> h < s.next
  }

  /** Growth in two steps, by `p` and then within `q`, is growth within both. */
  lemma GrowthSteps(a: set<Handle>, b: set<Handle>, c: set<Handle>, p: Handle, q: Handle)
    requires b == a + {p} && b <= c && c - b <= {q}
    ensures a <= c && c - a <= {p, q}
    ensures c - b == {q} && p !in a ==> c - a == {p, q}
  {
    forall x | x in c - a
      ensures x == p || x == q
    {
      if x !in b {
        assert x in c - b;
      }
    }
  }

  /** A second load is refused and changes nothing, not even the call log. */
  lemma LoadRefused(m: Mp, s: State, om: ModelImage)
    requires m.loaded
    ensures Load(m, s, om) == Step(Failed, m, s)
  {
  }

  /** The last step of a load: it succeeds exactly when the runtime call
      does, registers the model under the new id, and allocates nothing. */
  lemma LoadIntoOutcome(m: Mp, s: State, om: ModelImage)
    requires !m.loaded
    ensures var r := LoadInto(m, s, om);
            && (r.status == Success <==> s.calls !in s.failAt)
            && r.mp == m.(modelId := r.mp.modelId, loaded := r.status == Success)
            && r.rt.device == s.device
            && (r.status == Success ==> r.mp.modelId in r.rt.models && r.rt.models[r.mp.modelId] == om.outputs)
  {
  }

  /** From the weight allocation on: success exactly when the allocation and
      the load call both succeed; the sizes and the work buffer are kept. */
  lemma {:induction false} LoadWeightStatus(m: Mp, s: State, om: ModelImage)
    requires !m.loaded
    ensures var r := LoadWeight(m, s, om);
            var n := s.calls;
            && (r.status == Success <==> n !in s.failAt && n + 1 !in s.failAt)
            && r.mp.loaded == (r.status == Success)
            && r.mp.memPtr == m.memPtr && r.mp.memSize == m.memSize && r.mp.weightSize == m.weightSize
            && (r.status == Success ==> r.mp.modelId in r.rt.models && r.rt.models[r.mp.modelId] == om.outputs)
  {
    var w := Malloc(s, m.weightSize);
    assert w.post.calls == s.calls + 1;
    if w.ok {
      LoadIntoOutcome(m.(weightPtr := w.value), w.post, om);
    }
  }

  /** From the weight allocation on, the weight buffer is the only new one,
      and it stays in its field on every path. */
  lemma {:induction false} LoadWeightMemory(m: Mp, s: State, om: ModelImage)
    requires Fresh(s) && !m.loaded
    ensures var r := LoadWeight(m, s, om);
            && r.mp.memPtr == m.memPtr
            && s.device.Keys <= r.rt.device.Keys
            && Allocated(s, r.rt) <= {r.mp.weightPtr}
            && (r.status == Success ==> Allocated(s, r.rt) == {r.mp.weightPtr})
  {
    var w := Malloc(s, m.weightSize);
    if w.ok {
      assert w.post.device.Keys == s.device.Keys + {w.value};
      LoadIntoOutcome(m.(weightPtr := w.value), w.post, om);
    }
  }

  /** From the work allocation on: success exactly when the two allocations
      and the load call succeed; the queried sizes are kept. */
  lemma {:induction false} LoadWorkStatus(m: Mp, s: State, om: ModelImage)
    requires !m.loaded
    ensures var r := LoadWork(m, s, om);
            var n := s.calls;
            && (r.status == Success <==> n !in s.failAt && n + 1 !in s.failAt && n + 2 !in s.failAt)
            && r.mp.loaded == (r.status == Success)
  {
    var a := Malloc(s, m.memSize);
    assert a.post.calls == s.calls + 1;
    if a.ok {
      LoadWeightStatus(m.(memPtr := a.value), a.post, om);
    }
  }

  /** From the work allocation on, the queried sizes are kept and a success
      registers the model under the new id. */
  lemma {:induction false} LoadWorkModel(m: Mp, s: State, om: ModelImage)
    requires !m.loaded
    ensures var r := LoadWork(m, s, om);
            && r.mp.memSize == m.memSize && r.mp.weightSize == m.weightSize
            && (r.status == Success ==> r.mp.modelId in r.rt.models && r.rt.models[r.mp.modelId] == om.outputs)
  {
    var a := Malloc(s, m.memSize);
    if a.ok {
      LoadWeightStatus(m.(memPtr := a.value), a.post, om);
    }
  }

  /** From the work allocation on, the work and weight buffers are the only
      new ones, and they stay in their fields on every path. */
  lemma {:induction false} LoadWorkMemory(m: Mp, s: State, om: ModelImage)
    requires Fresh(s) && !m.loaded
    ensures var r := LoadWork(m, s, om);
            && s.device.Keys <= r.rt.device.Keys
            && Allocated(s, r.rt) <= {r.mp.memPtr, r.mp.weightPtr}
            && (r.status == Success ==> Allocated(s, r.rt) == {r.mp.memPtr, r.mp.weightPtr})
  {
    var a := Malloc(s, m.memSize);
    if a.ok {
      var r := LoadWeight(m.(memPtr := a.value), a.post, om);
      assert LoadWork(m, s, om) == r;
      LoadWeightMemory(m.(memPtr := a.value), a.post, om);
      GrowthSteps(s.device.Keys, a.post.device.Keys, r.rt.device.Keys, a.value, r.mp.weightPtr);
    }
  }

  /** A load succeeds exactly when the instance is not loaded and none of its
      four runtime calls fails, and the flag records that success. */
  lemma {:induction false} LoadOutcome(m: Mp, s: State, om: ModelImage)
    ensures var r := Load(m, s, om);
            var n := s.calls;
            && (r.status == Success <==>
                  !m.loaded && n !in s.failAt && n + 1 !in s.failAt && n + 2 !in s.failAt && n + 3 !in s.failAt)
            && (r.status == Success ==> r.mp.loaded)
  {
    if !m.loaded {
      var q := QuerySize(s, om);
      if q.ok {
        var k := m.(memSize := q.value.0, weightSize := q.value.1);
        LoadWorkStatus(k, q.post, om);
        var n := s.calls;
        assert q.post.calls == n + 1 && q.post.failAt == s.failAt;
      }
    }
  }

  /** After a successful load the instance holds two fresh device buffers of
      the queried sizes and the id of a model loaded from the image. */
  lemma {:induction false} LoadSucceeds(m: Mp, s: State, om: ModelImage)
    requires Fresh(s)
    ensures var r := Load(m, s, om);
            r.status == Success ==>
              && r.mp.memSize == om.workSize && r.mp.weightSize == om.weightSize
              && Resident(r.mp, r.rt.device)
              && Allocated(s, r.rt) == {r.mp.memPtr, r.mp.weightPtr}
              && r.mp.modelId in r.rt.models && r.rt.models[r.mp.modelId] == om.outputs
  {
    if !m.loaded {
      var q := QuerySize(s, om);
      if q.ok {
        LoadWorkModel(m.(memSize := q.value.0, weightSize := q.value.1), q.post, om);
        LoadWorkMemory(m.(memSize := q.value.0, weightSize := q.value.1), q.post, om);
      }
    }
  }

  /** A failed load of an unloaded instance frees nothing it allocated: every
      new buffer stays in a field, the flag stays clear, and Unload will not
      look at them. */
  lemma {:induction false} LoadLeak(m: Mp, s: State, om: ModelImage)
    requires Fresh(s) && !m.loaded
    ensures var r := Load(m, s, om);
            r.status == Failed ==>
              && !r.mp.loaded
              && s.device.Keys <= r.rt.device.Keys
              && Allocated(s, r.rt) <= {r.mp.memPtr, r.mp.weightPtr}
              && Lifecycle.Unload(r.mp, r.rt) == Config(r.mp, r.rt)
  {
    var q := QuerySize(s, om);
    if q.ok {
      LoadWorkStatus(m.(memSize := q.value.0, weightSize := q.value.1), q.post, om);
      LoadWorkMemory(m.(memSize := q.value.0, weightSize := q.value.1), q.post, om);
    }
  }

  /** Unload on a loaded instance clears the flag and the descriptor field,
      nulls each set pointer and zeroes its size; the model id and the
      datasets stay. */
  lemma UnloadClears(m: Mp, s: State)
    requires m.loaded && Releasable(m, s)
    ensures var r := Lifecycle.Unload(m, s);
            && !r.mp.loaded && r.mp.desc == Null && r.mp.memPtr == Null && r.mp.weightPtr == Null
            && r.mp.memSize == (if m.memPtr != Null then 0 else m.memSize)
            && r.mp.weightSize == (if m.weightPtr != Null then 0 else m.weightSize)
            && r.mp.modelId == m.modelId && r.mp.input == m.input && r.mp.output == m.output
  {
  }

  /** Unload on a loaded instance frees exactly the work and weight memory;
      records and datasets are untouched. */
  lemma UnloadFrees(m: Mp, s: State)
    requires m.loaded && Releasable(m, s) && m.memPtr != Null && m.weightPtr != Null
    ensures var r := Lifecycle.Unload(m, s);
            && r.rt.device == s.device - {m.memPtr} - {m.weightPtr}
            && r.rt.records == s.records && r.rt.datasets == s.datasets
  {
  }

  /** Unload on a loaded instance destroys the descriptor and unloads the
      model unless that call fails. */
  lemma UnloadReleases(m: Mp, s: State)
    requires m.loaded && Releasable(m, s)
    ensures var r := Lifecycle.Unload(m, s);
            && r.rt.descs == (if m.desc != Null then s.descs - {m.desc} else s.descs)
            && (s.calls !in s.failAt ==> m.modelId !in r.rt.models)
  {
  }

  /** Unload on an unloaded instance does nothing, so a second Unload does
      nothing: Unload is idempotent. */
  lemma UnloadIdempotent(m: Mp, s: State)
    requires m.loaded ==> Releasable(m, s)
    ensures (!m.loaded ==> Lifecycle.Unload(m, s) == Config(m, s))
    ensures var r := Lifecycle.Unload(m, s);
            !r.mp.loaded && Lifecycle.Unload(r.mp, r.rt) == r
  {
  }

  /** DestroyDesc nulls the field, destroys a live descriptor and nothing
      else; a second call does nothing. */
  lemma DestroyDescIdempotent(m: Mp, s: State)
    requires (m.desc != Null ==> m.desc in s.descs) && Null !in s.descs
    ensures var r := Lifecycle.DestroyDesc(m, s);
            && r.mp == m.(desc := Null)
            && r.rt.descs.Keys == s.descs.Keys - {m.desc}
            && r.rt.device == s.device && r.rt.records == s.records && r.rt.datasets == s.datasets
            && Lifecycle.DestroyDesc(r.mp, r.rt) == r
  {
  }

  /** CreateDesc stores the new descriptor in its field, null only when
      aclmdlCreateDesc fails; when aclmdlGetDesc then fails the field keeps
      the live, unfilled descriptor.  Success fills the descriptor with the
      loaded model's output sizes.  No memory changes hands. */
  lemma CreateDescFills(m: Mp, s: State)
    requires Valid(s)
    ensures var r := Lifecycle.CreateDesc(m, s);
            && r.mp == m.(desc := r.mp.desc)
            && (r.mp.desc == Null <==> s.calls in s.failAt)
            && (r.mp.desc != Null ==> r.mp.desc == s.next && r.mp.desc !in s.descs && r.mp.desc in r.rt.descs)
            && (r.status == Success <==>
                  r.mp.desc != Null && m.modelId in s.models && s.calls + 1 !in s.failAt)
            && (r.status == Success ==> r.rt.descs[r.mp.desc] == s.models[m.modelId])
            && r.rt.device == s.device && r.rt.host == s.host
            && r.rt.records == s.records && r.rt.datasets == s.datasets
  {
  }

  /** A successful load followed by a successful CreateDesc leaves the
      descriptor listing the output sizes of the model image, which
      CreateOutput then allocates. */
  lemma {:induction false} DescribesLoaded(m: Mp, s: State, om: ModelImage)
    requires Valid(s)
    ensures var l := Load(m, s, om);
            var r := Lifecycle.CreateDesc(l.mp, l.rt);
            l.status == Success && r.status == Success ==>
              r.mp.desc in r.rt.descs && r.rt.descs[r.mp.desc] == om.outputs
  {
    var l := Load(m, s, om);
    if l.status == Success {
      LoadSucceeds(m, s, om);
      CreateDescFills(l.mp, l.rt);
    }
  }

  /** The input dataset borrows its memory: DestroyInput destroys its
      records and the dataset but frees no device memory; a second call does
      nothing. */
  lemma DestroyInputBorrows(m: Mp, s: State)
    requires m.input != Null ==> m.input in s.datasets && LiveRecords(s.records, s.datasets[m.input])
    ensures var r := DestroyInput(m, s);
            && r.mp == m.(input := Null)
            && r.rt.device == s.device && r.rt.host == s.host
            && (m.input != Null ==>
                  r.rt.records == s.records - Elems(s.datasets[m.input])
                  && r.rt.datasets == s.datasets - {m.input})
            && DestroyInput(r.mp, r.rt) == r
  {
  }

  /** The output dataset owns its memory: DestroyOutput frees the address of
      every output record, destroys the records and the dataset; a second
      call does nothing. */
  lemma DestroyOutputOwns(m: Mp, s: State)
    requires m.output != Null ==> m.output in s.datasets && OwnedBuffers(s.device, s.records, s.datasets[m.output])
    ensures var r := DestroyOutput(m, s);
            && r.mp == m.(output := Null)
            && r.rt.host == s.host
            && (m.output != Null ==>
                  var outs := s.datasets[m.output];
                  && r.rt.device == s.device - Addrs(s.records, outs)
                  && r.rt.records == s.records - Elems(outs)
                  && r.rt.datasets == s.datasets - {m.output})
            && DestroyOutput(r.mp, r.rt) == r
  {
  }

  /** A successful CreateInput leaves the input dataset holding exactly one
      record, over the caller's buffer and size. */
  lemma CreateInputHolds(m: Mp, s: State, buf: Handle, size: nat)
    ensures var r := CreateInput(m, s, buf, size);
            r.status == Success ==>
              && r.mp.input in r.rt.datasets && |r.rt.datasets[r.mp.input]| == 1
              && r.rt.datasets[r.mp.input][0] in r.rt.records
              && r.rt.records[r.rt.datasets[r.mp.input][0]] == Record(buf, size)
  {
    var d := CreateDataset(s);
    if d.ok {
      var c := CreateDataBuffer(d.post, buf, size);
      if c.ok {
        var a := AddDatasetBuffer(c.post, d.value, c.value);
        if a.ok {
          assert a.post.datasets[d.value] == [c.value];
          assert a.post.records[c.value] == Record(buf, size);
        }
      }
    }
  }

  /** The records a dataset gained past its first `n`, matched against the
      sizes from position `i`: each is live and of the size it was made for. */
  ghost predicate SizedFrom(records: map<Handle, Record>, d: seq<Handle>, n: nat, sizes: seq<nat>, i: nat) {
    && n <= |d| && i + (|d| - n) <= |sizes|
    && forall k :: n <= k < |d| ==> d[k] in records && records[d[k]].size == sizes[i + (k - n)]
  }

  /** One more record, of the size it was made for, in front of a sized tail. */
  lemma SizedCons(records: map<Handle, Record>, d: seq<Handle>, n: nat, sizes: seq<nat>, i: nat)
    requires SizedFrom(records, d, n + 1, sizes, i + 1)
    requires n < |d| && d[n] in records && i < |sizes| && records[d[n]].size == sizes[i]
    ensures SizedFrom(records, d, n, sizes, i)
  {
    forall k | n < k < |d|
      ensures records[d[k]].size == sizes[i + (k - n)]
    {
      assert i + 1 + (k - (n + 1)) == i + (k - n);
    }
  }

  /** One output: the output dataset gains the new record on success and is
      unchanged on failure. */
  lemma OutputIterAppends(m: Mp, s: State, size: nat)
    requires Valid(s) && m.output in s.datasets
    ensures var o := OutputIter(m, s, size);
            o.post.datasets[m.output] == if o.ok then s.datasets[m.output] + [o.value] else s.datasets[m.output]
  {
    OutputIterAdds(m, s, size);
    OutputIterRefused(m, s, size);
  }

  /** One output: live records stay live and unchanged, and the record added
      is live and of the size asked for. */
  lemma OutputIterRecords(m: Mp, s: State, size: nat)
    requires Valid(s) && m.output in s.datasets
    ensures var o := OutputIter(m, s, size);
            && (forall h :: h in s.records ==> h in o.post.records && o.post.records[h] == s.records[h])
            && (o.ok ==> o.value in o.post.records && o.post.records[o.value].size == size)
  {
    OutputIterAdds(m, s, size);
    OutputIterRefused(m, s, size);
  }

  /** From output `i` on, the records already in the output dataset stay
      there and at most one record is appended per remaining output. */
  lemma {:induction false} AddOutputsPrefix(m: Mp, s: State, sizes: seq<nat>, i: nat)
    requires Valid(s) && m.output in s.datasets && i <= |sizes|
    ensures var d0 := s.datasets[m.output];
            var d := AddOutputs(m, s, sizes, i).rt.datasets[m.output];
            d0 <= d && |d| <= |d0| + (|sizes| - i)
    decreases |sizes| - i
  {
    if i < |sizes| {
      var o := OutputIter(m, s, sizes[i]);
      OutputIterAppends(m, s, sizes[i]);
      if o.ok {
        var d0 := s.datasets[m.output];
        AddOutputsPrefix(m, o.post, sizes, i + 1);
        assert d0 <= d0 + [o.value];
      }
    }
  }

  /** From output `i` on, success means one record was appended per
      remaining output. */
  lemma {:induction false} AddOutputsComplete(m: Mp, s: State, sizes: seq<nat>, i: nat)
    requires Valid(s) && m.output in s.datasets && i <= |sizes|
    ensures var r := AddOutputs(m, s, sizes, i);
            r.status == Success ==> |r.rt.datasets[m.output]| == |s.datasets[m.output]| + (|sizes| - i)
    decreases |sizes| - i
  {
    if i < |sizes| {
      var o := OutputIter(m, s, sizes[i]);
      OutputIterAppends(m, s, sizes[i]);
      if o.ok {
        AddOutputsComplete(m, o.post, sizes, i + 1);
      }
    }
  }

  /** From output `i` on, each record appended is live and of the size of
      the output it was made for. */
  lemma {:induction false} AddOutputsSized(m: Mp, s: State, sizes: seq<nat>, i: nat)
    requires Valid(s) && m.output in s.datasets && i <= |sizes|
    ensures var r := AddOutputs(m, s, sizes, i);
            SizedFrom(r.rt.records, r.rt.datasets[m.output], |s.datasets[m.output]|, sizes, i)
    decreases |sizes| - i
  {
    AddOutputsPrefix(m, s, sizes, i);
    if i < |sizes| {
      var o := OutputIter(m, s, sizes[i]);
      OutputIterAppends(m, s, sizes[i]);
      OutputIterRecords(m, s, sizes[i]);
      if o.ok {
        var n := |s.datasets[m.output]|;
        AddOutputsSized(m, o.post, sizes, i + 1);
        AddOutputsPrefix(m, o.post, sizes, i + 1);
        AddOutputsKeepsRecords(m, o.post, sizes, i + 1);
        var r := AddOutputs(m, o.post, sizes, i + 1);
        var d := r.rt.datasets[m.output];
        var d1 := s.datasets[m.output] + [o.value];
        assert o.post.datasets[m.output] == d1 && |d1| == n + 1 && d1[n] == o.value;
        assert d1 <= d;
        assert d[n] == o.value;
        assert o.value in o.post.records;
        assert r.rt.records[o.value] == o.post.records[o.value];
        SizedCons(r.rt.records, d, n, sizes, i);
      }
    }
  }

  /** From output `i` on, every record live before stays live and unchanged:
      a refusal only destroys the record it has just made. */
  lemma {:induction false} AddOutputsKeepsRecords(m: Mp, s: State, sizes: seq<nat>, i: nat)
    requires Valid(s) && m.output in s.datasets && i <= |sizes|
    ensures var r := AddOutputs(m, s, sizes, i);
            forall h :: h in s.records ==> h in r.rt.records && r.rt.records[h] == s.records[h]
    decreases |sizes| - i
  {
    if i < |sizes| {
      var o := OutputIter(m, s, sizes[i]);
      OutputIterRecords(m, s, sizes[i]);
      if o.ok {
        AddOutputsKeepsRecords(m, o.post, sizes, i + 1);
      }
    }
  }

  /** CreateOutput without a descriptor fails and changes nothing. */
  lemma CreateOutputRefused(m: Mp, s: State)
    requires m.desc == Null
    ensures CreateOutput(m, s) == Step(Failed, m, s)
  {
  }

  /** CreateOutput sizes its buffers after the descriptor: once it has
      made the output dataset, that dataset holds live records, record `k`
      of the size of output `k`, and on success exactly one per output the
      descriptor lists.  On a failure the records already added stay.  That
      each is the only owner of a live device buffer of its size is
      CreateOutputKeepsInv. */
  lemma CreateOutputSized(m: Mp, s: State)
    requires Valid(s) && m.desc != Null && m.desc in s.descs
    ensures var r := CreateOutput(m, s);
            var sizes := s.descs[m.desc];
            r.mp.output != Null ==>
              && r.mp.output in r.rt.datasets
              && SizedFrom(r.rt.records, r.rt.datasets[r.mp.output], 0, sizes, 0)
              && (r.status == Success ==> |r.rt.datasets[r.mp.output]| == |sizes|)
  {
    var d := CreateDataset(s);
    if d.ok {
      var m1 := m.(output := d.value);
      assert d.post.descs[m.desc] == s.descs[m.desc] && d.post.datasets[d.value] == [];
      AddOutputsSized(m1, d.post, s.descs[m.desc], 0);
      AddOutputsComplete(m1, d.post, s.descs[m.desc], 0);
    }
  }

  /** Teardown leaves an instance with no model, descriptor or datasets;
      the memory pointers are nulled only when a model was loaded. */
  lemma TeardownClears(m: Mp, s: State)
    requires Inv(m, s)
    ensures var r := Teardown(m, s);
            && !r.mp.loaded && r.mp.desc == Null && r.mp.input == Null && r.mp.output == Null
            && (m.loaded ==> r.mp.memPtr == Null && r.mp.weightPtr == Null)
            && (!m.loaded ==> r.mp.memPtr == m.memPtr && r.mp.weightPtr == m.weightPtr)
  {
    var a := Lifecycle.Unload(m, s);
    if m.loaded {
      UnloadClears(m, s);
    }
    UnloadKeepsInv(m, s);
    var b := Lifecycle.DestroyDesc(a.mp, a.rt);
    DestroyDescIdempotent(a.mp, a.rt);
    DestroyDescKeepsInv(a.mp, a.rt);
    var c := DestroyInput(b.mp, b.rt);
    DestroyInputBorrows(b.mp, b.rt);
    DestroyInputKeepsInv(b.mp, b.rt);
    DestroyOutputOwns(c.mp, c.rt);
  }

  /** The load leak survives teardown: after a failed load the instance is
      not loaded, so the buffers left in its fields are still live once it
      is torn down. */
  lemma TeardownLeaks(m: Mp, s: State)
    requires Inv(m, s) && !m.loaded
    ensures var r := Teardown(m, s);
            && (m.memPtr != Null ==> m.memPtr in r.rt.device)
            && (m.weightPtr != Null ==> m.weightPtr in r.rt.device)
  {
    TeardownClears(m, s);
  }

  /** A torn-down instance tears down to itself: Teardown is idempotent. */
  lemma TeardownIdempotent(m: Mp, s: State)
    requires Inv(m, s)
    ensures var r := Teardown(m, s); Teardown(r.mp, r.rt) == r
  {
    TeardownClears(m, s);
  }

  /* The order of the runtime calls, read off the call log. */

  /** The log after `calls` are made in order, starting from `t`. */
  function Append(t: Trace, calls: seq<Api>): (r: Trace)
    ensures calls != [] ==> r.Then? && r.call == calls[|calls| - 1]
    decreases |calls|
  {
    if calls == [] then t else Append(Then(t, calls[0]), calls[1..])
  }

  /** Logging two batches of calls one after the other logs their concatenation. */
  lemma {:induction false} AppendConcat(t: Trace, a: seq<Api>, b: seq<Api>)
    ensures Append(Append(t, a), b) == Append(t, a + b)
    decreases |a|
  {
    if a == [] {
      assert a + b == b;
    } else {
      assert (a + b)[0] == a[0] && (a + b)[1..] == a[1..] + b;
      AppendConcat(Then(t, a[0]), a[1..], b);
    }
  }

  /** Logging one call. */
  lemma AppendOne(t: Trace, c: Api)
    ensures Append(t, [c]) == Then(t, c)
  {
    assert [c][1..] == [];
  }

  /** `n` copies of a batch of calls. */
  function Repeat(calls: seq<Api>, n: nat): (r: seq<Api>)
    ensures |r| == n * |calls|
  {
    if n == 0 then [] else calls + Repeat(calls, n - 1)
  }

  /** DestroyRecords makes one aclDestroyDataBuffer call per record. */
  lemma {:induction false} DestroyRecordsOrder(s: State, recs: seq<Handle>)
    requires LiveRecords(s.records, recs)
    ensures DestroyRecords(s, recs).trace == Append(s.trace, Repeat([AclDestroyDataBuffer], |recs|))
    decreases |recs|
  {
    if recs != [] {
      var t := DestroyDataBuffer(s, recs[0]);
      DestroyStep(s, recs);
      DestroyRecordsOrder(t, recs[1..]);
      AppendOne(s.trace, AclDestroyDataBuffer);
      AppendConcat(s.trace, [AclDestroyDataBuffer], Repeat([AclDestroyDataBuffer], |recs| - 1));
    }
  }

  /** ReleaseBuffers frees each record's memory and then destroys the
      record, one record after the other. */
  lemma {:induction false} ReleaseBuffersOrder(s: State, recs: seq<Handle>)
    requires OwnedBuffers(s.device, s.records, recs)
    ensures ReleaseBuffers(s, recs).trace == Append(s.trace, Repeat([RtFree, AclDestroyDataBuffer], |recs|))
    decreases |recs|
  {
    if recs != [] {
      var t := DestroyDataBuffer(Free(s, s.records[recs[0]].addr), recs[0]);
      ReleaseStep(s, recs);
      ReleaseBuffersOrder(t, recs[1..]);
      AppendOne(s.trace, RtFree);
      AppendOne(Then(s.trace, RtFree), AclDestroyDataBuffer);
      AppendConcat(s.trace, [RtFree], [AclDestroyDataBuffer]);
      AppendConcat(s.trace, [RtFree, AclDestroyDataBuffer], Repeat([RtFree, AclDestroyDataBuffer], |recs| - 1));
    }
  }

  /** The call a step makes when its handle is set, and none otherwise. */
  function IfSet(h: Handle, call: Api): seq<Api> {
    if h != Null then [call] else []
  }

  /** The calls Unload makes on an instance: none unless a model is loaded;
      otherwise aclmdlUnload, then aclmdlDestroyDesc when a descriptor is
      set, then aclrtFree of the work memory and of the weight memory when
      their pointers are set. */
  function UnloadCalls(m: Mp): seq<Api> {
    if !m.loaded then []
    else [MdlUnload] + IfSet(m.desc, MdlDestroyDesc) + IfSet(m.memPtr, RtFree) + IfSet(m.weightPtr, RtFree)
  }

  /** Unload makes exactly the calls UnloadCalls lists, in that order. */
  lemma UnloadOrder(m: Mp, s: State)
    requires m.loaded ==> Releasable(m, s)
    ensures Lifecycle.Unload(m, s).rt.trace == Append(s.trace, UnloadCalls(m))
  {
    if m.loaded {
      var a := DropModel(m, s);
      var b := FreeWork(a);
      var c := FreeWeight(b);
      var d := IfSet(m.desc, MdlDestroyDesc);
      var w := IfSet(m.memPtr, RtFree);
      var g := IfSet(m.weightPtr, RtFree);
      AppendOne(s.trace, MdlUnload);
      assert a.rt.trace == Append(Then(s.trace, MdlUnload), d) by {
        if m.desc != Null {
          AppendOne(Then(s.trace, MdlUnload), MdlDestroyDesc);
        }
      }
      assert b.rt.trace == Append(a.rt.trace, w) by {
        if m.memPtr != Null {
          AppendOne(a.rt.trace, RtFree);
        }
      }
      assert c.rt.trace == Append(b.rt.trace, g) by {
        if m.weightPtr != Null {
          AppendOne(b.rt.trace, RtFree);
        }
      }
      AppendConcat(s.trace, [MdlUnload], d);
      AppendConcat(s.trace, [MdlUnload] + d, w);
      AppendConcat(s.trace, [MdlUnload] + d + w, g);
    }
  }

  /** DestroyDesc makes one aclmdlDestroyDesc call when a descriptor is set. */
  lemma DestroyDescOrder(m: Mp, s: State)
    requires m.desc != Null ==> m.desc in s.descs
    ensures Lifecycle.DestroyDesc(m, s).rt.trace == Append(s.trace, IfSet(m.desc, MdlDestroyDesc))
  {
    if m.desc != Null {
      AppendOne(s.trace, MdlDestroyDesc);
    }
  }

  /** The calls DestroyInput makes: one aclDestroyDataBuffer per input
      record, then aclmdlDestroyDataset. */
  function InputCalls(m: Mp, s: State): seq<Api>
    requires m.input != Null ==> m.input in s.datasets
  {
    if m.input != Null then Repeat([AclDestroyDataBuffer], |s.datasets[m.input]|) + [MdlDestroyDataset] else []
  }

  /** DestroyInput makes exactly the calls InputCalls lists. */
  lemma DestroyInputOrder(m: Mp, s: State)
    requires m.input != Null ==> m.input in s.datasets && LiveRecords(s.records, s.datasets[m.input])
    ensures DestroyInput(m, s).rt.trace == Append(s.trace, InputCalls(m, s))
  {
    if m.input != Null {
      var recs := s.datasets[m.input];
      DestroyRecordsOrder(s, recs);
      var t := DestroyRecords(s, recs);
      AppendOne(t.trace, MdlDestroyDataset);
      AppendConcat(s.trace, Repeat([AclDestroyDataBuffer], |recs|), [MdlDestroyDataset]);
    }
  }

  /** The calls DestroyOutput makes: an aclrtFree and an aclDestroyDataBuffer
      per output record, then aclmdlDestroyDataset. */
  function OutputCalls(m: Mp, s: State): seq<Api>
    requires m.output != Null ==> m.output in s.datasets
  {
    if m.output != Null then Repeat([RtFree, AclDestroyDataBuffer], |s.datasets[m.output]|) + [MdlDestroyDataset] else []
  }

  /** DestroyOutput makes exactly the calls OutputCalls lists. */
  lemma DestroyOutputOrder(m: Mp, s: State)
    requires m.output != Null ==> m.output in s.datasets && OwnedBuffers(s.device, s.records, s.datasets[m.output])
    ensures DestroyOutput(m, s).rt.trace == Append(s.trace, OutputCalls(m, s))
  {
    if m.output != Null {
      var recs := s.datasets[m.output];
      ReleaseBuffersOrder(s, recs);
      var t := ReleaseBuffers(s, recs);
      AppendOne(t.trace, MdlDestroyDataset);
      AppendConcat(s.trace, Repeat([RtFree, AclDestroyDataBuffer], |recs|), [MdlDestroyDataset]);
    }
  }

  /** The calls the destructor makes: Unload's, then aclmdlDestroyDesc for a
      descriptor Unload did not destroy, then DestroyInput's, then
      DestroyOutput's. */
  function TeardownCalls(m: Mp, s: State): seq<Api>
    requires m.input != Null ==> m.input in s.datasets
    requires m.output != Null ==> m.output in s.datasets
  {
    UnloadCalls(m) + (if m.loaded then [] else IfSet(m.desc, MdlDestroyDesc)) + InputCalls(m, s) + OutputCalls(m, s)
  }

  /** The destructor tears down in the source's order: the model, the
      descriptor, the input, the output. */
  lemma {:induction false} TeardownOrder(m: Mp, s: State)
    requires Inv(m, s)
    ensures Teardown(m, s).rt.trace == Append(s.trace, TeardownCalls(m, s))
  {
    var a := Lifecycle.Unload(m, s);
    UnloadOrder(m, s);
    UnloadKeepsInv(m, s);
    if m.loaded {
      UnloadClears(m, s);
    }
    var b := Lifecycle.DestroyDesc(a.mp, a.rt);
    DestroyDescOrder(a.mp, a.rt);
    DestroyDescKeepsInv(a.mp, a.rt);
    DestroyDescIdempotent(a.mp, a.rt);
    var c := DestroyInput(b.mp, b.rt);
    DestroyInputOrder(b.mp, b.rt);
    DestroyInputKeepsInv(b.mp, b.rt);
    DestroyInputBorrows(b.mp, b.rt);
    DestroyOutputOrder(c.mp, c.rt);
    var u := UnloadCalls(m);
    var dd := if m.loaded then [] else IfSet(m.desc, MdlDestroyDesc);
    assert b.rt.datasets == s.datasets && b.mp.input == m.input && b.mp.output == m.output;
    assert c.rt.datasets == if m.input != Null then s.datasets - {m.input} else s.datasets;
    assert c.mp.output == m.output;
    assert m.output != Null ==> m.input != m.output;
    assert OutputCalls(c.mp, c.rt) == OutputCalls(m, s);
    assert InputCalls(b.mp, b.rt) == InputCalls(m, s);
    assert IfSet(a.mp.desc, MdlDestroyDesc) == dd;
    AppendConcat(s.trace, u, dd);
    AppendConcat(s.trace, u + dd, InputCalls(m, s));
    AppendConcat(s.trace, u + dd + InputCalls(m, s), OutputCalls(m, s));
  }

  /** A successful load calls aclmdlQuerySize, aclrtMalloc for the work
      memory, aclrtMalloc for the weight memory and aclmdlLoadFromFileWithMem,
      in that order. */
  lemma LoadOrder(m: Mp, s: State, om: ModelImage)
    ensures var r := Load(m, s, om);
            r.status == Success ==>
              r.rt.trace == Append(s.trace, [MdlQuerySize, RtMalloc, RtMalloc, MdlLoadFromFileWithMem])
  {
  }

  /** A CreateDesc whose aclmdlCreateDesc succeeds calls aclmdlGetDesc next;
      one whose aclmdlCreateDesc fails stops there. */
  lemma CreateDescOrder(m: Mp, s: State)
    ensures var r := Lifecycle.CreateDesc(m, s);
            r.rt.trace == if s.calls in s.failAt then Append(s.trace, [MdlCreateDesc])
                          else Append(s.trace, [MdlCreateDesc, MdlGetDesc])
  {
  }
}
