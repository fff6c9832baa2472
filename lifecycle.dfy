/**
 * ModelProcess (src/model_process.cpp) as transitions over its fields and the
 * runtime state.  Each function here is the specification of the method of
 * the same name in ModelProcessing.ModelProcess; its precondition is what
 * the runtime calls it makes need (the handles it frees or reads are live).
 *
 * The ownership discipline the source follows is `Inv`, and each method
 * keeps it (the KeepsInv lemmas):
 *  - the work and weight pointers, when set, are live device buffers, of the
 *    queried sizes once a model is loaded;
 *  - the input dataset holds live records whose memory it only borrows;
 *  - the output dataset holds live records whose memory it owns: live device
 *    buffers of the records' sizes, one per record, shared with nothing else.
 */
module Lifecycle {
  import opened AclModel
  import Ranking

  /** Result of the source's Result-returning methods. */
  datatype Status = Success | Failed

  /** The fields of a ModelProcess (inc/model_process.h:95-109). */
  datatype Mp = Mp(
    modelId: Handle,
    memSize: nat,
    weightSize: nat,
    memPtr: Handle,
    weightPtr: Handle,
    loaded: bool,
    desc: Handle,
    input: Handle,
    output: Handle)

  /** A freshly constructed instance: every field null, zero or false. */
  const Empty: Mp := Mp(0, 0, 0, Null, Null, false, Null, Null, Null)

  /** The outcome of a Result-returning method: status, fields, runtime. */
  datatype Step = Step(status: Status, mp: Mp, rt: State)

  /** The outcome of a void method. */
  datatype Config = Config(mp: Mp, rt: State)

  /** The records of a dataset are live and pairwise distinct. */
  ghost predicate LiveRecords(records: map<Handle, Record>, recs: seq<Handle>) {
    && (forall i :: 0 <= i < |recs| ==> recs[i] in records)
    && (forall i, j :: 0 <= i < j < |recs| ==> recs[i] != recs[j])
  }

  /** The records own their memory: each address is a live device buffer of
      the record's size, and no two records share an address. */
  ghost predicate OwnedBuffers(device: map<Handle, seq<byte>>, records: map<Handle, Record>, recs: seq<Handle>) {
    && LiveRecords(records, recs)
    && (forall i :: 0 <= i < |recs| ==>
          records[recs[i]].addr in device && |device[records[recs[i]].addr]| == records[recs[i]].size)
    && (forall i, j :: 0 <= i < j < |recs| ==> records[recs[i]].addr != records[recs[j]].addr)
  }

  /** The set of handles in a sequence. */
  ghost function Elems(hs: seq<Handle>): set<Handle> {
    set h | h in hs
  }

  /** The addresses of the live records among `recs`. */
  ghost function Addrs(records: map<Handle, Record>, recs: seq<Handle>): set<Handle> {
    set i | 0 <= i < |recs| && recs[i] in records :: records[recs[i]].addr
  }

  /** A loaded instance's memory: two distinct live device buffers of the
      sizes recorded in the fields. */
  ghost predicate Resident(m: Mp, device: map<Handle, seq<byte>>) {
    && m.memPtr != Null && m.weightPtr != Null && m.memPtr != m.weightPtr
    && m.memPtr in device && m.weightPtr in device
    && |device[m.memPtr]| == m.memSize && |device[m.weightPtr]| == m.weightSize
  }

  /** No handle occurs in both sequences. */
  ghost predicate Disjoint(a: seq<Handle>, b: seq<Handle>) {
    forall i, j :: 0 <= i < |a| && 0 <= j < |b| ==> a[i] != b[j]
  }

  /* The methods of ModelProcess, as functions of the fields and the runtime. */

  /** LoadModelFromFileWithMem (model_process.cpp:33-75).  Refused when a
      model is loaded; otherwise query the sizes, allocate work then weight
      memory, load.  A failure after an allocation returns without freeing:
      the buffer stays in its field. */
  ghost function Load(m: Mp, s: State, om: ModelImage): (r: Step)
    ensures Valid(s) ==> Valid(r.rt)
  {
    if m.loaded then Step(Failed, m, s)
    else
      var q := QuerySize(s, om);
      if !q.ok then Step(Failed, m, q.post)
      else LoadWork(m.(memSize := q.value.0, weightSize := q.value.1), q.post, om)
  }

  /** Lines 50-54: allocate the work memory (the pointer is null when that
      fails), then go on to the weight memory. */
  ghost function LoadWork(m: Mp, s: State, om: ModelImage): (r: Step)
    ensures Valid(s) ==> Valid(r.rt)
  {
    var a := Malloc(s, m.memSize);
    if !a.ok then Step(Failed, m.(memPtr := Null), a.post)
    else LoadWeight(m.(memPtr := a.value), a.post, om)
  }

  /** Lines 56-60: allocate the weight memory, then load. */
  ghost function LoadWeight(m: Mp, s: State, om: ModelImage): (r: Step)
    ensures Valid(s) ==> Valid(r.rt)
  {
    var w := Malloc(s, m.weightSize);
    if !w.ok then Step(Failed, m.(weightPtr := Null), w.post)
    else LoadInto(m.(weightPtr := w.value), w.post, om)
  }

  /** Lines 65-72: load the model into the two buffers; only success marks
      the instance loaded. */
  ghost function LoadInto(m: Mp, s: State, om: ModelImage): (r: Step)
    ensures Valid(s) ==> Valid(r.rt)
  {
    var l := LoadFromFileWithMem(s, om, m.memPtr, m.memSize, m.weightPtr, m.weightSize);
    if !l.ok then Step(Failed, m.(modelId := l.value), l.post)
    else Step(Success, m.(modelId := l.value, loaded := true), l.post)
  }

  /** CreateDesc (model_process.cpp:78-97): create a descriptor, store it in
      the field (null when aclmdlCreateDesc fails), and fill it from the
      loaded model; when that fails the field keeps the live descriptor. */
  ghost function CreateDesc(m: Mp, s: State): (r: Step)
    ensures Valid(s) ==> Valid(r.rt)
  {
    var c := AclModel.CreateDesc(s);
    var m1 := m.(desc := c.value);
    if !c.ok then Step(Failed, m1, c.post)
    else
      var g := GetDesc(c.post, c.value, m.modelId);
      Step(if g.ok then Success else Failed, m1, g.post)
  }

  /** DestroyDesc (model_process.cpp:99-105). */
  ghost function DestroyDesc(m: Mp, s: State): (r: Config)
    requires (m.desc != Null ==> m.desc in s.descs)
    ensures Valid(s) ==> Valid(r.rt)
  {
    if m.desc == Null then Config(m, s)
    else Config(m.(desc := Null), AclModel.DestroyDesc(s, m.desc))
  }

  /** CreateInput (model_process.cpp:108-132): a dataset holding one record
      that borrows the caller's buffer.  The dataset pointer is stored even
      when a later step fails.  No device memory is allocated or freed on
      any path, and no other field changes. */
  ghost function CreateInput(m: Mp, s: State, buf: Handle, size: nat): (r: Step)
    ensures Valid(s) ==> Valid(r.rt)
    ensures r.rt.device == s.device && r.mp == m.(input := r.mp.input)
  {
    var d := CreateDataset(s);
    if !d.ok then Step(Failed, m.(input := Null), d.post)
    else InputRecord(m.(input := d.value), d.post, buf, size)
  }

  /** Lines 117-121: the record over the caller's buffer. */
  ghost function InputRecord(m: Mp, s: State, buf: Handle, size: nat): (r: Step)
    requires m.input in s.datasets
    ensures Valid(s) ==> Valid(r.rt)
    ensures r.rt.device == s.device && r.mp == m
  {
    var c := CreateDataBuffer(s, buf, size);
    if !c.ok then Step(Failed, m, c.post)
    else InputAdd(m, c.post, c.value)
  }

  /** Lines 123-129: add the record; a refused record is destroyed. */
  ghost function InputAdd(m: Mp, s: State, rec: Handle): (r: Step)
    requires m.input in s.datasets && rec in s.records
    ensures Valid(s) ==> Valid(r.rt)
    ensures r.rt.device == s.device && r.mp == m
  {
    var a := AddDatasetBuffer(s, m.input, rec);
    if !a.ok then Step(Failed, m, DestroyDataBuffer(a.post, rec))
    else Step(Success, m, a.post)
  }

  /** aclDestroyDataBuffer on each record in turn. */
  ghost function DestroyRecords(s: State, recs: seq<Handle>): (r: State)
    requires LiveRecords(s.records, recs)
    ensures Valid(s) ==> Valid(r)
    ensures r.records == s.records - Elems(recs)
    ensures r.device == s.device && r.host == s.host && r.datasets == s.datasets
    ensures r.descs == s.descs && r.models == s.models
    decreases |recs|
  {
    if recs == [] then s
    else
      var t := DestroyDataBuffer(s, recs[0]);
      assert Elems(recs) == {recs[0]} + Elems(recs[1..]);
      SubtractUnion(s.records, {recs[0]}, Elems(recs[1..]));
      DestroyRecords(t, recs[1..])
  }

  /** One step of DestroyRecords: destroy the first record, then the rest,
      which are still live. */
  lemma DestroyStep(s: State, recs: seq<Handle>)
    requires recs != [] && LiveRecords(s.records, recs)
    ensures var t := DestroyDataBuffer(s, recs[0]);
      && LiveRecords(t.records, recs[1..])
      && DestroyRecords(s, recs) == DestroyRecords(t, recs[1..])
  {
  }

  /** DestroyInput (model_process.cpp:134-146): destroy the input records
      (never the memory they point to), then the dataset. */
  ghost function DestroyInput(m: Mp, s: State): (r: Config)
    requires (m.input != Null ==> m.input in s.datasets && LiveRecords(s.records, s.datasets[m.input]))
    ensures Valid(s) ==> Valid(r.rt)
  {
    if m.input == Null then Config(m, s)
    else
      var t := DestroyRecords(s, s.datasets[m.input]);
      Config(m.(input := Null), AclModel.DestroyDataset(t, m.input))
  }

  /** CreateOutput (model_process.cpp:148-194): refused without a
      descriptor; otherwise a new output dataset, stored in the field even
      when a later step fails, filled with one owned buffer per output the
      descriptor lists.  A failure returns without releasing what earlier
      iterations added. */
  ghost function CreateOutput(m: Mp, s: State): (r: Step)
    requires (m.desc != Null ==> m.desc in s.descs)
    ensures Valid(s) ==> Valid(r.rt)
  {
    if m.desc == Null then Step(Failed, m, s)
    else
      var d := CreateDataset(s);
      if !d.ok then Step(Failed, m.(output := Null), d.post)
      else AddOutputs(m.(output := d.value), d.post, d.post.descs[m.desc], 0)
  }

  /** Lines 164-190: one iteration per output size, stopping at the first
      that fails. */
  ghost function AddOutputs(m: Mp, s: State, sizes: seq<nat>, i: nat): (r: Step)
    requires m.output in s.datasets && i <= |sizes|
    ensures Valid(s) ==> Valid(r.rt)
    ensures r.mp == m && m.output in r.rt.datasets
    decreases |sizes| - i
  {
    if i == |sizes| then Step(Success, m, s)
    else
      var o := OutputIter(m, s, sizes[i]);
      if !o.ok then Step(Failed, m, o.post)
      else AddOutputs(m, o.post, sizes, i + 1)
  }

  /** Lines 166-189, one output: allocate its buffer, then wrap it in a
      record and add the record.  The value is the record added. */
  ghost function OutputIter(m: Mp, s: State, size: nat): (o: Out<Handle>)
    requires m.output in s.datasets
    ensures Valid(s) ==> Valid(o.post)
    ensures m.output in o.post.datasets && o.post.descs == s.descs && s.next <= o.post.next
  {
    var a := Malloc(s, size);
    if !a.ok then Out(false, Null, a.post)
    else OutputWrap(m, a.post, a.value, size)
  }

  /** Lines 176-189: wrap the buffer `p` in a record and add it to the output
      dataset.  The check after aclCreateDataBuffer tests the allocation's
      status, so a null record reaches aclmdlAddDatasetBuffer, which refuses
      it; a refusal frees the buffer and destroys the record. */
  ghost function OutputWrap(m: Mp, s: State, p: Handle, size: nat): (o: Out<Handle>)
    requires m.output in s.datasets && p in s.device
    ensures Valid(s) ==> Valid(o.post)
    ensures m.output in o.post.datasets && o.post.descs == s.descs
  {
    var c := CreateDataBuffer(s, p, size);
    var g := AddDatasetBuffer(c.post, m.output, c.value);
    if !g.ok then Out(false, Null, DestroyDataBuffer(Free(g.post, p), c.value))
    else Out(true, c.value, g.post)
  }

  /** Adding a key and removing it again restores the map. */
  lemma AddRemove<V>(d: map<Handle, V>, k: Handle, v: V)
    requires k !in d
    ensures d[k := v] - {k} == d
  {
  }

  /** From a valid state, an output added is one fresh record over one fresh
      buffer of the size asked for, appended to the output dataset. */
  lemma OutputIterAdds(m: Mp, s: State, size: nat)
    requires Valid(s) && m.output in s.datasets
    ensures var o := OutputIter(m, s, size);
            o.ok ==>
              && o.value !in s.records && o.post.records == s.records[o.value := Record(s.next, size)]
              && s.next !in s.device && o.post.device == s.device[s.next := Zeros(size)]
              && o.post.datasets == s.datasets[m.output := s.datasets[m.output] + [o.value]]
  {
  }

  /** A refused record's buffer is freed. */
  lemma OutputWrapFrees(m: Mp, s: State, p: Handle, size: nat)
    requires m.output in s.datasets && p in s.device
    ensures var o := OutputWrap(m, s, p, size);
            !o.ok ==> o.post.device == s.device - {p}
  {
  }

  /** From a valid state, a refused record is destroyed, if it was made; the
      datasets are as they were. */
  lemma OutputWrapDrops(m: Mp, s: State, p: Handle, size: nat)
    requires Valid(s) && m.output in s.datasets && p in s.device
    ensures var o := OutputWrap(m, s, p, size);
            !o.ok ==> o.post.records == s.records && o.post.datasets == s.datasets
  {
    var c := CreateDataBuffer(s, p, size);
    if c.ok {
      AddRemove(s.records, s.next, Record(p, size));
    } else {
      assert s.records - {Null} == s.records;
    }
  }

  /** From a valid state, a refused output leaves device memory, records and
      datasets as they were: the buffer allocated for it is freed and the
      record made for it, if any, destroyed. */
  lemma OutputIterRefused(m: Mp, s: State, size: nat)
    requires Valid(s) && m.output in s.datasets
    ensures var o := OutputIter(m, s, size);
            !o.ok ==> o.post.device == s.device && o.post.records == s.records && o.post.datasets == s.datasets
  {
    var a := Malloc(s, size);
    if a.ok {
      OutputWrapFrees(m, a.post, a.value, size);
      OutputWrapDrops(m, a.post, a.value, size);
      AddRemove(s.device, s.next, Zeros(size));
    }
  }

  /** Removing the first of pairwise distinct records from the live records
      leaves the addresses of the rest unchanged. */
  lemma AddrsTail(records: map<Handle, Record>, recs: seq<Handle>)
    requires |recs| > 0 && LiveRecords(records, recs)
    ensures Addrs(records, recs) == {records[recs[0]].addr} + Addrs(records - {recs[0]}, recs[1..])
  {
    var t := recs[1..];
    forall a | a in Addrs(records, recs)
      ensures a in {records[recs[0]].addr} + Addrs(records - {recs[0]}, t)
    {
      var i :| 0 <= i < |recs| && recs[i] in records && records[recs[i]].addr == a;
      if i > 0 {
        assert t[i - 1] == recs[i];
      }
    }
    forall a | a in Addrs(records - {recs[0]}, t)
      ensures a in Addrs(records, recs)
    {
      var i :| 0 <= i < |t| && t[i] in records - {recs[0]} && (records - {recs[0]})[t[i]].addr == a;
      assert recs[i + 1] == t[i];
    }
  }

  /** Removing two sets of keys one after the other removes their union. */
  lemma SubtractUnion<V>(d: map<Handle, V>, x: set<Handle>, y: set<Handle>)
    ensures d - (x + y) == (d - x) - y
  {
  }

  /** Lines 311-316: for each output record, free the memory it points to,
      then destroy the record. */
  ghost function ReleaseBuffers(s: State, recs: seq<Handle>): (r: State)
    requires OwnedBuffers(s.device, s.records, recs)
    ensures Valid(s) ==> Valid(r)
    ensures r.device == s.device - Addrs(s.records, recs)
    ensures r.records == s.records - Elems(recs)
    ensures r.host == s.host && r.datasets == s.datasets && r.descs == s.descs && r.models == s.models
    decreases |recs|
  {
    if recs == [] then s
    else
      var t := DestroyDataBuffer(Free(s, s.records[recs[0]].addr), recs[0]);
      AddrsTail(s.records, recs);
      SubtractUnion(s.device, {s.records[recs[0]].addr}, Addrs(s.records - {recs[0]}, recs[1..]));
      assert Elems(recs) == {recs[0]} + Elems(recs[1..]);
      SubtractUnion(s.records, {recs[0]}, Elems(recs[1..]));
      ReleaseBuffers(t, recs[1..])
  }

  /** One step of ReleaseBuffers: release the first record, then the rest,
      whose buffers are still owned. */
  lemma ReleaseStep(s: State, recs: seq<Handle>)
    requires recs != [] && OwnedBuffers(s.device, s.records, recs)
    ensures var t := DestroyDataBuffer(Free(s, s.records[recs[0]].addr), recs[0]);
      && OwnedBuffers(t.device, t.records, recs[1..])
      && ReleaseBuffers(s, recs) == ReleaseBuffers(t, recs[1..])
  {
  }

  /** DestroyOutput (model_process.cpp:306-321): release every output buffer
      and record, then the dataset. */
  ghost function DestroyOutput(m: Mp, s: State): (r: Config)
    requires m.output != Null ==> m.output in s.datasets && OwnedBuffers(s.device, s.records, s.datasets[m.output])
    ensures Valid(s) ==> Valid(r.rt)
  {
    if m.output == Null then Config(m, s)
    else
      var t := ReleaseBuffers(s, s.datasets[m.output]);
      Config(m.(output := Null), AclModel.DestroyDataset(t, m.output))
  }

  /** Execute (model_process.cpp:323-334): run the model on the input and
      output datasets; ownership does not change. */
  ghost function Execute(m: Mp, s: State): (r: Step)
    ensures Valid(s) ==> Valid(r.rt)
  {
    var e := AclModel.Execute(s, m.modelId, m.input, m.output);
    Step(if e.ok then Success else Failed, m, e.post)
  }

  /** What Unload frees and destroys is live, and the two buffers are not
      the same one. */
  ghost predicate Releasable(m: Mp, s: State) {
    && (m.desc != Null ==> m.desc in s.descs)
    && (m.memPtr != Null ==> m.memPtr in s.device)
    && (m.weightPtr != Null ==> m.weightPtr in s.device && m.weightPtr != m.memPtr)
  }

  /** Unload (model_process.cpp:336-367): nothing unless a model is loaded;
      otherwise unload it (a failure is only logged), destroy the descriptor,
      free the work and weight memory and clear their fields, and clear the
      flag.  The model id is left as it was. */
  ghost function Unload(m: Mp, s: State): (r: Config)
    requires m.loaded ==> Releasable(m, s)
    ensures Valid(s) ==> Valid(r.rt)
  {
    if !m.loaded then Config(m, s)
    else
      var c := FreeWeight(FreeWork(DropModel(m, s)));
      Config(c.mp.(loaded := false), c.rt)
  }

  /** Lines 343-351: unload the model, then destroy the descriptor, if any,
      and clear its field.  No memory changes hands. */
  ghost function DropModel(m: Mp, s: State): (r: Config)
    requires m.desc != Null ==> m.desc in s.descs
    ensures Valid(s) ==> Valid(r.rt)
    ensures r.mp == m.(desc := Null)
    ensures r.rt.descs == if m.desc != Null then s.descs - {m.desc} else s.descs
    ensures r.rt.device == s.device && r.rt.host == s.host
    ensures r.rt.records == s.records && r.rt.datasets == s.datasets
  {
    var u := AclModel.Unload(s, m.modelId).post;
    Config(m.(desc := Null), if m.desc != Null then AclModel.DestroyDesc(u, m.desc) else u)
  }

  /** Lines 353-357: free the work memory, if any, and clear its field. */
  ghost function FreeWork(c: Config): (r: Config)
    requires c.mp.memPtr != Null ==> c.mp.memPtr in c.rt.device
    ensures Valid(c.rt) ==> Valid(r.rt)
    ensures r.rt.device == if c.mp.memPtr != Null then c.rt.device - {c.mp.memPtr} else c.rt.device
    ensures r.rt.host == c.rt.host && r.rt.descs == c.rt.descs && r.rt.models == c.rt.models
    ensures r.rt.records == c.rt.records && r.rt.datasets == c.rt.datasets
  {
    if c.mp.memPtr == Null then c
    else Config(c.mp.(memPtr := Null, memSize := 0), Free(c.rt, c.mp.memPtr))
  }

  /** Lines 359-363: free the weight memory, if any, and clear its field. */
  ghost function FreeWeight(c: Config): (r: Config)
    requires c.mp.weightPtr != Null ==> c.mp.weightPtr in c.rt.device
    ensures Valid(c.rt) ==> Valid(r.rt)
    ensures r.rt.device == if c.mp.weightPtr != Null then c.rt.device - {c.mp.weightPtr} else c.rt.device
    ensures r.rt.host == c.rt.host && r.rt.descs == c.rt.descs && r.rt.models == c.rt.models
    ensures r.rt.records == c.rt.records && r.rt.datasets == c.rt.datasets
  {
    if c.mp.weightPtr == Null then c
    else Config(c.mp.(weightPtr := Null, weightSize := 0), Free(c.rt, c.mp.weightPtr))
  }

  /** The output records own their buffers, which are not the model's memory. */
  ghost predicate OutputOwned(m: Mp, device: map<Handle, seq<byte>>, records: map<Handle, Record>,
                              datasets: map<Handle, seq<Handle>>) {
    m.output != Null ==>
      && m.output in datasets
      && OwnedBuffers(device, records, datasets[m.output])
      && forall i :: 0 <= i < |datasets[m.output]| ==>
           records[datasets[m.output][i]].addr != m.memPtr && records[datasets[m.output][i]].addr != m.weightPtr
  }

  /** The input records are live and are not output records. */
  ghost predicate InputBorrowed(m: Mp, records: map<Handle, Record>, datasets: map<Handle, seq<Handle>>) {
    m.input != Null ==>
      && m.input in datasets
      && LiveRecords(records, datasets[m.input])
      && (m.output != Null && m.output in datasets ==>
            m.input != m.output && Disjoint(datasets[m.input], datasets[m.output]))
  }

  /** What the fields hold, stated over the runtime's maps. */
  ghost predicate Owned(m: Mp, device: map<Handle, seq<byte>>, records: map<Handle, Record>,
                        datasets: map<Handle, seq<Handle>>, descs: map<Handle, seq<nat>>) {
    && (m.memPtr != Null ==> m.memPtr in device)
    && (m.weightPtr != Null ==> m.weightPtr in device)
    && (m.loaded ==> Resident(m, device))
    && (m.desc != Null ==> m.desc in descs)
    && OutputOwned(m, device, records, datasets)
    && InputBorrowed(m, records, datasets)
  }

  /** The ownership invariant every ModelProcess method keeps. */
  ghost predicate Inv(m: Mp, s: State) {
    Valid(s) && Owned(m, s.device, s.records, s.datasets, s.descs)
  }

  /* Transfer lemmas: `Owned` under the map updates the methods make. */

  /** A new device buffer, held in the work pointer or not at all. */
  lemma WorkAllocated(m: Mp, device: map<Handle, seq<byte>>, records: map<Handle, Record>,
                      datasets: map<Handle, seq<Handle>>, descs: map<Handle, seq<nat>>, p: Handle, z: seq<byte>)
    requires Owned(m, device, records, datasets, descs) && !m.loaded && p != Null && p !in device && Null !in device
    ensures Owned(m.(memPtr := p), device[p := z], records, datasets, descs)
    ensures Owned(m.(memPtr := Null), device, records, datasets, descs)
  {
    if m.output != Null {
      var outs := datasets[m.output];
      assert forall i :: 0 <= i < |outs| ==> records[outs[i]].addr in device;
    }
  }

  /** A new device buffer, held in the weight pointer or not at all. */
  lemma WeightAllocated(m: Mp, device: map<Handle, seq<byte>>, records: map<Handle, Record>,
                        datasets: map<Handle, seq<Handle>>, descs: map<Handle, seq<nat>>, p: Handle, z: seq<byte>)
    requires Owned(m, device, records, datasets, descs) && !m.loaded && p != Null && p !in device && Null !in device
    ensures Owned(m.(weightPtr := p), device[p := z], records, datasets, descs)
    ensures Owned(m.(weightPtr := Null), device, records, datasets, descs)
  {
    if m.output != Null {
      var outs := datasets[m.output];
      assert forall i :: 0 <= i < |outs| ==> records[outs[i]].addr in device;
    }
  }

  /** The model loaded into the two buffers, or its load refused. */
  lemma ModelLoaded(m: Mp, device: map<Handle, seq<byte>>, records: map<Handle, Record>,
                    datasets: map<Handle, seq<Handle>>, descs: map<Handle, seq<nat>>, id: Handle)
    requires Owned(m, device, records, datasets, descs)
    requires m.memPtr != Null && m.weightPtr != Null && m.memPtr != m.weightPtr
    requires |device[m.memPtr]| == m.memSize && |device[m.weightPtr]| == m.weightSize
    ensures Owned(m.(modelId := id), device, records, datasets, descs)
    ensures Owned(m.(modelId := id, loaded := true), device, records, datasets, descs)
  {
  }

  /** A descriptor field set to a live descriptor, or to null. */
  lemma DescSet(m: Mp, device: map<Handle, seq<byte>>, records: map<Handle, Record>,
                datasets: map<Handle, seq<Handle>>, descs: map<Handle, seq<nat>>,
                desc: Handle, descs2: map<Handle, seq<nat>>)
    requires Owned(m, device, records, datasets, descs) && (desc != Null ==> desc in descs2)
    ensures Owned(m.(desc := desc), device, records, datasets, descs2)
  {
  }

  /** A fresh record that no dataset of the instance holds yet, kept or destroyed. */
  lemma RecordCreated(m: Mp, device: map<Handle, seq<byte>>, records: map<Handle, Record>,
                      datasets: map<Handle, seq<Handle>>, descs: map<Handle, seq<nat>>, rec: Handle, x: Record)
    requires Owned(m, device, records, datasets, descs) && rec !in records
    ensures Owned(m, device, records[rec := x], datasets, descs)
    ensures Owned(m, device, records[rec := x] - {rec}, datasets, descs)
  {
    if m.output != Null {
      var outs := datasets[m.output];
      assert forall i :: 0 <= i < |outs| ==> outs[i] in records;
    }
    if m.input != Null {
      var ins := datasets[m.input];
      assert forall i :: 0 <= i < |ins| ==> ins[i] in records;
    }
  }

  /** A new, empty input dataset. */
  lemma InputCreated(m: Mp, device: map<Handle, seq<byte>>, records: map<Handle, Record>,
                     datasets: map<Handle, seq<Handle>>, descs: map<Handle, seq<nat>>, ds: Handle)
    requires Owned(m, device, records, datasets, descs) && ds != Null && ds !in datasets
    ensures Owned(m.(input := ds), device, records, datasets[ds := []], descs)
  {
  }

  /** A live record that no dataset of the instance holds, appended to the
      empty input dataset, or destroyed. */
  lemma InputFilled(m: Mp, device: map<Handle, seq<byte>>, records: map<Handle, Record>,
                    datasets: map<Handle, seq<Handle>>, descs: map<Handle, seq<nat>>, rec: Handle)
    requires Owned(m, device, records, datasets, descs) && rec in records
    requires m.input != Null && m.input in datasets && datasets[m.input] == []
    requires m.output != Null && m.output in datasets ==> rec !in datasets[m.output]
    ensures Owned(m, device, records, datasets[m.input := datasets[m.input] + [rec]], descs)
    ensures Owned(m, device, records - {rec}, datasets, descs)
  {
    if m.output != Null {
      var outs := datasets[m.output];
      assert forall i :: 0 <= i < |outs| ==> outs[i] != rec;
    }
    assert datasets[m.input] + [rec] == [rec];
  }

  /** The input records and dataset destroyed. */
  lemma InputDetached(m: Mp, device: map<Handle, seq<byte>>, records: map<Handle, Record>,
                      datasets: map<Handle, seq<Handle>>, descs: map<Handle, seq<nat>>)
    requires Owned(m, device, records, datasets, descs) && m.input != Null
    ensures Owned(m.(input := Null), device, records - Elems(datasets[m.input]), datasets - {m.input}, descs)
  {
    if m.output != Null {
      var outs := datasets[m.output];
      var ins := datasets[m.input];
      forall i | 0 <= i < |outs|
        ensures outs[i] !in Elems(ins)
      {
        assert forall k :: 0 <= k < |ins| ==> ins[k] != outs[i];
        assert outs[i] !in ins;
      }
    }
  }

  /** Device memory the instance does not hold: not its work or weight
      memory, and not the address of an output record. */
  ghost predicate Unheld(m: Mp, records: map<Handle, Record>, datasets: map<Handle, seq<Handle>>, p: Handle) {
    && p != m.memPtr && p != m.weightPtr
    && (m.output != Null && m.output in datasets && LiveRecords(records, datasets[m.output]) ==>
          forall i :: 0 <= i < |datasets[m.output]| ==> records[datasets[m.output][i]].addr != p)
  }

  /** A new, empty output dataset, or none. */
  lemma OutputCreated(m: Mp, device: map<Handle, seq<byte>>, records: map<Handle, Record>,
                      datasets: map<Handle, seq<Handle>>, descs: map<Handle, seq<nat>>, ds: Handle)
    requires Owned(m, device, records, datasets, descs) && ds != Null && ds !in datasets
    ensures Owned(m.(output := ds), device, records, datasets[ds := []], descs)
    ensures Owned(m.(output := Null), device, records, datasets, descs)
  {
  }

  /** A fresh device buffer is held by nobody. */
  lemma OutputAllocated(m: Mp, device: map<Handle, seq<byte>>, records: map<Handle, Record>,
                        datasets: map<Handle, seq<Handle>>, descs: map<Handle, seq<nat>>, p: Handle, z: seq<byte>)
    requires Owned(m, device, records, datasets, descs) && p != Null && p !in device
    ensures Owned(m, device[p := z], records, datasets, descs)
    ensures Unheld(m, records, datasets, p)
  {
    if m.output != Null {
      var outs := datasets[m.output];
      assert forall i :: 0 <= i < |outs| ==> records[outs[i]].addr in device;
    }
  }

  /** A new record over an unheld buffer of its size, appended to the output
      dataset: the dataset now owns that buffer. */
  lemma OutputAppended(m: Mp, device: map<Handle, seq<byte>>, records: map<Handle, Record>,
                       datasets: map<Handle, seq<Handle>>, descs: map<Handle, seq<nat>>,
                       p: Handle, rec: Handle, size: nat)
    requires Owned(m, device, records, datasets, descs) && m.output != Null
    requires p in device && |device[p]| == size && Unheld(m, records, datasets, p) && rec !in records
    ensures Owned(m, device, records[rec := Record(p, size)],
                  datasets[m.output := datasets[m.output] + [rec]], descs)
  {
    var outs := datasets[m.output];
    assert forall i :: 0 <= i < |outs| ==> outs[i] in records;
    if m.input != Null {
      var ins := datasets[m.input];
      assert forall i :: 0 <= i < |ins| ==> ins[i] in records;
    }
  }

  /** The output buffers freed and their records and dataset destroyed. */
  lemma OutputDropped(m: Mp, device: map<Handle, seq<byte>>, records: map<Handle, Record>,
                      datasets: map<Handle, seq<Handle>>, descs: map<Handle, seq<nat>>)
    requires Owned(m, device, records, datasets, descs) && m.output != Null
    ensures var outs := datasets[m.output];
            Owned(m.(output := Null), device - Addrs(records, outs), records - Elems(outs),
                  datasets - {m.output}, descs)
  {
    var outs := datasets[m.output];
    assert m.memPtr !in Addrs(records, outs);
    assert m.weightPtr !in Addrs(records, outs);
    if m.input != Null {
      var ins := datasets[m.input];
      forall i | 0 <= i < |ins|
        ensures ins[i] !in Elems(outs)
      {
        assert forall k :: 0 <= k < |outs| ==> outs[k] != ins[i];
        assert ins[i] !in outs;
      }
    }
  }

  /** The model's memory freed, its descriptor (if any) destroyed, the
      instance marked unloaded. */
  lemma Unloaded(m: Mp, device: map<Handle, seq<byte>>, records: map<Handle, Record>,
                 datasets: map<Handle, seq<Handle>>, descs: map<Handle, seq<nat>>, descs2: map<Handle, seq<nat>>)
    requires Owned(m, device, records, datasets, descs) && m.loaded && Null !in device
    ensures Owned(m.(desc := Null, memPtr := Null, memSize := 0, weightPtr := Null, weightSize := 0, loaded := false),
                  device - {m.memPtr} - {m.weightPtr}, records, datasets, descs2)
  {
    if m.output != Null {
      var outs := datasets[m.output];
      assert forall i :: 0 <= i < |outs| ==> records[outs[i]].addr in device;
    }
  }

  /* Each method keeps the invariant. */

  lemma LoadIntoKeepsInv(m: Mp, s: State, om: ModelImage)
    requires Inv(m, s) && !m.loaded
    requires m.memPtr != Null && m.weightPtr != Null && m.memPtr != m.weightPtr
    requires |s.device[m.memPtr]| == m.memSize && |s.device[m.weightPtr]| == m.weightSize
    ensures var r := LoadInto(m, s, om); Inv(r.mp, r.rt)
  {
    var l := LoadFromFileWithMem(s, om, m.memPtr, m.memSize, m.weightPtr, m.weightSize);
    ModelLoaded(m, s.device, s.records, s.datasets, s.descs, l.value);
  }

  lemma LoadWeightKeepsInv(m: Mp, s: State, om: ModelImage)
    requires Inv(m, s) && !m.loaded && m.memPtr != Null && |s.device[m.memPtr]| == m.memSize
    ensures var r := LoadWeight(m, s, om); Inv(r.mp, r.rt)
  {
    var w := Malloc(s, m.weightSize);
    WeightAllocated(m, s.device, s.records, s.datasets, s.descs, s.next, Zeros(m.weightSize));
    if w.ok {
      LoadIntoKeepsInv(m.(weightPtr := w.value), w.post, om);
    }
  }

  lemma LoadWorkKeepsInv(m: Mp, s: State, om: ModelImage)
    requires Inv(m, s) && !m.loaded
    ensures var r := LoadWork(m, s, om); Inv(r.mp, r.rt)
  {
    var a := Malloc(s, m.memSize);
    WorkAllocated(m, s.device, s.records, s.datasets, s.descs, s.next, Zeros(m.memSize));
    if a.ok {
      LoadWeightKeepsInv(m.(memPtr := a.value), a.post, om);
    }
  }

  /** Loading keeps the invariant; in particular a loaded instance holds two
      distinct live buffers of the sizes in its fields. */
  lemma LoadKeepsInv(m: Mp, s: State, om: ModelImage)
    requires Inv(m, s)
    ensures var r := Load(m, s, om); Inv(r.mp, r.rt)
  {
    if !m.loaded {
      var q := QuerySize(s, om);
      if q.ok {
        LoadWorkKeepsInv(m.(memSize := q.value.0, weightSize := q.value.1), q.post, om);
      }
    }
  }

  lemma CreateDescKeepsInv(m: Mp, s: State)
    requires Inv(m, s)
    ensures var r := CreateDesc(m, s); Inv(r.mp, r.rt)
  {
    var c := AclModel.CreateDesc(s);
    DescSet(m, s.device, s.records, s.datasets, s.descs, c.value, c.post.descs);
    if c.ok {
      var g := GetDesc(c.post, c.value, m.modelId);
      DescSet(m, s.device, s.records, s.datasets, s.descs, c.value, g.post.descs);
    }
  }

  lemma DestroyDescKeepsInv(m: Mp, s: State)
    requires Inv(m, s)
    ensures var r := DestroyDesc(m, s); Inv(r.mp, r.rt)
  {
  }

  lemma InputAddKeepsInv(m: Mp, s: State, rec: Handle)
    requires Inv(m, s) && m.input != Null && s.datasets[m.input] == [] && rec in s.records
    requires m.output != Null ==> rec !in s.datasets[m.output]
    ensures var r := InputAdd(m, s, rec); Inv(r.mp, r.rt)
  {
    InputFilled(m, s.device, s.records, s.datasets, s.descs, rec);
  }

  lemma InputRecordKeepsInv(m: Mp, s: State, buf: Handle, size: nat)
    requires Inv(m, s) && m.input != Null && s.datasets[m.input] == []
    ensures var r := InputRecord(m, s, buf, size); Inv(r.mp, r.rt)
  {
    var c := CreateDataBuffer(s, buf, size);
    RecordCreated(m, s.device, s.records, s.datasets, s.descs, s.next, Record(buf, size));
    if c.ok {
      assert m.output != Null ==> forall i :: 0 <= i < |s.datasets[m.output]| ==> s.datasets[m.output][i] in s.records;
      InputAddKeepsInv(m, c.post, c.value);
    }
  }

  /** CreateInput keeps the invariant: on every path the input dataset, if
      stored, holds live records that are not output records. */
  lemma CreateInputKeepsInv(m: Mp, s: State, buf: Handle, size: nat)
    requires Inv(m, s)
    ensures var r := CreateInput(m, s, buf, size); Inv(r.mp, r.rt)
  {
    var d := CreateDataset(s);
    if d.ok {
      InputCreated(m, s.device, s.records, s.datasets, s.descs, s.next);
      InputRecordKeepsInv(m.(input := d.value), d.post, buf, size);
    }
  }

  lemma DestroyInputKeepsInv(m: Mp, s: State)
    requires Inv(m, s)
    ensures var r := DestroyInput(m, s); Inv(r.mp, r.rt)
  {
    if m.input != Null {
      InputDetached(m, s.device, s.records, s.datasets, s.descs);
    }
  }

  /** One output added keeps the invariant: the new buffer is owned by the
      new record alone, and a refusal releases both. */
  lemma OutputIterKeepsInv(m: Mp, s: State, size: nat)
    requires Inv(m, s) && m.output != Null
    ensures Inv(m, OutputIter(m, s, size).post)
  {
    var o := OutputIter(m, s, size);
    OutputIterAdds(m, s, size);
    OutputIterRefused(m, s, size);
    if o.ok {
      OutputAllocated(m, s.device, s.records, s.datasets, s.descs, s.next, Zeros(size));
      OutputAppended(m, s.device[s.next := Zeros(size)], s.records, s.datasets, s.descs, s.next, o.value, size);
    }
  }

  lemma {:induction false} AddOutputsKeepsInv(m: Mp, s: State, sizes: seq<nat>, i: nat)
    requires Inv(m, s) && m.output != Null && i <= |sizes|
    ensures var r := AddOutputs(m, s, sizes, i); Inv(r.mp, r.rt)
    decreases |sizes| - i
  {
    if i < |sizes| {
      var o := OutputIter(m, s, sizes[i]);
      OutputIterKeepsInv(m, s, sizes[i]);
      if o.ok {
        AddOutputsKeepsInv(m, o.post, sizes, i + 1);
      }
    }
  }

  /** CreateOutput keeps the invariant: every buffer it adds to the output
      dataset is a fresh device buffer owned by exactly one output record. */
  lemma CreateOutputKeepsInv(m: Mp, s: State)
    requires Inv(m, s)
    ensures var r := CreateOutput(m, s); Inv(r.mp, r.rt)
  {
    if m.desc != Null {
      var d := CreateDataset(s);
      OutputCreated(m, s.device, s.records, s.datasets, s.descs, s.next);
      if d.ok {
        AddOutputsKeepsInv(m.(output := d.value), d.post, d.post.descs[m.desc], 0);
      }
    }
  }

  lemma DestroyOutputKeepsInv(m: Mp, s: State)
    requires Inv(m, s)
    ensures var r := DestroyOutput(m, s); Inv(r.mp, r.rt)
  {
    if m.output != Null {
      OutputDropped(m, s.device, s.records, s.datasets, s.descs);
    }
  }

  lemma ExecuteKeepsInv(m: Mp, s: State)
    requires Inv(m, s)
    ensures var r := Execute(m, s); Inv(r.mp, r.rt)
  {
  }

  lemma UnloadKeepsInv(m: Mp, s: State)
    requires Inv(m, s)
    ensures var r := Unload(m, s); Inv(r.mp, r.rt)
  {
    if m.loaded {
      var d := DropModel(m, s);
      Unloaded(m, s.device, s.records, s.datasets, s.descs, d.rt.descs);
    }
  }

  /** ~ModelProcess (model_process.cpp:24-30): unload, then destroy the
      descriptor, the input and the output. */
  ghost function Teardown(m: Mp, s: State): (r: Config)
    requires Inv(m, s)
    ensures Inv(r.mp, r.rt)
  {
    var a := Unload(m, s);
    UnloadKeepsInv(m, s);
    var b := DestroyDesc(a.mp, a.rt);
    DestroyDescKeepsInv(a.mp, a.rt);
    var c := DestroyInput(b.mp, b.rt);
    DestroyInputKeepsInv(b.mp, b.rt);
    DestroyOutputKeepsInv(c.mp, c.rt);
    DestroyOutput(c.mp, c.rt)
  }
}
