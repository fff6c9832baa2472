/**
 * The part of the Ascend ACL runtime that the sample driver relies on, as a
 * state machine over opaque handles.  The runtime is foreign code: what it
 * does with a loaded model is not modelled, only which device buffers, host
 * buffers, data-buffer records, datasets, descriptors and models are live
 * after each call, and the bytes held by each buffer.
 *
 * Whether a call that can fail does fail is an oracle: the state carries the
 * set `failAt` of positions in the call log at which a call reports an error.
 */
module AclModel {

  /** One byte of host or device memory. */
  type byte = b: int | 0 <= b < 256

  /** An opaque runtime handle (a device pointer, host pointer, aclDataBuffer*,
      aclmdlDataset*, aclmdlDesc* or model id).  `Null` is the null pointer. */
  type Handle = nat

  const Null: Handle := 0

  /** The width of `uint32_t`, used where the source narrows a length to 32 bits. */
  const U32: nat := 0x1_0000_0000

  /** Direction argument of aclrtMemcpy. */
  datatype CopyKind = HostToDevice | DeviceToHost

  /** One entry of the call log, named after the ACL function that was called. */
  datatype Api =
    | RtMalloc | RtMallocHost | RtFree | RtFreeHost | RtMemcpy(kind: CopyKind)
    | MdlQuerySize | MdlLoadFromFileWithMem | MdlUnload
    | MdlCreateDesc | MdlGetDesc | MdlDestroyDesc
    | MdlCreateDataset | MdlDestroyDataset | MdlAddDatasetBuffer
    | AclCreateDataBuffer | AclDestroyDataBuffer
    | MdlExecute

  /** An aclDataBuffer: an address and a byte length.  The record does not own
      the address. */
  datatype Record = Record(addr: Handle, size: nat)

  /** What the runtime learns from an offline model file: the work and weight
      memory it needs and the byte size of each output. */
  datatype ModelImage = ModelImage(workSize: nat, weightSize: nat, outputs: seq<nat>)

  /** The runtime's state: live objects by handle, the next fresh handle, the
      call log and the failure oracle. */
  datatype State = State(
    device: map<Handle, seq<byte>>,   // live aclrtMalloc buffers and their bytes
    host: map<Handle, seq<byte>>,     // live aclrtMallocHost buffers and their bytes
    records: map<Handle, Record>,     // live aclDataBuffer records
    datasets: map<Handle, seq<Handle>>, // live aclmdlDataset objects: their records in order
    descs: map<Handle, seq<nat>>,     // live aclmdlDesc objects: the output sizes they describe
    models: map<Handle, seq<nat>>,    // loaded models: their output sizes
    next: Handle,
    calls: nat,                       // how many runtime calls have been made
    trace: Trace,                     // which calls, most recent last
    failAt: set<nat>)                 // the positions of the calls that fail

  /** The call log, built by appending one call at a time. */
  datatype Trace = Start | Then(before: Trace, call: Api)

  /** The result of one call: whether it succeeded, the value it produced and
      the state afterwards. */
  datatype Out<T> = Out(ok: bool, value: T, post: State)

  /** Every live handle is non-null and below `next`, so `next` is always fresh. */
  ghost predicate Valid(s: State) {
    && Null < s.next
    && (forall h :: h in s.device ==> Null < h < s.next)
    && (forall h :: h in s.host ==> Null < h < s.next)
    && (forall h :: h in s.records ==> Null < h < s.next)
    && (forall h :: h in s.datasets ==> Null < h < s.next)
    && (forall h :: h in s.descs ==> Null < h < s.next)
    && (forall h :: h in s.models ==> Null < h < s.next)
  }

  /** A runtime with nothing live, whose calls fail at the positions in `failAt`. */
  function Initial(failAt: set<nat>): (s: State)
    ensures Valid(s)
  {
    State(map[], map[], map[], map[], map[], map[], 1, 0, Start, failAt)
  }

  /** The oracle: does the next call fail? */
  predicate Fails(s: State) {
    s.calls in s.failAt
  }

  /** Records one call in the log. */
  function Log(s: State, call: Api): State {
    s.(calls := s.calls + 1, trace := Then(s.trace, call))
  }

  /** The bytes of a freshly allocated buffer (their value is not relied on). */
  function Zeros(n: nat): (z: seq<byte>)
    ensures |z| == n
  {
    seq(n, _ => 0)
  }

  /** aclmdlQuerySize: the work and weight sizes the model needs. */
  function QuerySize(s: State, om: ModelImage): (r: Out<(nat, nat)>)
    ensures Valid(s) ==> Valid(r.post)
  {
    Out(!Fails(s), (om.workSize, om.weightSize), Log(s, MdlQuerySize))
  }

  /** aclrtMalloc: a fresh device buffer of `size` bytes; on failure the out
      pointer is null and nothing is allocated. */
  function Malloc(s: State, size: nat): (r: Out<Handle>)
    ensures Valid(s) ==> Valid(r.post)
  {
    var t := Log(s, RtMalloc);
    if Fails(s) then Out(false, Null, t)
    else Out(true, s.next, t.(device := s.device[s.next := Zeros(size)], next := s.next + 1))
  }

  /** aclrtMallocHost: a fresh host buffer of `size` bytes, or null. */
  function MallocHost(s: State, size: nat): (r: Out<Handle>)
    ensures Valid(s) ==> Valid(r.post)
  {
    var t := Log(s, RtMallocHost);
    if Fails(s) then Out(false, Null, t)
    else Out(true, s.next, t.(host := s.host[s.next := Zeros(size)], next := s.next + 1))
  }

  /** aclrtFree: releases a live device buffer (freeing anything else is undefined). */
  function Free(s: State, h: Handle): (r: State)
    requires h in s.device
    ensures Valid(s) ==> Valid(r)
  {
    Log(s, RtFree).(device := s.device - {h})
  }

  /** aclrtFreeHost: releases a live host buffer. */
  function FreeHost(s: State, h: Handle): (r: State)
    requires h in s.host
    ensures Valid(s) ==> Valid(r)
  {
    Log(s, RtFreeHost).(host := s.host - {h})
  }

  /** aclrtMemcpy host to device: copies the first `count` bytes of `src` over
      the start of `dst`; refused when `count` exceeds `destMax`. */
  function MemcpyHostToDevice(s: State, dst: Handle, destMax: nat, src: Handle, count: nat): (r: Out<()>)
    requires dst in s.device && src in s.host
    requires destMax <= |s.device[dst]| && count <= |s.host[src]|
    ensures Valid(s) ==> Valid(r.post)
  {
    var t := Log(s, RtMemcpy(HostToDevice));
    if Fails(s) || count > destMax then Out(false, (), t)
    else Out(true, (), t.(device := s.device[dst := s.host[src][..count] + s.device[dst][count..]]))
  }

  /** aclrtMemcpy device to host, the mirror image of MemcpyHostToDevice. */
  function MemcpyDeviceToHost(s: State, dst: Handle, destMax: nat, src: Handle, count: nat): (r: Out<()>)
    requires dst in s.host && src in s.device
    requires destMax <= |s.host[dst]| && count <= |s.device[src]|
    ensures Valid(s) ==> Valid(r.post)
  {
    var t := Log(s, RtMemcpy(DeviceToHost));
    if Fails(s) || count > destMax then Out(false, (), t)
    else Out(true, (), t.(host := s.host[dst := s.device[src][..count] + s.host[dst][count..]]))
  }

  /** aclmdlLoadFromFileWithMem: loads the model into caller-owned work and
      weight memory and yields a fresh model id (zero on failure).  The
      memory stays owned by the caller. */
  function LoadFromFileWithMem(s: State, om: ModelImage, mem: Handle, memSize: nat,
                               weight: Handle, weightSize: nat): (r: Out<Handle>)
    ensures Valid(s) ==> Valid(r.post)
  {
    var t := Log(s, MdlLoadFromFileWithMem);
    if Fails(s) then Out(false, Null, t)
    else Out(true, s.next, t.(models := s.models[s.next := om.outputs], next := s.next + 1))
  }

  /** aclmdlUnload: forgets a loaded model. */
  function Unload(s: State, id: Handle): (r: Out<()>)
    ensures Valid(s) ==> Valid(r.post)
  {
    var t := Log(s, MdlUnload);
    if Fails(s) || id !in s.models then Out(false, (), t)
    else Out(true, (), t.(models := s.models - {id}))
  }

  /** aclmdlCreateDesc: a fresh, empty model descriptor, or null. */
  function CreateDesc(s: State): (r: Out<Handle>)
    ensures Valid(s) ==> Valid(r.post)
  {
    var t := Log(s, MdlCreateDesc);
    if Fails(s) then Out(false, Null, t)
    else Out(true, s.next, t.(descs := s.descs[s.next := []], next := s.next + 1))
  }

  /** aclmdlGetDesc: fills a descriptor with the output sizes of a loaded model. */
  function GetDesc(s: State, desc: Handle, id: Handle): (r: Out<()>)
    requires desc in s.descs
    ensures Valid(s) ==> Valid(r.post)
  {
    var t := Log(s, MdlGetDesc);
    if Fails(s) || id !in s.models then Out(false, (), t)
    else Out(true, (), t.(descs := s.descs[desc := s.models[id]]))
  }

  /** aclmdlDestroyDesc. */
  function DestroyDesc(s: State, desc: Handle): (r: State)
    requires desc in s.descs
    ensures Valid(s) ==> Valid(r)
  {
    Log(s, MdlDestroyDesc).(descs := s.descs - {desc})
  }

  /** aclmdlCreateDataset: a fresh, empty dataset, or null. */
  function CreateDataset(s: State): (r: Out<Handle>)
    ensures Valid(s) ==> Valid(r.post)
  {
    var t := Log(s, MdlCreateDataset);
    if Fails(s) then Out(false, Null, t)
    else Out(true, s.next, t.(datasets := s.datasets[s.next := []], next := s.next + 1))
  }

  /** aclmdlDestroyDataset: releases the dataset object only, not its records. */
  function DestroyDataset(s: State, ds: Handle): (r: State)
    requires ds in s.datasets
    ensures Valid(s) ==> Valid(r)
  {
    Log(s, MdlDestroyDataset).(datasets := s.datasets - {ds})
  }

  /** aclCreateDataBuffer: a fresh record of an address and a size, or null.
      The address is not checked and not owned. */
  function CreateDataBuffer(s: State, addr: Handle, size: nat): (r: Out<Handle>)
    ensures Valid(s) ==> Valid(r.post)
  {
    var t := Log(s, AclCreateDataBuffer);
    if Fails(s) then Out(false, Null, t)
    else Out(true, s.next, t.(records := s.records[s.next := Record(addr, size)], next := s.next + 1))
  }

  /** aclDestroyDataBuffer: releases the record, never the memory it points
      to; on a null record it only reports an error. */
  function DestroyDataBuffer(s: State, rec: Handle): (r: State)
    requires (rec == Null || rec in s.records)
    ensures Valid(s) ==> Valid(r)
  {
    Log(s, AclDestroyDataBuffer).(records := s.records - {rec})
  }

  /** aclmdlAddDatasetBuffer: appends a live record to a dataset; a null or
      dead record is refused. */
  function AddDatasetBuffer(s: State, ds: Handle, rec: Handle): (r: Out<()>)
    requires ds in s.datasets
    ensures Valid(s) ==> Valid(r.post)
  {
    var t := Log(s, MdlAddDatasetBuffer);
    if Fails(s) || rec !in s.records then Out(false, (), t)
    else Out(true, (), t.(datasets := s.datasets[ds := s.datasets[ds] + [rec]]))
  }

  /** aclmdlExecute: runs inference.  Its effect on the output bytes is not
      modelled; it changes no ownership. */
  function Execute(s: State, id: Handle, input: Handle, output: Handle): (r: Out<()>)
    ensures Valid(s) ==> Valid(r.post)
  {
    var ok := !Fails(s) && id in s.models && input in s.datasets && output in s.datasets;
    Out(ok, (), Log(s, MdlExecute))
  }

  /** The process writes bytes into a buffer it holds (a plain memory store,
      not a runtime call); `onDevice` selects device or host memory. */
  function Store(s: State, h: Handle, data: seq<byte>, onDevice: bool): (r: State)
    requires (if onDevice then h in s.device else h in s.host)
    ensures Valid(s) ==> Valid(r)
  {
    if onDevice then s.(device := s.device[h := data]) else s.(host := s.host[h := data])
  }
}
