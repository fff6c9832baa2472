/**
 * The ACL runtime as the driver sees it: an object whose calls change its
 * state.  Each method is one ACL entry point and is specified by the
 * transition function of the same name in AclModel.
 */
module AclRuntime {
  import opened AclModel

  class Runtime {
    var device: map<Handle, seq<byte>>
    var host: map<Handle, seq<byte>>
    var records: map<Handle, Record>
    var datasets: map<Handle, seq<Handle>>
    var descs: map<Handle, seq<nat>>
    var models: map<Handle, seq<nat>>
    var next: Handle
    var calls: nat
    var trace: Trace
    const failAt: set<nat>

    /** The abstract value of the runtime. */
    function Snapshot(): State
      reads this
    {
      State(device, host, records, datasets, descs, models, next, calls, trace, failAt)
    }

    /** A runtime with nothing allocated whose calls fail at the positions in `failAt`. */
    constructor (failAt: set<nat>)
      ensures Snapshot() == Initial(failAt)
    {
      device, host, records, datasets, descs, models := map[], map[], map[], map[], map[], map[];
      next, calls, trace := 1, 0, Start;
      this.failAt := failAt;
    }

    /** Whether the call about to be made fails. */
    function NextFails(): bool
      reads this
    {
      calls in failAt
    }

    method QuerySize(om: ModelImage) returns (ok: bool, memSize: nat, weightSize: nat)
      modifies this
      ensures Out(ok, (memSize, weightSize), Snapshot()) == AclModel.QuerySize(old(Snapshot()), om)
    {
      ok := !NextFails();
      memSize, weightSize := om.workSize, om.weightSize;
      calls, trace := calls + 1, Then(trace, MdlQuerySize);
    }

    method Malloc(size: nat) returns (ok: bool, ptr: Handle)
      modifies this
      ensures Out(ok, ptr, Snapshot()) == AclModel.Malloc(old(Snapshot()), size)
    {
      ok := !NextFails();
      ptr := Null;
      if ok {
        ptr := next;
        device := device[next := Zeros(size)];
        next := next + 1;
      }
      calls, trace := calls + 1, Then(trace, RtMalloc);
    }

    method MallocHost(size: nat) returns (ok: bool, ptr: Handle)
      modifies this
      ensures Out(ok, ptr, Snapshot()) == AclModel.MallocHost(old(Snapshot()), size)
    {
      ok := !NextFails();
      ptr := Null;
      if ok {
        ptr := next;
        host := host[next := Zeros(size)];
        next := next + 1;
      }
      calls, trace := calls + 1, Then(trace, RtMallocHost);
    }

    method Free(ptr: Handle)
      requires ptr in device
      modifies this
      ensures Snapshot() == AclModel.Free(old(Snapshot()), ptr)
    {
      device := device - {ptr};
      calls, trace := calls + 1, Then(trace, RtFree);
    }

    method FreeHost(ptr: Handle)
      requires ptr in host
      modifies this
      ensures Snapshot() == AclModel.FreeHost(old(Snapshot()), ptr)
    {
      host := host - {ptr};
      calls, trace := calls + 1, Then(trace, RtFreeHost);
    }

    method MemcpyHostToDevice(dst: Handle, destMax: nat, src: Handle, count: nat) returns (ok: bool)
      requires dst in device && src in host
      requires destMax <= |device[dst]| && count <= |host[src]|
      modifies this
      ensures Out(ok, (), Snapshot()) == AclModel.MemcpyHostToDevice(old(Snapshot()), dst, destMax, src, count)
    {
      ok := !NextFails() && count <= destMax;
      if ok {
        device := device[dst := host[src][..count] + device[dst][count..]];
      }
      calls, trace := calls + 1, Then(trace, RtMemcpy(HostToDevice));
    }

    method MemcpyDeviceToHost(dst: Handle, destMax: nat, src: Handle, count: nat) returns (ok: bool)
      requires dst in host && src in device
      requires destMax <= |host[dst]| && count <= |device[src]|
      modifies this
      ensures Out(ok, (), Snapshot()) == AclModel.MemcpyDeviceToHost(old(Snapshot()), dst, destMax, src, count)
    {
      ok := !NextFails() && count <= destMax;
      if ok {
        host := host[dst := device[src][..count] + host[dst][count..]];
      }
      calls, trace := calls + 1, Then(trace, RtMemcpy(DeviceToHost));
    }

    method LoadFromFileWithMem(om: ModelImage, mem: Handle, memSize: nat, weight: Handle, weightSize: nat)
      returns (ok: bool, id: Handle)
      modifies this
      ensures Out(ok, id, Snapshot()) == AclModel.LoadFromFileWithMem(old(Snapshot()), om, mem, memSize, weight, weightSize)
    {
      ok := !NextFails();
      id := Null;
      if ok {
        id := next;
        models := models[next := om.outputs];
        next := next + 1;
      }
      calls, trace := calls + 1, Then(trace, MdlLoadFromFileWithMem);
    }

    method Unload(id: Handle) returns (ok: bool)
      modifies this
      ensures Out(ok, (), Snapshot()) == AclModel.Unload(old(Snapshot()), id)
    {
      ok := !NextFails() && id in models;
      if ok {
        models := models - {id};
      }
      calls, trace := calls + 1, Then(trace, MdlUnload);
    }

    method CreateDesc() returns (desc: Handle)
      requires Null < next
      modifies this
      ensures var r := AclModel.CreateDesc(old(Snapshot()));
              desc == r.value && Snapshot() == r.post && (desc != Null <==> r.ok)
    {
      desc := Null;
      if !NextFails() {
        desc := next;
        descs := descs[next := []];
        next := next + 1;
      }
      calls, trace := calls + 1, Then(trace, MdlCreateDesc);
    }

    method GetDesc(desc: Handle, id: Handle) returns (ok: bool)
      requires desc in descs
      modifies this
      ensures Out(ok, (), Snapshot()) == AclModel.GetDesc(old(Snapshot()), desc, id)
    {
      ok := !NextFails() && id in models;
      if ok {
        descs := descs[desc := models[id]];
      }
      calls, trace := calls + 1, Then(trace, MdlGetDesc);
    }

    method DestroyDesc(desc: Handle)
      requires desc in descs
      modifies this
      ensures Snapshot() == AclModel.DestroyDesc(old(Snapshot()), desc)
    {
      descs := descs - {desc};
      calls, trace := calls + 1, Then(trace, MdlDestroyDesc);
    }

    method CreateDataset() returns (ds: Handle)
      requires Null < next
      modifies this
      ensures var r := AclModel.CreateDataset(old(Snapshot()));
              ds == r.value && Snapshot() == r.post && (ds != Null <==> r.ok)
    {
      ds := Null;
      if !NextFails() {
        ds := next;
        datasets := datasets[next := []];
        next := next + 1;
      }
      calls, trace := calls + 1, Then(trace, MdlCreateDataset);
    }

    method DestroyDataset(ds: Handle)
      requires ds in datasets
      modifies this
      ensures Snapshot() == AclModel.DestroyDataset(old(Snapshot()), ds)
    {
      datasets := datasets - {ds};
      calls, trace := calls + 1, Then(trace, MdlDestroyDataset);
    }

    method CreateDataBuffer(addr: Handle, size: nat) returns (rec: Handle)
      requires Null < next
      modifies this
      ensures var r := AclModel.CreateDataBuffer(old(Snapshot()), addr, size);
              rec == r.value && Snapshot() == r.post && (rec != Null <==> r.ok)
    {
      rec := Null;
      if !NextFails() {
        rec := next;
        records := records[next := Record(addr, size)];
        next := next + 1;
      }
      calls, trace := calls + 1, Then(trace, AclCreateDataBuffer);
    }

    method DestroyDataBuffer(rec: Handle)
      requires (rec == Null || rec in records)
      modifies this
      ensures Snapshot() == AclModel.DestroyDataBuffer(old(Snapshot()), rec)
    {
      records := records - {rec};
      calls, trace := calls + 1, Then(trace, AclDestroyDataBuffer);
    }

    method AddDatasetBuffer(ds: Handle, rec: Handle) returns (ok: bool)
      requires ds in datasets
      modifies this
      ensures Out(ok, (), Snapshot()) == AclModel.AddDatasetBuffer(old(Snapshot()), ds, rec)
    {
      ok := !NextFails() && rec in records;
      if ok {
        datasets := datasets[ds := datasets[ds] + [rec]];
      }
      calls, trace := calls + 1, Then(trace, MdlAddDatasetBuffer);
    }

    method Execute(id: Handle, input: Handle, output: Handle) returns (ok: bool)
      modifies this
      ensures Out(ok, (), Snapshot()) == AclModel.Execute(old(Snapshot()), id, input, output)
    {
      ok := !NextFails() && id in models && input in datasets && output in datasets;
      calls, trace := calls + 1, Then(trace, MdlExecute);
    }

    method Store(h: Handle, data: seq<byte>, onDevice: bool)
      requires (if onDevice then h in device else h in host)
      modifies this
      ensures Snapshot() == AclModel.Store(old(Snapshot()), h, data, onDevice)
    {
      if onDevice {
        device := device[h := data];
      } else {
        host := host[h := data];
      }
    }

    /** aclmdlGetNumOutputs. */
    function GetNumOutputs(desc: Handle): nat
      reads this
      requires desc in descs
    {
      |descs[desc]|
    }

    /** aclmdlGetOutputSizeByIndex. */
    function GetOutputSizeByIndex(desc: Handle, i: nat): nat
      reads this
      requires desc in descs && i < |descs[desc]|
    {
      descs[desc][i]
    }

    /** aclmdlGetDatasetNumBuffers; a null dataset has no buffers. */
    function GetDatasetNumBuffers(ds: Handle): nat
      reads this
    {
      if ds in datasets then |datasets[ds]| else 0
    }

    /** aclmdlGetDatasetBuffer. */
    function GetDatasetBuffer(ds: Handle, i: nat): Handle
      reads this
      requires ds in datasets && i < |datasets[ds]|
    {
      datasets[ds][i]
    }

    /** aclGetDataBufferAddr. */
    function GetDataBufferAddr(rec: Handle): Handle
      reads this
      requires rec in records
    {
      records[rec].addr
    }

    /** aclGetDataBufferSize. */
    function GetDataBufferSize(rec: Handle): nat
      reads this
      requires rec in records
    {
      records[rec].size
    }
  }
}
