/**
 * The ModelProcess class (inc/model_process.h, src/model_process.cpp): its
 * fields are updated in place by its methods, each of which calls the
 * runtime `rt`.  Every method is proved to produce exactly the fields and
 * runtime state the Lifecycle function of the same name (or, for
 * OutputModelResult, the Reporting function) prescribes.
 */
module ModelProcessing {
  import opened AclModel
  import opened AclRuntime
  import Lifecycle
  import Reporting
  import Ranking

  class ModelProcess {
    var modelId: Handle
    var memSize: nat
    var weightSize: nat
    var memPtr: Handle
    var weightPtr: Handle
    var loaded: bool
    var desc: Handle
    var input: Handle
    var output: Handle
    /** The ACL runtime every call goes to. */
    const rt: Runtime

    /** The abstract value of the fields. */
    function Fields(): Lifecycle.Mp
      reads this
    {
      Lifecycle.Mp(modelId, memSize, weightSize, memPtr, weightPtr, loaded, desc, input, output)
    }

    /** model_process.cpp:18-22: every field null, zero or false. */
    constructor (rt: Runtime)
      ensures Fields() == Lifecycle.Empty && this.rt == rt
    {
      modelId, memSize, weightSize := 0, 0, 0;
      memPtr, weightPtr, loaded := Null, Null, false;
      desc, input, output := Null, Null, Null;
      this.rt := rt;
    }

    /** LoadModelFromFileWithMem (model_process.cpp:33-75). */
    method LoadModelFromFileWithMem(om: ModelImage) returns (status: Lifecycle.Status)
      modifies this, rt
      ensures Lifecycle.Step(status, Fields(), rt.Snapshot()) == Lifecycle.Load(old(Fields()), old(rt.Snapshot()), om)
    {
      if loaded {
        return Lifecycle.Failed;
      }
      var ok, qMem, qWeight := rt.QuerySize(om);
      if !ok {
        return Lifecycle.Failed;
      }
      memSize, weightSize := qMem, qWeight;
      status := LoadWork(om);
    }

    /** Lines 50-54 and what follows them. */
    method LoadWork(om: ModelImage) returns (status: Lifecycle.Status)
      modifies this, rt
      ensures Lifecycle.Step(status, Fields(), rt.Snapshot()) == Lifecycle.LoadWork(old(Fields()), old(rt.Snapshot()), om)
    {
      var ok;
      ok, memPtr := rt.Malloc(memSize);
      if !ok {
        return Lifecycle.Failed;
      }
      status := LoadWeight(om);
    }

    /** Lines 56-60 and what follows them. */
    method LoadWeight(om: ModelImage) returns (status: Lifecycle.Status)
      modifies this, rt
      ensures Lifecycle.Step(status, Fields(), rt.Snapshot()) == Lifecycle.LoadWeight(old(Fields()), old(rt.Snapshot()), om)
    {
      var ok;
      ok, weightPtr := rt.Malloc(weightSize);
      if !ok {
        return Lifecycle.Failed;
      }
      ok, modelId := rt.LoadFromFileWithMem(om, memPtr, memSize, weightPtr, weightSize);
      if !ok {
        return Lifecycle.Failed;
      }
      loaded := true;
      return Lifecycle.Success;
    }

    /** CreateDesc (model_process.cpp:78-97). */
    method CreateDesc() returns (status: Lifecycle.Status)
      requires Null < rt.next
      modifies this, rt
      ensures Lifecycle.Step(status, Fields(), rt.Snapshot()) == Lifecycle.CreateDesc(old(Fields()), old(rt.Snapshot()))
    {
      desc := rt.CreateDesc();
      if desc == Null {
        return Lifecycle.Failed;
      }
      var ok := rt.GetDesc(desc, modelId);
      if !ok {
        return Lifecycle.Failed;
      }
      return Lifecycle.Success;
    }

    /** DestroyDesc (model_process.cpp:99-105). */
    method DestroyDesc()
      requires desc != Null ==> desc in rt.descs
      modifies this, rt
      ensures Lifecycle.Config(Fields(), rt.Snapshot()) == Lifecycle.DestroyDesc(old(Fields()), old(rt.Snapshot()))
    {
      if desc != Null {
        rt.DestroyDesc(desc);
        desc := Null;
      }
    }

    /** CreateInput (model_process.cpp:108-132). */
    method CreateInput(inputDataBuffer: Handle, bufferSize: nat) returns (status: Lifecycle.Status)
      requires Null < rt.next
      modifies this, rt
      ensures Lifecycle.Step(status, Fields(), rt.Snapshot())
              == Lifecycle.CreateInput(old(Fields()), old(rt.Snapshot()), inputDataBuffer, bufferSize)
    {
      input := rt.CreateDataset();
      if input == Null {
        return Lifecycle.Failed;
      }
      var inputData := rt.CreateDataBuffer(inputDataBuffer, bufferSize);
      if inputData == Null {
        return Lifecycle.Failed;
      }
      var ok := rt.AddDatasetBuffer(input, inputData);
      if !ok {
        rt.DestroyDataBuffer(inputData);
        return Lifecycle.Failed;
      }
      return Lifecycle.Success;
    }

    /** DestroyInput (model_process.cpp:134-146). */
    method DestroyInput()
      requires input != Null ==> input in rt.datasets && Lifecycle.LiveRecords(rt.records, rt.datasets[input])
      modifies this, rt
      ensures Lifecycle.Config(Fields(), rt.Snapshot()) == Lifecycle.DestroyInput(old(Fields()), old(rt.Snapshot()))
    {
      if input == Null {
        return;
      }
      ghost var s0 := rt.Snapshot();
      ghost var recs := rt.datasets[input];
      var i := 0;
      while i < rt.GetDatasetNumBuffers(input)
        modifies rt
        invariant input in rt.datasets && rt.datasets[input] == recs && i <= |recs|
        invariant Lifecycle.LiveRecords(rt.records, recs[i..])
        invariant Lifecycle.DestroyRecords(rt.Snapshot(), recs[i..]) == Lifecycle.DestroyRecords(s0, recs)
      {
        var dataBuffer := rt.GetDatasetBuffer(input, i);
        ghost var cur := rt.Snapshot();
        Lifecycle.DestroyStep(cur, recs[i..]);
        assert recs[i..][1..] == recs[i + 1..];
        rt.DestroyDataBuffer(dataBuffer);
        assert rt.Snapshot() == DestroyDataBuffer(cur, recs[i]);
        i := i + 1;
      }
      rt.DestroyDataset(input);
      input := Null;
    }

    /** CreateOutput (model_process.cpp:148-194).  The check at line 177
        tests the allocation's status again, so it can never fire; it is
        not modelled, and a failed aclCreateDataBuffer reaches
        aclmdlAddDatasetBuffer with a null record. */
    method CreateOutput() returns (status: Lifecycle.Status)
      requires Null < rt.next
      requires desc != Null ==> desc in rt.descs
      modifies this, rt
      ensures Lifecycle.Step(status, Fields(), rt.Snapshot()) == Lifecycle.CreateOutput(old(Fields()), old(rt.Snapshot()))
    {
      if desc == Null {
        return Lifecycle.Failed;
      }
      output := rt.CreateDataset();
      if output == Null {
        return Lifecycle.Failed;
      }
      var outputSize := rt.GetNumOutputs(desc);
      ghost var sizes := rt.descs[desc];
      ghost var m1 := Fields();
      ghost var s1 := rt.Snapshot();
      var i := 0;
      while i < outputSize
        modifies rt
        invariant i <= outputSize == |sizes|
        invariant Null < rt.next && rt.descs == s1.descs && output in rt.datasets
        invariant Lifecycle.AddOutputs(m1, rt.Snapshot(), sizes, i) == Lifecycle.AddOutputs(m1, s1, sizes, 0)
      {
        var bufferSize := rt.GetOutputSizeByIndex(desc, i);
        var ok, _ := AddOutput(bufferSize);
        if !ok {
          return Lifecycle.Failed;
        }
        i := i + 1;
      }
      return Lifecycle.Success;
    }

    /** Lines 166-189, the body of the loop of CreateOutput for one output
        of `bufferSize` bytes: `ok` is false when the method returns early,
        and `outputData` is the record added. */
    method AddOutput(bufferSize: nat) returns (ok: bool, outputData: Handle)
      requires Null < rt.next && output in rt.datasets
      modifies rt
      ensures Out(ok, outputData, rt.Snapshot()) == Lifecycle.OutputIter(Fields(), old(rt.Snapshot()), bufferSize)
    {
      var outputBuffer;
      ok, outputBuffer := rt.Malloc(bufferSize);
      if !ok {
        return false, Null;
      }
      outputData := rt.CreateDataBuffer(outputBuffer, bufferSize);
      ok := rt.AddDatasetBuffer(output, outputData);
      if !ok {
        rt.Free(outputBuffer);
        rt.DestroyDataBuffer(outputData);
        return false, Null;
      }
    }

    /** OutputModelResult (model_process.cpp:248-304), the reports it logs
        returned as values; `onDevice` is the run mode.  It returns early,
        with the reports made so far, when a report fails. */
    method OutputModelResult(onDevice: bool) returns (reports: seq<seq<Ranking.Entry>>)
      requires output in rt.datasets ==> Reporting.Readable(rt.device, rt.records, rt.datasets[output])
      modifies rt
      ensures var r := Reporting.OutputModelResult(output, old(rt.Snapshot()), onDevice);
              reports == r.value && rt.Snapshot() == r.post
    {
      reports := [];
      ghost var s0 := rt.Snapshot();
      ghost var recs := if output in rt.datasets then rt.datasets[output] else [];
      ghost var r0 := Reporting.OutputModelResult(output, s0, onDevice);
      assert reports + r0.value == r0.value;
      var i := 0;
      while i < rt.GetDatasetNumBuffers(output)
        invariant i <= |recs|
        invariant rt.device == s0.device && rt.records == s0.records && rt.datasets == s0.datasets
        invariant var t := Reporting.Reports(rt.Snapshot(), recs, i, onDevice);
                  Out(t.ok, reports + t.value, t.post) == r0
      {
        var dataBuffer := rt.GetDatasetBuffer(output, i);
        var ok, top := ReportBuffer(dataBuffer, onDevice);
        if !ok {
          assert reports + [] == reports;
          return;
        }
        ghost var t := Reporting.Reports(rt.Snapshot(), recs, i + 1, onDevice);
        Reporting.Append(reports, top, t.value);
        reports := reports + [top];
        i := i + 1;
      }
    }

    /** Lines 253-299, the body of the loop of OutputModelResult for one
        output record: `ok` is false when the method returns early. */
    method ReportBuffer(dataBuffer: Handle, onDevice: bool) returns (ok: bool, top: seq<Ranking.Entry>)
      requires dataBuffer in rt.records && rt.records[dataBuffer].addr in rt.device
      requires rt.records[dataBuffer].size <= |rt.device[rt.records[dataBuffer].addr]|
      modifies rt
      ensures Out(ok, top, rt.Snapshot()) == Reporting.Report(old(rt.Snapshot()), dataBuffer, onDevice)
    {
      var data := rt.GetDataBufferAddr(dataBuffer);
      var len := rt.GetDataBufferSize(dataBuffer) % U32;
      Reporting.Truncated(rt.GetDataBufferSize(dataBuffer));
      if !onDevice {
        var outHostData;
        ok, outHostData := rt.MallocHost(len);
        if !ok {
          return ok, [];
        }
        ok := rt.MemcpyDeviceToHost(outHostData, len, data, len);
        if !ok {
          return ok, [];
        }
        top := Ranking.RankTopFive(Ranking.Scores(rt.host[outHostData][..len]));
        rt.FreeHost(outHostData);
      } else {
        ok := true;
        top := Ranking.RankTopFive(Ranking.Scores(rt.device[data][..len]));
      }
    }

    /** DestroyOutput (model_process.cpp:306-321). */
    method DestroyOutput()
      requires output != Null ==> output in rt.datasets && Lifecycle.OwnedBuffers(rt.device, rt.records, rt.datasets[output])
      modifies this, rt
      ensures Lifecycle.Config(Fields(), rt.Snapshot()) == Lifecycle.DestroyOutput(old(Fields()), old(rt.Snapshot()))
    {
      if output == Null {
        return;
      }
      ghost var s0 := rt.Snapshot();
      ghost var recs := rt.datasets[output];
      var i := 0;
      while i < rt.GetDatasetNumBuffers(output)
        modifies rt
        invariant output in rt.datasets && rt.datasets[output] == recs && i <= |recs|
        invariant Lifecycle.OwnedBuffers(rt.device, rt.records, recs[i..])
        invariant Lifecycle.ReleaseBuffers(rt.Snapshot(), recs[i..]) == Lifecycle.ReleaseBuffers(s0, recs)
      {
        var dataBuffer := rt.GetDatasetBuffer(output, i);
        var data := rt.GetDataBufferAddr(dataBuffer);
        ghost var cur := rt.Snapshot();
        Lifecycle.ReleaseStep(cur, recs[i..]);
        assert recs[i..][1..] == recs[i + 1..];
        rt.Free(data);
        rt.DestroyDataBuffer(dataBuffer);
        assert rt.Snapshot() == DestroyDataBuffer(Free(cur, data), recs[i]);
        i := i + 1;
      }
      rt.DestroyDataset(output);
      output := Null;
    }

    /** Execute (model_process.cpp:323-334). */
    method Execute() returns (status: Lifecycle.Status)
      modifies rt
      ensures Lifecycle.Step(status, Fields(), rt.Snapshot()) == Lifecycle.Execute(Fields(), old(rt.Snapshot()))
    {
      var ok := rt.Execute(modelId, input, output);
      status := if ok then Lifecycle.Success else Lifecycle.Failed;
    }

    /** Unload (model_process.cpp:336-367). */
    method Unload()
      requires loaded ==> Lifecycle.Releasable(Fields(), rt.Snapshot())
      modifies this, rt
      ensures Lifecycle.Config(Fields(), rt.Snapshot()) == Lifecycle.Unload(old(Fields()), old(rt.Snapshot()))
    {
      if !loaded {
        return;
      }
      DropModel();
      FreeWork();
      FreeWeight();
      loaded := false;
    }

    /** Lines 343-351: unload the model and destroy the descriptor. */
    method DropModel()
      requires desc != Null ==> desc in rt.descs
      modifies this, rt
      ensures Lifecycle.Config(Fields(), rt.Snapshot()) == Lifecycle.DropModel(old(Fields()), old(rt.Snapshot()))
    {
      var _ := rt.Unload(modelId);
      if desc != Null {
        rt.DestroyDesc(desc);
        desc := Null;
      }
    }

    /** Lines 353-357: free the work memory. */
    method FreeWork()
      requires memPtr != Null ==> memPtr in rt.device
      modifies this, rt
      ensures Lifecycle.Config(Fields(), rt.Snapshot())
              == Lifecycle.FreeWork(Lifecycle.Config(old(Fields()), old(rt.Snapshot())))
    {
      if memPtr != Null {
        rt.Free(memPtr);
        memPtr, memSize := Null, 0;
      }
    }

    /** Lines 359-363: free the weight memory. */
    method FreeWeight()
      requires weightPtr != Null ==> weightPtr in rt.device
      modifies this, rt
      ensures Lifecycle.Config(Fields(), rt.Snapshot())
              == Lifecycle.FreeWeight(Lifecycle.Config(old(Fields()), old(rt.Snapshot())))
    {
      if weightPtr != Null {
        rt.Free(weightPtr);
        weightPtr, weightSize := Null, 0;
      }
    }

    /** ~ModelProcess (model_process.cpp:24-30). */
    method Teardown()
      requires Lifecycle.Inv(Fields(), rt.Snapshot())
      modifies this, rt
      ensures Lifecycle.Config(Fields(), rt.Snapshot()) == Lifecycle.Teardown(old(Fields()), old(rt.Snapshot()))
      ensures Lifecycle.Inv(Fields(), rt.Snapshot())
    {
      Lifecycle.UnloadKeepsInv(Fields(), rt.Snapshot());
      Unload();
      Lifecycle.DestroyDescKeepsInv(Fields(), rt.Snapshot());
      DestroyDesc();
      Lifecycle.DestroyInputKeepsInv(Fields(), rt.Snapshot());
      DestroyInput();
      DestroyOutput();
    }
  }
}
