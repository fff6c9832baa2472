/**
 * SampleProcess::Process (src/sample_process.cpp:84-149), the driver: load
 * the model, describe it, create its outputs, then for each test file fetch
 * a device buffer, bind it as the input, run the model, report the top-5
 * rankings and release the buffer and the input.  The ModelProcess is a
 * local, so its destructor tears it down on every return.
 *
 * The functions here are the driver's specification over the runtime state
 * and the fields of the ModelProcess; the method Process runs it on the
 * runtime object and the ModelProcess class.
 */
module SampleProcessing {
  import opened AclModel
  import opened AclRuntime
  import Lifecycle
  import Reporting
  import FileTransfer
  import Ranking
  import Utils
  import ModelProcessing

  /** Where Process stopped: after both files, or at the first failure,
      with the index of the file for a failure inside the loop. */
  datatype Exit =
    | Completed
    | LoadFailed
    | DescFailed
    | OutputFailed
    | BufferFailed(index: nat)
    | InputFailed(index: nat)
    | ExecuteFailed(index: nat)

  /** A failure inside the loop, at a file index. */
  predicate InLoop(e: Exit) {
    e.BufferFailed? || e.InputFailed? || e.ExecuteFailed?
  }

  /** A stop before the loop. */
  predicate InSetup(e: Exit) {
    e == LoadFailed || e == DescFailed || e == OutputFailed
  }

  /** Process returns SUCCESS exactly when it completes the loop. */
  function Status(e: Exit): (st: Lifecycle.Status)
    ensures st == Lifecycle.Success <==> e == Completed
  {
    if e == Completed then Lifecycle.Success else Lifecycle.Failed
  }

  /** The files the loop processes, in order (lines 109-112). */
  const TestFiles: seq<string> := ["../data/dog1_1024_683.bin", "../data/dog2_1024_683.bin"]

  /** What each path names; a path not in the map does not exist. */
  type FileSystem = map<string, FileTransfer.File>

  function Lookup(fs: FileSystem, path: string): FileTransfer.File {
    if path in fs then fs[path] else FileTransfer.Missing
  }

  /** The outcome of the driver, or of part of it: where it stopped, the
      reports of the files it ranked (one top-5 list per output), and the
      fields and runtime state at that point. */
  datatype Run = Run(exit: Exit, reports: seq<seq<seq<Ranking.Entry>>>, mp: Lifecycle.Mp, rt: State)

  /** What the driver keeps from stage to stage: the ModelProcess owns what
      its fields name in the runtime state. */
  ghost predicate Ready(m: Lifecycle.Mp, s: State) {
    Lifecycle.Inv(m, s)
  }

  /* Helper facts about the ownership invariant that the driver needs. */

  /** The output dataset of an instance that keeps the invariant can be read:
      every record's buffer is live and of the record's size. */
  lemma OutputReadable(m: Lifecycle.Mp, s: State)
    requires Ready(m, s)
    ensures m.output in s.datasets ==> Reporting.Readable(s.device, s.records, s.datasets[m.output])
  {
  }

  /** Device memory the instance does not hold can be freed without breaking
      the invariant; the input records may still point at it. */
  lemma FreeUnheld(m: Lifecycle.Mp, device: map<Handle, seq<byte>>, records: map<Handle, Record>,
                   datasets: map<Handle, seq<Handle>>, descs: map<Handle, seq<nat>>, p: Handle)
    requires Lifecycle.Owned(m, device, records, datasets, descs) && Lifecycle.Unheld(m, records, datasets, p)
    ensures Lifecycle.Owned(m, device - {p}, records, datasets, descs)
  {
  }

  /** A buffer stays unheld when a new record is created. */
  lemma UnheldNewRecord(m: Lifecycle.Mp, records: map<Handle, Record>, datasets: map<Handle, seq<Handle>>,
                        p: Handle, k: Handle, x: Record)
    requires Lifecycle.Unheld(m, records, datasets, p) && k !in records
    requires m.output != Null ==> m.output in datasets && Lifecycle.LiveRecords(records, datasets[m.output])
    ensures Lifecycle.Unheld(m, records[k := x], datasets, p)
  {
    if m.output != Null {
      var outs := datasets[m.output];
      assert forall i :: 0 <= i < |outs| ==> outs[i] in records;
    }
  }

  /** A buffer stays unheld when a new dataset is created. */
  lemma UnheldNewDataset(m: Lifecycle.Mp, records: map<Handle, Record>, datasets: map<Handle, seq<Handle>>,
                         p: Handle, d: Handle, ys: seq<Handle>)
    requires Lifecycle.Unheld(m, records, datasets, p) && d !in datasets
    requires m.output != Null ==> m.output in datasets
    ensures Lifecycle.Unheld(m, records, datasets[d := ys], p)
  {
  }

  /** Lines 123-129 on an empty input dataset: the record is added, or
      destroyed again. */
  lemma InputAddEffect(m: Lifecycle.Mp, s: State, rec: Handle)
    requires m.input in s.datasets && s.datasets[m.input] == [] && rec in s.records
    ensures var r := Lifecycle.InputAdd(m, s, rec);
      && (r.status == Lifecycle.Success ==> r.rt.records == s.records && r.rt.datasets == s.datasets[m.input := [rec]])
      && (r.status == Lifecycle.Failed ==> r.rt.records == s.records - {rec} && r.rt.datasets == s.datasets)
  {
    assert [] + [rec] == [rec];
  }

  /** Lines 117-129 on an empty input dataset: one new record, added to
      the dataset on success and gone again on failure. */
  lemma InputRecordEffect(m: Lifecycle.Mp, s: State, buf: Handle, size: nat)
    requires m.input in s.datasets && s.datasets[m.input] == [] && s.next !in s.records
    ensures var r := Lifecycle.InputRecord(m, s, buf, size);
      && (r.status == Lifecycle.Success ==>
            r.rt.records == s.records[s.next := Record(buf, size)] && r.rt.datasets == s.datasets[m.input := [s.next]])
      && (r.status == Lifecycle.Failed ==> r.rt.records == s.records && r.rt.datasets == s.datasets)
  {
    var c := CreateDataBuffer(s, buf, size);
    if c.ok {
      InputAddEffect(m, c.post, s.next);
      Lifecycle.AddRemove(s.records, s.next, Record(buf, size));
    }
  }

  /** A key written twice holds the second value. */
  lemma Overwrite<V>(d: map<Handle, V>, k: Handle, v: V, w: V)
    ensures d[k := v][k := w] == d[k := w]
  {
  }

  /** A successful CreateInput from a valid state adds one new dataset
      holding one new record over the buffer, and nothing else. */
  lemma CreateInputSucceeds(m: Lifecycle.Mp, s: State, buf: Handle, size: nat)
    requires Null < s.next && s.next !in s.datasets && s.next + 1 !in s.records
    ensures var r := Lifecycle.CreateInput(m, s, buf, size);
      r.status == Lifecycle.Success ==>
        && r.mp.input == s.next
        && r.rt.records == s.records[s.next + 1 := Record(buf, size)]
        && r.rt.datasets == s.datasets[s.next := [s.next + 1]]
  {
    var d := CreateDataset(s);
    if d.ok {
      var c := Lifecycle.InputRecord(m.(input := s.next), d.post, buf, size);
      assert Lifecycle.CreateInput(m, s, buf, size) == c;
      InputRecordEffect(m.(input := s.next), d.post, buf, size);
      var one: seq<Handle> := [s.next + 1];
      Overwrite(s.datasets, s.next, [], one);
    }
  }

  /** A failed CreateInput leaves the records as they were and at most a
      new, empty dataset in the input field. */
  lemma CreateInputFails(m: Lifecycle.Mp, s: State, buf: Handle, size: nat)
    requires Null < s.next && s.next !in s.datasets && s.next + 1 !in s.records
    ensures var r := Lifecycle.CreateInput(m, s, buf, size);
      r.status == Lifecycle.Failed ==>
        && r.rt.records == s.records
        && (r.mp.input == Null ==> r.rt.datasets == s.datasets)
        && (r.mp.input != Null ==> r.mp.input == s.next && r.rt.datasets == s.datasets[s.next := []])
  {
    var d := CreateDataset(s);
    if d.ok {
      InputRecordEffect(m.(input := s.next), d.post, buf, size);
    }
  }

  /** CreateInput keeps an unheld buffer unheld. */
  lemma CreateInputKeepsUnheld(m: Lifecycle.Mp, s: State, buf: Handle, size: nat, p: Handle)
    requires Ready(m, s) && Lifecycle.Unheld(m, s.records, s.datasets, p)
    ensures var c := Lifecycle.CreateInput(m, s, buf, size);
      Lifecycle.Unheld(c.mp, c.rt.records, c.rt.datasets, p)
  {
    UnheldOnSuccess(m, s, buf, size, p);
    UnheldOnFailure(m, s, buf, size, p);
  }

  lemma UnheldOnSuccess(m: Lifecycle.Mp, s: State, buf: Handle, size: nat, p: Handle)
    requires Lifecycle.Inv(m, s) && Lifecycle.Unheld(m, s.records, s.datasets, p)
    ensures var c := Lifecycle.CreateInput(m, s, buf, size);
      c.status == Lifecycle.Success ==> Lifecycle.Unheld(c.mp, c.rt.records, c.rt.datasets, p)
  {
    CreateInputSucceeds(m, s, buf, size);
    UnheldNewRecord(m, s.records, s.datasets, p, s.next + 1, Record(buf, size));
    UnheldNewDataset(m, s.records[s.next + 1 := Record(buf, size)], s.datasets, p, s.next, [s.next + 1]);
  }

  lemma UnheldOnFailure(m: Lifecycle.Mp, s: State, buf: Handle, size: nat, p: Handle)
    requires Lifecycle.Inv(m, s) && Lifecycle.Unheld(m, s.records, s.datasets, p)
    ensures var c := Lifecycle.CreateInput(m, s, buf, size);
      c.status == Lifecycle.Failed ==> Lifecycle.Unheld(c.mp, c.rt.records, c.rt.datasets, p)
  {
    CreateInputFails(m, s, buf, size);
    UnheldNewDataset(m, s.records, s.datasets, p, s.next, []);
  }

  /** Fetching the file keeps the invariant, and a fetched buffer is live
      and held by nobody. */
  lemma FetchKeepsInv(m: Lifecycle.Mp, s: State, f: FileTransfer.File, onDevice: bool)
    requires Ready(m, s)
    ensures var b := FileTransfer.GetDeviceBufferOfFile(s, f, onDevice);
      && Ready(m, b.post)
      && (b.ok ==> b.value.0 in b.post.device && Lifecycle.Unheld(m, b.post.records, b.post.datasets, b.value.0))
  {
    var b := FileTransfer.GetDeviceBufferOfFile(s, f, onDevice);
    FileTransfer.TransferLeaksNothing(s, f, onDevice);
    FileTransfer.TransferDelivers(s, f, onDevice);
    if b.ok {
      Lifecycle.OutputAllocated(m, s.device, s.records, s.datasets, s.descs, b.value.0, b.post.device[b.value.0]);
    }
  }

  /** Binding an unheld buffer keeps the invariant and leaves the buffer
      live and unheld; when the binding fails, freeing the buffer keeps the
      invariant too. */
  lemma BindKeepsReady(m: Lifecycle.Mp, s: State, buf: Handle, size: nat)
    requires Ready(m, s) && buf in s.device && Lifecycle.Unheld(m, s.records, s.datasets, buf)
    ensures var c := Lifecycle.CreateInput(m, s, buf, size);
      && Ready(c.mp, c.rt) && buf in c.rt.device && Lifecycle.Unheld(c.mp, c.rt.records, c.rt.datasets, buf)
      && (c.status == Lifecycle.Failed ==> Ready(c.mp, Free(c.rt, buf)))
  {
    var c := Lifecycle.CreateInput(m, s, buf, size);
    Lifecycle.CreateInputKeepsInv(m, s, buf, size);
    CreateInputKeepsUnheld(m, s, buf, size, buf);
    FreeUnheld(c.mp, c.rt.device, c.rt.records, c.rt.datasets, c.rt.descs, buf);
  }

  /** Reporting, freeing an unheld buffer and destroying the input keep
      the invariant, and the outputs can be read. */
  lemma ReleaseKeepsReady(m: Lifecycle.Mp, s: State, buf: Handle, onDevice: bool)
    requires Ready(m, s) && buf in s.device && Lifecycle.Unheld(m, s.records, s.datasets, buf)
    ensures m.output in s.datasets ==> Reporting.Readable(s.device, s.records, s.datasets[m.output])
    ensures var o := Reporting.OutputModelResult(m.output, s, onDevice);
      && buf in o.post.device
      && var t := Free(o.post, buf);
      && Ready(m, t)
      && var d := Lifecycle.DestroyInput(m, t);
      Ready(d.mp, d.rt)
  {
    OutputReadable(m, s);
    var o := Reporting.OutputModelResult(m.output, s, onDevice);
    FreeUnheld(m, o.post.device, o.post.records, o.post.datasets, o.post.descs, buf);
    var t := Free(o.post, buf);
    Lifecycle.DestroyInputKeepsInv(m, t);
  }

  /** Reports gathered so far, then the next file's, then the rest. */
  lemma Concat<T>(a: seq<T>, b: seq<T>, c: seq<T>)
    ensures a + (b + c) == (a + b) + c
  {
  }

  /* The driver, stage by stage.  The loop's specification runs each stage
     of file `i` on to the end of the loop: the stage, the rest of file `i`,
     then the files after it. */

  /** How a run of the files from `i` on stops: it completes with one report
      per file, or fails at a file `k` from `i` on, with one report for each
      file before `k`. */
  predicate Reports(r: Run, i: nat) {
    || (r.exit == Completed && |r.reports| == |TestFiles| - i)
    || (InLoop(r.exit) && i <= r.exit.index < |TestFiles| && |r.reports| == r.exit.index - i)
  }

  /** Lines 113-146: the files from `i` on, stopping at the first that fails. */
  ghost function Loop(m: Lifecycle.Mp, s: State, fs: FileSystem, onDevice: bool, i: nat): (r: Run)
    requires Ready(m, s) && i <= |TestFiles|
    ensures Ready(r.mp, r.rt) && Reports(r, i) && !InSetup(r.exit)
    ensures r.exit == Completed ==> r.rt.device == s.device && (i < |TestFiles| ==> r.mp.input == Null)
    decreases |TestFiles| - i, 4
  {
    if i == |TestFiles| then Run(Completed, [], m, s)
    else Iteration(m, s, fs, onDevice, i)
  }

  /** Lines 115-124 for file `i`: fetch its device buffer; stop if there is
      none. */
  ghost function Iteration(m: Lifecycle.Mp, s: State, fs: FileSystem, onDevice: bool, i: nat): (r: Run)
    requires Ready(m, s) && i < |TestFiles|
    ensures Ready(r.mp, r.rt) && Reports(r, i)
    ensures r.exit == BufferFailed(i) ==> r.rt.device == s.device && r.rt.host == s.host
    ensures r.exit == Completed ==> r.rt.device == s.device && r.mp.input == Null
    decreases |TestFiles| - i, 3
  {
    var f := Lookup(fs, TestFiles[i]);
    var b := FileTransfer.GetDeviceBufferOfFile(s, f, onDevice);
    FetchKeepsInv(m, s, f, onDevice);
    FileTransfer.TransferLeaksNothing(s, f, onDevice);
    FileTransfer.TransferDelivers(s, f, onDevice);
    if !b.ok then Run(BufferFailed(i), [], m, b.post)
    else
      Lifecycle.AddRemove(s.device, b.value.0, f.bytes[..FileTransfer.FileLength(f.bytes)]);
      Bound(m, b.post, b.value.0, b.value.1, fs, onDevice, i)
  }

  /** Lines 126-131: bind the buffer as the input; on failure free the
      buffer and stop. */
  ghost function Bound(m: Lifecycle.Mp, s: State, buf: Handle, size: nat, fs: FileSystem, onDevice: bool, i: nat): (r: Run)
    requires Ready(m, s) && buf in s.device && Lifecycle.Unheld(m, s.records, s.datasets, buf)
    requires i < |TestFiles|
    ensures Ready(r.mp, r.rt) && Reports(r, i)
    ensures r.exit != BufferFailed(i)
    ensures r.exit == InputFailed(i) ==> r.rt.device == s.device - {buf}
    ensures r.exit == Completed ==> r.rt.device == s.device - {buf} && r.mp.input == Null
    decreases |TestFiles| - i, 2
  {
    var c := Lifecycle.CreateInput(m, s, buf, size);
    BindKeepsReady(m, s, buf, size);
    if c.status == Lifecycle.Failed then Run(InputFailed(i), [], c.mp, Free(c.rt, buf))
    else Infer(c.mp, c.rt, buf, fs, onDevice, i)
  }

  /** Lines 133-137: run the model; on failure stop, leaving the buffer
      allocated and the input bound. */
  ghost function Infer(m: Lifecycle.Mp, s: State, buf: Handle, fs: FileSystem, onDevice: bool, i: nat): (r: Run)
    requires Ready(m, s) && buf in s.device && Lifecycle.Unheld(m, s.records, s.datasets, buf)
    requires i < |TestFiles|
    ensures Ready(r.mp, r.rt) && Reports(r, i)
    ensures r.exit != BufferFailed(i) && r.exit != InputFailed(i)
    ensures r.exit == ExecuteFailed(i) ==>
      && r.mp == m && r.rt.device == s.device && r.rt.records == s.records && r.rt.datasets == s.datasets
    ensures r.exit == Completed ==> r.rt.device == s.device - {buf} && r.mp.input == Null
    decreases |TestFiles| - i, 1
  {
    var e := Lifecycle.Execute(m, s);
    Lifecycle.ExecuteKeepsInv(m, s);
    if e.status == Lifecycle.Failed then Run(ExecuteFailed(i), [], e.mp, e.rt)
    else Release(e.mp, e.rt, buf, fs, onDevice, i)
  }

  /** Lines 140-144: report the outputs (whatever OutputModelResult
      returns, the loop goes on), then the files after `i`. */
  ghost function Release(m: Lifecycle.Mp, s: State, buf: Handle, fs: FileSystem, onDevice: bool, i: nat): (r: Run)
    requires Ready(m, s) && buf in s.device && Lifecycle.Unheld(m, s.records, s.datasets, buf)
    requires i < |TestFiles|
    ensures Ready(r.mp, r.rt) && Reports(r, i)
    ensures InLoop(r.exit) ==> i < r.exit.index
    ensures r.exit == Completed ==> r.rt.device == s.device - {buf} && r.mp.input == Null
    decreases |TestFiles| - i, 0
  {
    var c := Released(m, s, buf, onDevice);
    var rest := Loop(c.mp, c.rt, fs, onDevice, i + 1);
    Run(rest.exit, c.reports + rest.reports, rest.mp, rest.rt)
  }

  /** Lines 140-144 for one file: its report, then the buffer freed and
      the input destroyed, so that the next file starts with device memory
      as this one found it before its fetch and no input bound. */
  ghost function Released(m: Lifecycle.Mp, s: State, buf: Handle, onDevice: bool): (r: Run)
    requires Ready(m, s) && buf in s.device && Lifecycle.Unheld(m, s.records, s.datasets, buf)
    ensures r.exit == Completed && |r.reports| == 1 && Ready(r.mp, r.rt)
    ensures r.mp == m.(input := Null) && r.rt.device == s.device - {buf}
  {
    ReleaseKeepsReady(m, s, buf, onDevice);
    var o := Reporting.OutputModelResult(m.output, s, onDevice);
    var t := Free(o.post, buf);
    var d := Lifecycle.DestroyInput(m, t);
    Run(Completed, [o.value], d.mp, d.rt)
  }

  /** Lines 86-91 and on: load the model; stop if that fails. */
  ghost function Session(s: State, fs: FileSystem, om: ModelImage, onDevice: bool): (r: Run)
    requires Valid(s)
    ensures Ready(r.mp, r.rt)
    ensures if InSetup(r.exit) then r.reports == [] else Reports(r, 0)
  {
    var l := Lifecycle.Load(Lifecycle.Empty, s, om);
    Lifecycle.LoadKeepsInv(Lifecycle.Empty, s, om);
    if l.status == Lifecycle.Failed then Run(LoadFailed, [], l.mp, l.rt)
    else Described(l.mp, l.rt, fs, onDevice)
  }

  /** Lines 93-98 and on: create the model's descriptor; stop if that
      fails. */
  ghost function Described(m: Lifecycle.Mp, s: State, fs: FileSystem, onDevice: bool): (r: Run)
    requires Ready(m, s)
    ensures Ready(r.mp, r.rt)
    ensures r.exit != LoadFailed && if InSetup(r.exit) then r.reports == [] else Reports(r, 0)
  {
    var d := Lifecycle.CreateDesc(m, s);
    Lifecycle.CreateDescKeepsInv(m, s);
    if d.status == Lifecycle.Failed then Run(DescFailed, [], d.mp, d.rt)
    else Prepared(d.mp, d.rt, fs, onDevice)
  }

  /** Lines 100-105 and on: create the output dataset; stop if that fails,
      otherwise run the loop. */
  ghost function Prepared(m: Lifecycle.Mp, s: State, fs: FileSystem, onDevice: bool): (r: Run)
    requires Ready(m, s)
    ensures Ready(r.mp, r.rt)
    ensures r.exit == OutputFailed || !InSetup(r.exit)
    ensures if r.exit == OutputFailed then r.reports == [] else Reports(r, 0)
    ensures r.exit == Completed ==> r.mp.input == Null
  {
    var o := Lifecycle.CreateOutput(m, s);
    Lifecycle.CreateOutputKeepsInv(m, s);
    if o.status == Lifecycle.Failed then Run(OutputFailed, [], o.mp, o.rt)
    else Loop(o.mp, o.rt, fs, onDevice, 0)
  }

  /** Process: the session, then the ModelProcess destructor on whatever
      path the session returned by. */
  ghost function Processed(s: State, fs: FileSystem, om: ModelImage, onDevice: bool): (r: Run)
    requires Valid(s)
    ensures Ready(r.mp, r.rt)
  {
    var b := Session(s, fs, om, onDevice);
    var t := Lifecycle.Teardown(b.mp, b.rt);
    Run(b.exit, b.reports, t.mp, t.rt)
  }

  /** With the reports `done` of the files before `i`, the files from `i`
      on, from fields `m` in state `s`, finish the whole loop `r`. */
  ghost predicate Pending(m: Lifecycle.Mp, s: State, fs: FileSystem, onDevice: bool, i: nat,
                          done: seq<seq<seq<Ranking.Entry>>>, r: Run) {
    && Ready(m, s) && i <= |TestFiles|
    && var l := Loop(m, s, fs, onDevice, i); Run(l.exit, done + l.reports, l.mp, l.rt) == r
  }

  /** How a stage method for file `i` ends, against the run `r` of the stage
      function from the same start: a failure has no report and ends where
      `r` ends; a completed file has its reports and leaves fields `m` in
      state `s` from which the files after `i` finish `r`. */
  ghost predicate Leads(exit: Exit, reports: seq<seq<seq<Ranking.Entry>>>, m: Lifecycle.Mp, s: State,
                        fs: FileSystem, onDevice: bool, i: nat, r: Run) {
    if exit != Completed then reports == [] && Run(exit, [], m, s) == r
    else i < |TestFiles| && Pending(m, s, fs, onDevice, i + 1, reports, r)
  }

  /** Before the first file nothing is done and the whole loop is pending. */
  lemma PendingStart(m: Lifecycle.Mp, s: State, fs: FileSystem, onDevice: bool) returns (r: Run)
    requires Ready(m, s)
    ensures r == Loop(m, s, fs, onDevice, 0) && Pending(m, s, fs, onDevice, 0, [], r)
  {
    r := Loop(m, s, fs, onDevice, 0);
    assert [] + r.reports == r.reports;
  }

  /** After the last file the loop has completed with the reports done. */
  lemma PendingEnd(m: Lifecycle.Mp, s: State, fs: FileSystem, onDevice: bool,
                   done: seq<seq<seq<Ranking.Entry>>>, r: Run)
    requires Pending(m, s, fs, onDevice, |TestFiles|, done, r)
    ensures r == Run(Completed, done, m, s)
  {
    assert done + [] == done;
  }

  /** A released file leads on to the files after it. */
  lemma ReleaseLeads(m: Lifecycle.Mp, s: State, buf: Handle, fs: FileSystem, onDevice: bool, i: nat)
    requires Ready(m, s) && buf in s.device && Lifecycle.Unheld(m, s.records, s.datasets, buf)
    requires i < |TestFiles|
    ensures var c := Released(m, s, buf, onDevice);
      Leads(Completed, c.reports, c.mp, c.rt, fs, onDevice, i, Release(m, s, buf, fs, onDevice, i))
  {
  }

  /** File `i` done by ProcessFile: a failure ends the loop with the reports
      done so far; otherwise its report joins them and the files after it
      are pending. */
  lemma Advance(m: Lifecycle.Mp, s: State, fs: FileSystem, onDevice: bool, i: nat,
                done: seq<seq<seq<Ranking.Entry>>>, r: Run,
                exit: Exit, reports: seq<seq<seq<Ranking.Entry>>>, m': Lifecycle.Mp, s': State)
    requires Pending(m, s, fs, onDevice, i, done, r) && i < |TestFiles|
    requires Leads(exit, reports, m', s', fs, onDevice, i, Iteration(m, s, fs, onDevice, i))
    ensures exit != Completed ==> Run(exit, done, m', s') == r
    ensures exit == Completed ==> Pending(m', s', fs, onDevice, i + 1, done + reports, r)
  {
    if exit != Completed {
      assert done + [] == done;
    } else {
      Concat(done, reports, Loop(m', s', fs, onDevice, i + 1).reports);
    }
  }

  /* The driver on the runtime object and the ModelProcess class. */

  /** SampleProcess::Process (lines 84-149).  `processModel` is a local of
      the source method, so its destructor runs on every return: here the
      session runs first and the teardown after it. */
  method Process(rt: Runtime, fs: FileSystem, om: ModelImage, onDevice: bool)
      returns (exit: Exit, reports: seq<seq<seq<Ranking.Entry>>>)
    requires Valid(rt.Snapshot())
    modifies rt
    ensures var r := Processed(old(rt.Snapshot()), fs, om, onDevice);
      exit == r.exit && reports == r.reports && rt.Snapshot() == r.rt
  {
    var processModel := new ModelProcessing.ModelProcess(rt);
    exit, reports := Drive(processModel, fs, om, onDevice);
    processModel.Teardown();
  }

  /** Lines 86-91 and on. */
  method Drive(mp: ModelProcessing.ModelProcess, fs: FileSystem, om: ModelImage, onDevice: bool)
      returns (exit: Exit, reports: seq<seq<seq<Ranking.Entry>>>)
    requires Valid(mp.rt.Snapshot()) && mp.Fields() == Lifecycle.Empty
    modifies mp, mp.rt
    ensures var r := Session(old(mp.rt.Snapshot()), fs, om, onDevice);
      exit == r.exit && reports == r.reports && mp.Fields() == r.mp && mp.rt.Snapshot() == r.rt
  {
    Lifecycle.LoadKeepsInv(mp.Fields(), mp.rt.Snapshot(), om);
    var ret := mp.LoadModelFromFileWithMem(om);
    if ret != Lifecycle.Success {
      return LoadFailed, [];
    }
    exit, reports := Describe(mp, fs, onDevice);
  }

  /** Lines 93-98 and on. */
  method Describe(mp: ModelProcessing.ModelProcess, fs: FileSystem, onDevice: bool)
      returns (exit: Exit, reports: seq<seq<seq<Ranking.Entry>>>)
    requires Ready(mp.Fields(), mp.rt.Snapshot())
    modifies mp, mp.rt
    ensures var r := Described(old(mp.Fields()), old(mp.rt.Snapshot()), fs, onDevice);
      exit == r.exit && reports == r.reports && mp.Fields() == r.mp && mp.rt.Snapshot() == r.rt
  {
    Lifecycle.CreateDescKeepsInv(mp.Fields(), mp.rt.Snapshot());
    var ret := mp.CreateDesc();
    if ret != Lifecycle.Success {
      return DescFailed, [];
    }
    exit, reports := Prepare(mp, fs, onDevice);
  }

  /** Lines 100-105, then the loop. */
  method Prepare(mp: ModelProcessing.ModelProcess, fs: FileSystem, onDevice: bool)
      returns (exit: Exit, reports: seq<seq<seq<Ranking.Entry>>>)
    requires Ready(mp.Fields(), mp.rt.Snapshot())
    modifies mp, mp.rt
    ensures var r := Prepared(old(mp.Fields()), old(mp.rt.Snapshot()), fs, onDevice);
      exit == r.exit && reports == r.reports && mp.Fields() == r.mp && mp.rt.Snapshot() == r.rt
  {
    Lifecycle.CreateOutputKeepsInv(mp.Fields(), mp.rt.Snapshot());
    var ret := mp.CreateOutput();
    if ret != Lifecycle.Success {
      return OutputFailed, [];
    }
    exit, reports := ProcessFiles(mp, fs, onDevice);
  }

  /** Lines 113-146: one iteration per test file, in order; the first that
      fails returns. */
  method ProcessFiles(mp: ModelProcessing.ModelProcess, fs: FileSystem, onDevice: bool)
      returns (exit: Exit, reports: seq<seq<seq<Ranking.Entry>>>)
    requires Ready(mp.Fields(), mp.rt.Snapshot())
    modifies mp, mp.rt
    ensures var r := Loop(old(mp.Fields()), old(mp.rt.Snapshot()), fs, onDevice, 0);
      exit == r.exit && reports == r.reports && mp.Fields() == r.mp && mp.rt.Snapshot() == r.rt
  {
    var rt := mp.rt;
    reports := [];
    ghost var m, s := mp.Fields(), rt.Snapshot();
    ghost var r0 := PendingStart(m, s, fs, onDevice);
    for index := 0 to |TestFiles|
      invariant mp.Fields() == m && rt.Snapshot() == s && Pending(m, s, fs, onDevice, index, reports, r0)
    {
      var e, rs := ProcessFile(mp, fs, onDevice, index);
      Advance(m, s, fs, onDevice, index, reports, r0, e, rs, mp.Fields(), rt.Snapshot());
      if e != Completed {
        return e, reports;
      }
      reports := reports + rs;
      m, s := mp.Fields(), rt.Snapshot();
    }
    PendingEnd(m, s, fs, onDevice, reports, r0);
    exit := Completed;
  }

  /** Lines 115-124, one file: fetch its device buffer, then bind, run,
      report and release. */
  method ProcessFile(mp: ModelProcessing.ModelProcess, fs: FileSystem, onDevice: bool, index: nat)
      returns (exit: Exit, reports: seq<seq<seq<Ranking.Entry>>>)
    requires Ready(mp.Fields(), mp.rt.Snapshot()) && index < |TestFiles|
    modifies mp, mp.rt
    ensures Leads(exit, reports, mp.Fields(), mp.rt.Snapshot(), fs, onDevice, index,
                  Iteration(old(mp.Fields()), old(mp.rt.Snapshot()), fs, onDevice, index))
  {
    var f := Lookup(fs, TestFiles[index]);
    FetchKeepsInv(mp.Fields(), mp.rt.Snapshot(), f, onDevice);
    var picDevBuffer, devBufferSize := Utils.GetDeviceBufferOfFile(mp.rt, f, onDevice);
    if picDevBuffer == Null {
      return BufferFailed(index), [];
    }
    exit, reports := BindInput(mp, picDevBuffer, devBufferSize, fs, onDevice, index);
  }

  /** Lines 126-131. */
  method BindInput(mp: ModelProcessing.ModelProcess, picDevBuffer: Handle, devBufferSize: nat,
                   ghost fs: FileSystem, onDevice: bool, index: nat)
      returns (exit: Exit, reports: seq<seq<seq<Ranking.Entry>>>)
    requires Ready(mp.Fields(), mp.rt.Snapshot()) && picDevBuffer in mp.rt.device
    requires Lifecycle.Unheld(mp.Fields(), mp.rt.records, mp.rt.datasets, picDevBuffer) && index < |TestFiles|
    modifies mp, mp.rt
    ensures Leads(exit, reports, mp.Fields(), mp.rt.Snapshot(), fs, onDevice, index,
                  Bound(old(mp.Fields()), old(mp.rt.Snapshot()), picDevBuffer, devBufferSize, fs, onDevice, index))
  {
    var rt := mp.rt;
    BindKeepsReady(mp.Fields(), rt.Snapshot(), picDevBuffer, devBufferSize);
    var ret := mp.CreateInput(picDevBuffer, devBufferSize);
    if ret != Lifecycle.Success {
      rt.Free(picDevBuffer);
      return InputFailed(index), [];
    }
    exit, reports := RunModel(mp, picDevBuffer, fs, onDevice, index);
  }

  /** Lines 133-137. */
  method RunModel(mp: ModelProcessing.ModelProcess, picDevBuffer: Handle, ghost fs: FileSystem, onDevice: bool, index: nat)
      returns (exit: Exit, reports: seq<seq<seq<Ranking.Entry>>>)
    requires Ready(mp.Fields(), mp.rt.Snapshot()) && picDevBuffer in mp.rt.device
    requires Lifecycle.Unheld(mp.Fields(), mp.rt.records, mp.rt.datasets, picDevBuffer) && index < |TestFiles|
    modifies mp, mp.rt
    ensures Leads(exit, reports, mp.Fields(), mp.rt.Snapshot(), fs, onDevice, index,
                  Infer(old(mp.Fields()), old(mp.rt.Snapshot()), picDevBuffer, fs, onDevice, index))
  {
    Lifecycle.ExecuteKeepsInv(mp.Fields(), mp.rt.Snapshot());
    var ret := mp.Execute();
    if ret != Lifecycle.Success {
      return ExecuteFailed(index), [];
    }
    ghost var m, s := mp.Fields(), mp.rt.Snapshot();
    reports := ReleaseInput(mp, picDevBuffer, onDevice);
    ReleaseLeads(m, s, picDevBuffer, fs, onDevice, index);
    exit := Completed;
  }

  /** Lines 140-144. */
  method ReleaseInput(mp: ModelProcessing.ModelProcess, picDevBuffer: Handle, onDevice: bool)
      returns (reports: seq<seq<seq<Ranking.Entry>>>)
    requires Ready(mp.Fields(), mp.rt.Snapshot()) && picDevBuffer in mp.rt.device
    requires Lifecycle.Unheld(mp.Fields(), mp.rt.records, mp.rt.datasets, picDevBuffer)
    modifies mp, mp.rt
    ensures Run(Completed, reports, mp.Fields(), mp.rt.Snapshot())
         == Released(old(mp.Fields()), old(mp.rt.Snapshot()), picDevBuffer, onDevice)
  {
    var rt := mp.rt;
    ReleaseKeepsReady(mp.Fields(), rt.Snapshot(), picDevBuffer, onDevice);
    var top := mp.OutputModelResult(onDevice);
    rt.Free(picDevBuffer);
    mp.DestroyInput();
    reports := [top];
  }
}
