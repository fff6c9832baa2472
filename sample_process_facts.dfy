/**
 * What SampleProcess::Process (src/sample_process.cpp:84-149) promises
 * about the order of its calls, the files it processes and the buffers it
 * releases, stated over the driver's specification.
 */
module SampleProcessFacts {
  import opened AclModel
  import Lifecycle
  import LifecycleFacts
  import FileTransfer
  import Reporting
  import opened SampleProcessing

  /** Lines 86-91: the load comes first; the session stops there exactly
      when it fails.  A stop before the loop has no report; otherwise the
      loop's count holds from the first file. */
  lemma LoadFirst(s: State, fs: FileSystem, om: ModelImage, onDevice: bool)
    requires Valid(s)
    ensures var r := Session(s, fs, om, onDevice);
      r.exit == LoadFailed <==> Lifecycle.Load(Lifecycle.Empty, s, om).status == Lifecycle.Failed
  {
  }

  /** Lines 93-98: after a load the descriptor is created; the session
      stops there exactly when that fails. */
  lemma DescribeNext(m: Lifecycle.Mp, s: State, fs: FileSystem, onDevice: bool)
    requires Ready(m, s)
    ensures var r := Described(m, s, fs, onDevice);
      r.exit == DescFailed <==> Lifecycle.CreateDesc(m, s).status == Lifecycle.Failed
  {
  }

  /** Lines 100-106: after the descriptor the outputs are created; the
      session stops there exactly when that fails, and otherwise goes on to
      the loop, before which no input is made. */
  lemma OutputsNext(m: Lifecycle.Mp, s: State, fs: FileSystem, onDevice: bool)
    requires Ready(m, s)
    ensures var r := Prepared(m, s, fs, onDevice);
      r.exit == OutputFailed <==> Lifecycle.CreateOutput(m, s).status == Lifecycle.Failed
  {
  }

  /** Lines 110-115 and the return at 148: the loop takes the files in
      order, each at most once; Process succeeds exactly when it completes,
      with one report per file, two in all, and otherwise stops at file `k`
      with the reports of the files before it, or before the loop with
      none.  (Process returns the session's outcome and reports; the
      teardown after it changes neither.) */
  lemma LoopCount(s: State, fs: FileSystem, om: ModelImage, onDevice: bool)
    requires Valid(s)
    ensures var r := Session(s, fs, om, onDevice);
      && (Status(r.exit) == Lifecycle.Success <==> r.exit == Completed)
      && (r.exit == Completed ==> |r.reports| == |TestFiles| == 2)
      && (InLoop(r.exit) ==> r.exit.index < |TestFiles| && |r.reports| == r.exit.index)
      && (InSetup(r.exit) ==> r.reports == [])
  {
    var r := Session(s, fs, om, onDevice);
    if !InSetup(r.exit) {
      assert Reports(r, 0);
    }
  }

  /** Lines 87 and 148 with model_process.cpp:24-30: the ModelProcess is a
      local, so on every return, completed or not, its teardown leaves no
      model loaded, no descriptor and no datasets. */
  lemma TornDown(s: State, fs: FileSystem, om: ModelImage, onDevice: bool)
    requires Valid(s)
    ensures var r := Processed(s, fs, om, onDevice);
      !r.mp.loaded && r.mp.desc == Null && r.mp.input == Null && r.mp.output == Null
  {
    var b := Session(s, fs, om, onDevice);
    LifecycleFacts.TeardownClears(b.mp, b.rt);
  }
}
