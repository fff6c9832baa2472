/**
 * ModelProcess::OutputModelResult (src/model_process.cpp:248-304) as a
 * function of the runtime state: for each output record, read its `len`
 * bytes (copied into a host staging buffer in host mode, read in place in
 * device mode) and rank them.  The value is the list of top-5 reports
 * produced before the method returned.
 */
module Reporting {
  import opened AclModel
  import opened Ranking
  import Lifecycle

  /** Each record is live and its address is a live device buffer holding at
      least the record's size in bytes. */
  ghost predicate Readable(device: map<Handle, seq<byte>>, records: map<Handle, Record>, recs: seq<Handle>) {
    forall i :: 0 <= i < |recs| ==>
      && recs[i] in records
      && records[recs[i]].addr in device
      && records[recs[i]].size <= |device[records[recs[i]].addr]|
  }

  /** The bytes an output record reports: the first `len` bytes of its buffer,
      where `len` is the record's size as the uint32_t of line 255. */
  ghost function OutputBytes(device: map<Handle, seq<byte>>, records: map<Handle, Record>, rec: Handle): (b: seq<byte>)
    requires rec in records && records[rec].addr in device && records[rec].size <= |device[records[rec].addr]|
    ensures |b| == records[rec].size % U32
  {
    device[records[rec].addr][..records[rec].size % U32]
  }

  /** Reports gathered so far, then one more, then the rest. */
  lemma Append<T>(a: seq<T>, x: T, b: seq<T>)
    ensures a + ([x] + b) == (a + [x]) + b
  {
  }

  /** Truncating a size to 32 bits never makes it larger. */
  lemma Truncated(n: nat)
    ensures n % U32 <= n
  {
  }

  /** Lines 253-299, one output record.  Host mode: allocate a staging buffer
      of `len` bytes and copy the output into it; a failure of either call
      returns from the method, the failed copy without freeing the staging
      buffer.  After ranking, the staging buffer is freed.  Device mode: rank
      the device bytes in place, making no runtime call. */
  ghost function Report(s: State, rec: Handle, onDevice: bool): (o: Out<seq<Entry>>)
    requires rec in s.records && s.records[rec].addr in s.device
    requires s.records[rec].size <= |s.device[s.records[rec].addr]|
    ensures Valid(s) ==> Valid(o.post)
    ensures o.post.device == s.device && o.post.records == s.records && o.post.datasets == s.datasets
    ensures o.post.descs == s.descs && o.post.models == s.models
  {
    var addr := s.records[rec].addr;
    var len := s.records[rec].size % U32;
    if onDevice then Out(true, TopFive(Scores(s.device[addr][..len])), s)
    else
      var h := MallocHost(s, len);
      if !h.ok then Out(false, [], h.post)
      else
        var c := MemcpyDeviceToHost(h.post, h.value, len, addr, len);
        if !c.ok then Out(false, [], c.post)
        else Out(true, TopFive(Scores(c.post.host[h.value][..len])), FreeHost(c.post, h.value))
  }

  /** Lines 251-300: one report per record from position `i` on, stopping
      at the first failure. */
  ghost function Reports(s: State, recs: seq<Handle>, i: nat, onDevice: bool): (r: Out<seq<seq<Entry>>>)
    requires Readable(s.device, s.records, recs) && i <= |recs|
    ensures Valid(s) ==> Valid(r.post)
    ensures r.post.device == s.device && r.post.records == s.records && r.post.datasets == s.datasets
    ensures r.post.descs == s.descs && r.post.models == s.models
    decreases |recs| - i
  {
    if i == |recs| then Out(true, [], s)
    else
      var o := Report(s, recs[i], onDevice);
      if !o.ok then Out(false, [], o.post)
      else
        var t := Reports(o.post, recs, i + 1, onDevice);
        Out(t.ok, [o.value] + t.value, t.post)
  }

  /** OutputModelResult over the output dataset `output`; a handle that is not
      a live dataset has no buffers (aclmdlGetDatasetNumBuffers yields 0). */
  ghost function OutputModelResult(output: Handle, s: State, onDevice: bool): (r: Out<seq<seq<Entry>>>)
    requires output in s.datasets ==> Readable(s.device, s.records, s.datasets[output])
    ensures Valid(s) ==> Valid(r.post)
    ensures r.post.device == s.device && r.post.records == s.records && r.post.datasets == s.datasets
    ensures r.post.descs == s.descs && r.post.models == s.models
  {
    if output !in s.datasets then Out(true, [], s)
    else Reports(s, s.datasets[output], 0, onDevice)
  }

  /** A report ranks the record's output bytes, whichever memory they were
      read from, and device mode always succeeds without touching the runtime. */
  lemma ReportRanks(s: State, rec: Handle, onDevice: bool)
    requires rec in s.records && s.records[rec].addr in s.device
    requires s.records[rec].size <= |s.device[s.records[rec].addr]|
    ensures var o := Report(s, rec, onDevice);
      && (o.ok ==> o.value == TopFive(Scores(OutputBytes(s.device, s.records, rec))))
      && (onDevice ==> o.ok && o.post == s)
  {
    var addr := s.records[rec].addr;
    var len := s.records[rec].size % U32;
    if !onDevice {
      var h := MallocHost(s, len);
      if h.ok {
        var c := MemcpyDeviceToHost(h.post, h.value, len, addr, len);
        if c.ok {
          assert c.post.host[h.value][..len] == s.device[addr][..len];
        }
      }
    }
  }

  /** Host mode: the report fails exactly when one of its two runtime calls
      does; success frees the staging buffer again, and a failed copy leaves
      it allocated (a leak of `len` bytes). */
  lemma ReportStaging(s: State, rec: Handle)
    requires Valid(s) && rec in s.records && s.records[rec].addr in s.device
    requires s.records[rec].size <= |s.device[s.records[rec].addr]|
    ensures var o := Report(s, rec, false);
      && (o.ok <==> !Fails(s) && s.calls + 1 !in s.failAt)
      && (o.ok || Fails(s) ==> o.post.host == s.host)
      && (!o.ok && !Fails(s) ==>
            s.next !in s.host && o.post.host == s.host[s.next := Zeros(s.records[rec].size % U32)])
  {
    var len := s.records[rec].size % U32;
    var h := MallocHost(s, len);
    if h.ok {
      assert h.value == s.next && s.next !in s.host;
      assert h.post.calls == s.calls + 1 && h.post.failAt == s.failAt;
      var c := MemcpyDeviceToHost(h.post, h.value, len, s.records[rec].addr, len);
      if c.ok {
        assert c.post.host == s.host[s.next := c.post.host[s.next]];
        Lifecycle.AddRemove(s.host, s.next, c.post.host[s.next]);
      }
    }
  }

  /** The rankings of the output bytes of records i, i+1, ... */
  ghost function Ranked(device: map<Handle, seq<byte>>, records: map<Handle, Record>, recs: seq<Handle>, i: nat)
    : (rs: seq<seq<Entry>>)
    requires Readable(device, records, recs) && i <= |recs|
    ensures |rs| == |recs| - i
    decreases |recs| - i
  {
    if i == |recs| then []
    else [TopFive(Scores(OutputBytes(device, records, recs[i])))] + Ranked(device, records, recs, i + 1)
  }

  /** The reports are the rankings of the records' output bytes, in order,
      up to the first failure; the run completes exactly when it ranked
      every record. */
  lemma {:induction false} ReportsRank(s: State, recs: seq<Handle>, i: nat, onDevice: bool)
    requires Readable(s.device, s.records, recs) && i <= |recs|
    ensures var r := Reports(s, recs, i, onDevice);
      var all := Ranked(s.device, s.records, recs, i);
      r.value <= all && (r.ok <==> r.value == all)
    decreases |recs| - i
  {
    if i < |recs| {
      var o := Report(s, recs[i], onDevice);
      ReportRanks(s, recs[i], onDevice);
      if o.ok {
        ReportsRank(o.post, recs, i + 1, onDevice);
      }
    }
  }

  /** A complete host-mode run frees every staging buffer it allocated; a
      device-mode run always completes and changes nothing. */
  lemma {:induction false} ReportsRestoreHost(s: State, recs: seq<Handle>, i: nat, onDevice: bool)
    requires Valid(s) && Readable(s.device, s.records, recs) && i <= |recs|
    ensures var r := Reports(s, recs, i, onDevice);
      && (r.ok ==> r.post.host == s.host)
      && (onDevice ==> r.ok && r.post == s)
    decreases |recs| - i
  {
    if i < |recs| {
      var o := Report(s, recs[i], onDevice);
      ReportRanks(s, recs[i], onDevice);
      if !onDevice {
        ReportStaging(s, recs[i]);
      }
      if o.ok {
        ReportsRestoreHost(o.post, recs, i + 1, onDevice);
      }
    }
  }

  /** Host and device mode report the same rankings: a host-mode run's
      reports are a prefix of the device-mode run's, and all of them when it
      completes. */
  lemma ModesAgree(s: State, recs: seq<Handle>)
    requires Valid(s) && Readable(s.device, s.records, recs)
    ensures var h := Reports(s, recs, 0, false);
      var d := Reports(s, recs, 0, true);
      h.value <= d.value && (h.ok ==> h.value == d.value)
  {
    ReportsRank(s, recs, 0, false);
    ReportsRank(s, recs, 0, true);
    ReportsRestoreHost(s, recs, 0, true);
  }
}
