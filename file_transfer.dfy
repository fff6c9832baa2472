/**
 * Utils::ReadBinFile and Utils::GetDeviceBufferOfFile (src/utils.cpp) as
 * functions of the runtime state and the file read.  The file system is a
 * parameter: `File` is what a path names.  The run mode (`g_isDevice`) is
 * the parameter `onDevice`.
 */
module FileTransfer {
  import opened AclModel
  import Lifecycle

  /** What ReadBinFile finds at a path: nothing (stat fails), something
      other than a regular file, a regular file it cannot open, or a
      regular file with its bytes. */
  datatype File = Missing | NotRegular | Unopenable | Regular(bytes: seq<byte>)

  /** The buffer a read produced: its handle and size (null and 0 on failure). */
  type Buffer = (Handle, nat)

  /** The file length as the uint32_t of utils.cpp:42: wrapped modulo 2^32,
      so never more than the bytes the file has. */
  function FileLength(bytes: seq<byte>): (n: nat)
    ensures n <= |bytes| && n < U32
    ensures |bytes| < U32 ==> n == |bytes|
  {
    |bytes| % U32
  }

  /** ReadBinFile (utils.cpp:20-79).  The length is what `tellg` reports,
      stored in a uint32_t; a file of length 0 is refused.  The buffer is
      host memory in host mode and device memory in device mode, and
      receives the file's first `len` bytes. */
  ghost function ReadBinFile(s: State, f: File, onDevice: bool): (r: Out<Buffer>)
    ensures Valid(s) ==> Valid(r.post)
    ensures r.post.records == s.records && r.post.datasets == s.datasets
    ensures r.post.descs == s.descs && r.post.models == s.models
    ensures Null < s.next ==> (r.ok <==> r.value.0 != Null)
    ensures r.ok ==> f.Regular? && r.value.1 == FileLength(f.bytes)
    ensures r.ok ==> if onDevice then r.value.0 in r.post.device && |r.post.device[r.value.0]| == r.value.1
                     else r.value.0 in r.post.host && |r.post.host[r.value.0]| == r.value.1
  {
    if !f.Regular? then Out(false, (Null, 0), s)
    else
      var len := FileLength(f.bytes);
      if len == 0 then Out(false, (Null, 0), s)
      else
        var a := if onDevice then Malloc(s, len) else MallocHost(s, len);
        if !a.ok then Out(false, (Null, 0), a.post)
        else Out(true, (a.value, len), Store(a.post, a.value, f.bytes[..len], onDevice))
  }

  /** GetDeviceBufferOfFile (utils.cpp:82-120): read the file; in device
      mode that buffer is the result, in host mode it is staged to the
      device. */
  ghost function GetDeviceBufferOfFile(s: State, f: File, onDevice: bool): (r: Out<Buffer>)
    ensures Valid(s) ==> Valid(r.post)
    ensures r.post.records == s.records && r.post.datasets == s.datasets
    ensures r.post.descs == s.descs && r.post.models == s.models
    ensures Null < s.next ==> (r.ok <==> r.value.0 != Null)
    ensures r.ok ==> f.Regular? && r.value.1 == FileLength(f.bytes)
  {
    var rb := ReadBinFile(s, f, onDevice);
    if !rb.ok || onDevice then rb
    else Stage(rb.post, rb.value.0, rb.value.1)
  }

  /** Lines 93-113: copy the host buffer `staging` of `size` bytes into a
      new device buffer and free it; each failure frees what the call
      allocated. */
  ghost function Stage(s: State, staging: Handle, size: nat): (r: Out<Buffer>)
    requires staging in s.host && |s.host[staging]| == size
    ensures Valid(s) ==> Valid(r.post)
    ensures Null < s.next ==> (r.ok <==> r.value.0 != Null)
    ensures r.ok ==> r.value.1 == size
    ensures r.post.records == s.records && r.post.datasets == s.datasets
    ensures r.post.descs == s.descs && r.post.models == s.models
  {
    var a := Malloc(s, size);
    if !a.ok then Out(false, (Null, 0), FreeHost(a.post, staging))
    else Copy(a.post, a.value, staging, size)
  }

  /** Lines 101-113: the copy into the new device buffer `dev`. */
  ghost function Copy(s: State, dev: Handle, staging: Handle, size: nat): (r: Out<Buffer>)
    requires dev in s.device && |s.device[dev]| == size
    requires staging in s.host && |s.host[staging]| == size
    ensures Valid(s) ==> Valid(r.post)
    ensures r.value == if r.ok then (dev, size) else (Null, 0)
    ensures r.post.records == s.records && r.post.datasets == s.datasets
    ensures r.post.descs == s.descs && r.post.models == s.models
  {
    var c := MemcpyHostToDevice(s, dev, size, staging, size);
    if !c.ok then Out(false, (Null, 0), FreeHost(Free(c.post, dev), staging))
    else Out(true, (dev, size), FreeHost(c.post, staging))
  }

  /** Lines 24-47: a path that is missing, not a regular file or not
      openable, and an empty file, give null without any runtime call. */
  lemma ReadBinFileRejects(s: State, f: File, onDevice: bool)
    requires !f.Regular? || FileLength(f.bytes) == 0
    ensures ReadBinFile(s, f, onDevice) == Out(false, (Null, 0), s)
  {
  }

  /** A successful read allocates exactly one new buffer, in host memory in
      host mode and device memory in device mode, holding the file's bytes;
      its size is the file length modulo 2^32. */
  lemma ReadBinFileLoads(s: State, f: File, onDevice: bool)
    requires Valid(s)
    ensures var r := ReadBinFile(s, f, onDevice);
      var buf := r.value.0;
      r.ok ==>
        && f.Regular? && r.value.1 > 0 && buf == s.next
        && (onDevice ==> buf !in s.device && r.post.device == s.device[buf := f.bytes[..FileLength(f.bytes)]] && r.post.host == s.host)
        && (!onDevice ==> buf !in s.host && r.post.host == s.host[buf := f.bytes[..FileLength(f.bytes)]] && r.post.device == s.device)
  {
  }

  /** A failed read leaves no buffer allocated. */
  lemma ReadBinFileFailure(s: State, f: File, onDevice: bool)
    ensures var r := ReadBinFile(s, f, onDevice);
      !r.ok ==> r.post.device == s.device && r.post.host == s.host
  {
  }

  /** Host mode, on failure: whichever call failed, the staging buffer and
      the device buffer are both gone again. */
  lemma StageFailure(s: State, staging: Handle, size: nat)
    requires Valid(s) && staging in s.host && |s.host[staging]| == size
    ensures var r := Stage(s, staging, size);
      !r.ok ==> r.post.device == s.device && r.post.host == s.host - {staging}
  {
    var a := Malloc(s, size);
    if a.ok {
      var c := MemcpyHostToDevice(a.post, a.value, size, staging, size);
      if !c.ok {
        assert c.post.device == s.device[s.next := Zeros(size)];
        Lifecycle.AddRemove(s.device, s.next, Zeros(size));
      }
    }
  }

  /** Host mode, on success: the staging buffer is freed and one new device
      buffer holds its bytes. */
  lemma StageSuccess(s: State, staging: Handle, size: nat)
    requires Valid(s) && staging in s.host && |s.host[staging]| == size
    ensures var r := Stage(s, staging, size);
      r.ok ==>
        && r.value == (s.next, size) && s.next !in s.device
        && r.post.device == s.device[s.next := s.host[staging]] && r.post.host == s.host - {staging}
  {
    var a := Malloc(s, size);
    if a.ok {
      var c := MemcpyHostToDevice(a.post, a.value, size, staging, size);
      if c.ok {
        assert a.post.host == s.host && a.post.device == s.device[s.next := Zeros(size)];
        var d := s.host[staging][..size] + a.post.device[s.next][size..];
        assert d == s.host[staging];
        assert c.post.device == s.device[s.next := Zeros(size)][s.next := d];
        assert c.post.device == s.device[s.next := d];
      }
    }
  }

  /** GetDeviceBufferOfFile leaks nothing: when it gives null, host and
      device memory are as they were. */
  lemma TransferLeaksNothing(s: State, f: File, onDevice: bool)
    requires Valid(s)
    ensures var r := GetDeviceBufferOfFile(s, f, onDevice);
      !r.ok ==> r.post.device == s.device && r.post.host == s.host
  {
    var rb := ReadBinFile(s, f, onDevice);
    ReadBinFileFailure(s, f, onDevice);
    if rb.ok && !onDevice {
      ReadBinFileLoads(s, f, onDevice);
      StageFailure(rb.post, rb.value.0, rb.value.1);
      Lifecycle.AddRemove(s.host, rb.value.0, f.bytes[..FileLength(f.bytes)]);
    }
  }

  /** The content round trip: in either mode, a successful call returns
      exactly one new device buffer holding the file's bytes, its size the
      file length modulo 2^32, and leaves host memory as it was. */
  lemma TransferDelivers(s: State, f: File, onDevice: bool)
    requires Valid(s)
    ensures var r := GetDeviceBufferOfFile(s, f, onDevice);
      r.ok ==>
        && f.Regular? && r.value.0 !in s.device
        && r.post.device == s.device[r.value.0 := f.bytes[..FileLength(f.bytes)]]
        && r.post.host == s.host
  {
    var rb := ReadBinFile(s, f, onDevice);
    ReadBinFileLoads(s, f, onDevice);
    if rb.ok && !onDevice {
      var hb := rb.value.0;
      StageSuccess(rb.post, hb, rb.value.1);
      Lifecycle.AddRemove(s.host, hb, f.bytes[..FileLength(f.bytes)]);
      assert rb.post.next == s.next + 1;
    }
  }

  /** Device mode: the buffer ReadBinFile allocated is the result itself. */
  lemma DeviceModeDirect(s: State, f: File)
    ensures GetDeviceBufferOfFile(s, f, true) == ReadBinFile(s, f, true)
  {
  }
}
