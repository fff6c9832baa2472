/**
 * Utils::ReadBinFile and Utils::GetDeviceBufferOfFile (src/utils.cpp) as
 * methods that drive the runtime object.  Each is proved to do what the
 * function of the same name in FileTransfer says; the properties of the
 * transfer (what is allocated, what is freed, which bytes arrive) are
 * proved there.  A null handle is the source's `nullptr`.
 */
module Utils {
  import opened AclModel
  import opened AclRuntime
  import FileTransfer

  /** utils.cpp:20-79: read the file into a new buffer, host memory in host
      mode and device memory in device mode.  Host mode detects the failed
      allocation by the null pointer, device mode by the error code. */
  method ReadBinFile(rt: Runtime, f: FileTransfer.File, onDevice: bool) returns (buffer: Handle, fileSize: nat)
    requires Null < rt.next
    modifies rt
    ensures var r := FileTransfer.ReadBinFile(old(rt.Snapshot()), f, onDevice);
      (buffer, fileSize) == r.value && rt.Snapshot() == r.post
  {
    match f
    case Missing => return Null, 0;
    case NotRegular => return Null, 0;
    case Unopenable => return Null, 0;
    case Regular(bytes) =>
      var len := FileTransfer.FileLength(bytes);
      if len == 0 {
        return Null, 0;
      }
      var ok;
      if !onDevice {
        ok, buffer := rt.MallocHost(len);
        if buffer == Null {
          return Null, 0;
        }
      } else {
        ok, buffer := rt.Malloc(len);
        if !ok {
          return Null, 0;
        }
      }
      rt.Store(buffer, bytes[..len], onDevice);
      fileSize := len;
  }

  /** utils.cpp:82-120: read the file; in host mode copy it into a new
      device buffer and free the host copy. */
  method GetDeviceBufferOfFile(rt: Runtime, f: FileTransfer.File, onDevice: bool) returns (buffer: Handle, fileSize: nat)
    requires Null < rt.next
    modifies rt
    ensures var r := FileTransfer.GetDeviceBufferOfFile(old(rt.Snapshot()), f, onDevice);
      (buffer, fileSize) == r.value && rt.Snapshot() == r.post
  {
    var inputHostBuff, inputHostBuffSize := ReadBinFile(rt, f, onDevice);
    if inputHostBuff == Null {
      return Null, 0;
    }
    if onDevice {
      return inputHostBuff, inputHostBuffSize;
    }
    buffer, fileSize := Stage(rt, inputHostBuff, inputHostBuffSize);
  }

  /** utils.cpp:93-113: copy the host buffer `staging` into a new device
      buffer and free it; each failure frees what was allocated. */
  method Stage(rt: Runtime, staging: Handle, size: nat) returns (buffer: Handle, fileSize: nat)
    requires staging in rt.host && |rt.host[staging]| == size
    modifies rt
    ensures var r := FileTransfer.Stage(old(rt.Snapshot()), staging, size);
      (buffer, fileSize) == r.value && rt.Snapshot() == r.post
  {
    var ok, inBufferDev := rt.Malloc(size);
    if !ok {
      rt.FreeHost(staging);
      return Null, 0;
    }
    ok := rt.MemcpyHostToDevice(inBufferDev, size, staging, size);
    if !ok {
      rt.Free(inBufferDev);
      rt.FreeHost(staging);
      return Null, 0;
    }
    rt.FreeHost(staging);
    return inBufferDev, size;
  }
}
