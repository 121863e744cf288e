/** The world the driver talks to, standing in for libusb and the C heap: a
    scripted library with one attached device. It answers every call from its
    script, records every request in a log, and counts the resources the
    driver holds. The preconditions of its methods are the library's rules of
    use (a handle is closed only after it was opened, and so on). */
module Platform {
  import opened Wrappers
  import opened Descriptors
  import opened Encoding

  /** Timeout applied to every transfer, in milliseconds. */
  const TIMEOUT_MS := 1000
  /** libusb's status for a transfer that timed out. */
  const LIBUSB_ERROR_TIMEOUT := -7

  /** bmRequestType of a vendor request, host to device, addressed to the device
      (USB 2.0, section 9.3.1): direction bit 0, type 10b, recipient 00000b. */
  const LIBUSB_ENDPOINT_OUT: bv8 := 0x00
  const LIBUSB_REQUEST_TYPE_VENDOR: bv8 := 0x40
  const LIBUSB_RECIPIENT_DEVICE: bv8 := 0x00
  const VENDOR_OUT_TO_DEVICE: bv8 := LIBUSB_ENDPOINT_OUT | LIBUSB_REQUEST_TYPE_VENDOR | LIBUSB_RECIPIENT_DEVICE
  /** The bridge's vendor request code. */
  const BRIDGE_REQUEST: bv8 := 0x0B

  /** Why bring-up or a transfer failed. */
  datatype Error =
    | ContextInitFailed
    | DeviceNotFound
    | KernelDetachFailed
    | DescriptorFetchFailed
    | UnexpectedDescriptor
    | InterfaceClaimFailed
    | EndpointsNotFound
    | ControlTransferFailed
    | BulkTransferFailed
    | OutOfMemory

  /** One request issued to the library, as the log records it. */
  datatype Call =
    | Init
    | Open(vid: int, pid: int)
    | SetAutoDetach(enable: int)
    | GetActiveConfig
    | FreeConfig
    | Claim(intf: int)
    | Release(intf: int)
    | Control(requestType: bv8, request: bv8, value: int, index: int, data: seq<byte>, timeout: int)
    | BulkOut(endpoint: int, data: seq<byte>, timeout: int)
    | BulkIn(endpoint: int, length: int, timeout: int)
    | ClearHalt(endpoint: int)
    | Close
    | Exit

  /** The vendor control request carrying `data` to the bridge. */
  function BridgeControl(data: seq<byte>): Call {
    Control(VENDOR_OUT_TO_DEVICE, BRIDGE_REQUEST, 0, 0, data, TIMEOUT_MS)
  }

  /** The device's answer to a bulk OUT transfer: status and bytes accepted. */
  datatype OutReply = OutReply(status: int, accepted: nat)
  /** The device's answer to a bulk IN transfer: status and bytes delivered. */
  datatype InReply = InReply(status: int, data: seq<byte>)

  /** Scripted answers, each queue consumed front to back: a cursor counts the
      answers of that kind already given. Past the end of its queue the answer
      is that of a well-behaved idle device: a control transfer moves all its
      bytes, an allocation succeeds, a bulk OUT transfer is accepted whole, a
      bulk IN transfer times out with no data. */
  datatype Replies = Replies(
    control: seq<int>,
    alloc: seq<bool>,
    bulkOut: seq<OutReply>,
    bulkIn: seq<InReply>,
    nControl: nat,
    nAlloc: nat,
    nOut: nat,
    nIn: nat)
  {
    function ControlStatus(len: nat): int {
      if nControl < |control| then control[nControl] else len
    }

    function AfterControl(): Replies {
      this.(nControl := nControl + 1)
    }

    function AllocOk(): bool {
      nAlloc >= |alloc| || alloc[nAlloc]
    }

    function AfterAlloc(): Replies {
      this.(nAlloc := nAlloc + 1)
    }

    function NextOut(len: nat): OutReply {
      if nOut < |bulkOut| then bulkOut[nOut] else OutReply(0, len)
    }

    function AfterOut(): Replies {
      this.(nOut := nOut + 1)
    }

    function NextIn(): InReply {
      if nIn < |bulkIn| then bulkIn[nIn] else InReply(LIBUSB_ERROR_TIMEOUT, [])
    }

    function AfterIn(): Replies {
      this.(nIn := nIn + 1)
    }
  }

  /** The attached device and the library's fixed answers to the set-up calls. */
  datatype Device = Device(
    vid: int,
    pid: int,
    initStatus: int,
    detachStatus: int,
    configStatus: int,
    config: ConfigDescriptor,
    claimStatus: int)

  /** Resources the driver holds: library contexts, open handles, fetched
      configuration descriptors, claimed interfaces, heap buffers. */
  datatype Held = Held(contexts: nat, handles: nat, configs: nat, claims: nat, buffers: nat)

  class Host {
    const dev: Device
    var replies: Replies
    ghost var log: seq<Call>
    ghost var held: Held

    ghost predicate Valid() {
      WellFormed(dev.config)
    }

    constructor (dev: Device, replies: Replies)
      ensures this.dev == dev && this.replies == replies
      ensures log == [] && held == Held(0, 0, 0, 0, 0)
    {
      this.dev := dev;
      this.replies := replies;
      log := [];
      held := Held(0, 0, 0, 0, 0);
    }

    /** libusb_init: a context exists afterwards exactly when the status is 0. */
    method Init() returns (st: int)
      modifies this
      ensures st == dev.initStatus
      ensures log == old(log) + [Call.Init] && replies == old(replies)
      ensures held == if st == 0 then old(held).(contexts := old(held).contexts + 1) else old(held)
    {
      st := dev.initStatus;
      log := log + [Call.Init];
      if st == 0 {
        held := held.(contexts := held.contexts + 1);
      }
    }

    /** libusb_open_device_with_vid_pid: a handle, or none when no attached
      device has that identity. */
    method Open(vid: int, pid: int) returns (found: bool)
      requires held.contexts > 0
      modifies this
      ensures found == (vid == dev.vid && pid == dev.pid)
      ensures log == old(log) + [Call.Open(vid, pid)] && replies == old(replies)
      ensures held == if found then old(held).(handles := old(held).handles + 1) else old(held)
    {
      found := vid == dev.vid && pid == dev.pid;
      log := log + [Call.Open(vid, pid)];
      if found {
        held := held.(handles := held.handles + 1);
      }
    }

    method SetAutoDetach(enable: int) returns (st: int)
      requires held.handles > 0
      modifies this
      ensures st == dev.detachStatus
      ensures log == old(log) + [Call.SetAutoDetach(enable)] && replies == old(replies) && held == old(held)
    {
      st := dev.detachStatus;
      log := log + [Call.SetAutoDetach(enable)];
    }

    /** libusb_get_active_config_descriptor: the descriptor, which the caller
      must free, exactly when the status is 0. */
    method GetActiveConfig() returns (st: int, cfg: Option<ConfigDescriptor>)
      requires held.handles > 0
      modifies this
      ensures st == dev.configStatus
      ensures cfg == if st == 0 then Some(dev.config) else None
      ensures log == old(log) + [Call.GetActiveConfig] && replies == old(replies)
      ensures held == if st == 0 then old(held).(configs := old(held).configs + 1) else old(held)
    {
      st := dev.configStatus;
      log := log + [Call.GetActiveConfig];
      if st == 0 {
        cfg := Some(dev.config);
        held := held.(configs := held.configs + 1);
      } else {
        cfg := None;
      }
    }

    method FreeConfig()
      requires held.configs > 0
      modifies this
      ensures log == old(log) + [Call.FreeConfig] && replies == old(replies)
      ensures held == old(held).(configs := old(held).configs - 1)
    {
      log := log + [Call.FreeConfig];
      held := held.(configs := held.configs - 1);
    }

    method Claim(intf: int) returns (st: int)
      requires held.handles > 0
      modifies this
      ensures st == dev.claimStatus
      ensures log == old(log) + [Call.Claim(intf)] && replies == old(replies)
      ensures held == if st == 0 then old(held).(claims := old(held).claims + 1) else old(held)
    {
      st := dev.claimStatus;
      log := log + [Call.Claim(intf)];
      if st == 0 {
        held := held.(claims := held.claims + 1);
      }
    }

    method Release(intf: int)
      requires held.handles > 0 && held.claims > 0
      modifies this
      ensures log == old(log) + [Call.Release(intf)] && replies == old(replies)
      ensures held == old(held).(claims := old(held).claims - 1)
    {
      log := log + [Call.Release(intf)];
      held := held.(claims := held.claims - 1);
    }

    /** libusb_control_transfer: the status (bytes moved, or a negative error)
      comes from the script. */
    method ControlTransfer(requestType: bv8, request: bv8, value: int, index: int, data: seq<byte>, timeout: int)
      returns (st: int)
      requires held.handles > 0
      modifies this
      ensures st == old(replies).ControlStatus(|data|)
      ensures log == old(log) + [Call.Control(requestType, request, value, index, data, timeout)]
      ensures replies == old(replies).AfterControl() && held == old(held)
    {
      st := replies.ControlStatus(|data|);
      log := log + [Call.Control(requestType, request, value, index, data, timeout)];
      replies := replies.AfterControl();
    }

    /** libusb_bulk_transfer towards the device; `transferred` never exceeds
      the length asked for. */
    method BulkOut(endpoint: int, data: seq<byte>, timeout: int) returns (st: int, transferred: nat)
      requires held.handles > 0
      modifies this
      ensures st == old(replies).NextOut(|data|).status
      ensures transferred == Min(old(replies).NextOut(|data|).accepted, |data|)
      ensures log == old(log) + [Call.BulkOut(endpoint, data, timeout)]
      ensures replies == old(replies).AfterOut() && held == old(held)
    {
      var a := replies.NextOut(|data|);
      st, transferred := a.status, Min(a.accepted, |data|);
      log := log + [Call.BulkOut(endpoint, data, timeout)];
      replies := replies.AfterOut();
    }

    /** libusb_bulk_transfer from the device into buf[..length]; the delivered
      bytes land at the front of the buffer, the rest is untouched. */
    method BulkIn(endpoint: int, buf: array<byte>, length: nat, timeout: int) returns (st: int, transferred: nat)
      requires held.handles > 0 && length <= buf.Length
      modifies this, buf
      ensures st == old(replies).NextIn().status
      ensures transferred == Min(|old(replies).NextIn().data|, length)
      ensures buf[..transferred] == old(replies).NextIn().data[..transferred]
      ensures buf[transferred..] == old(buf[transferred..])
      ensures log == old(log) + [Call.BulkIn(endpoint, length, timeout)]
      ensures replies == old(replies).AfterIn() && held == old(held)
    {
      var a := replies.NextIn();
      st, transferred := a.status, Min(|a.data|, length);
      for i := 0 to transferred
        invariant buf[..i] == a.data[..i]
        invariant buf[transferred..] == old(buf[transferred..])
        modifies buf
      {
        buf[i] := a.data[i];
      }
      log := log + [Call.BulkIn(endpoint, length, timeout)];
      replies := replies.AfterIn();
    }

    /** libusb_clear_halt; the driver ignores its status, so none is modelled. */
    method ClearHalt(endpoint: int)
      requires held.handles > 0
      modifies this
      ensures log == old(log) + [Call.ClearHalt(endpoint)] && replies == old(replies) && held == old(held)
    {
      log := log + [Call.ClearHalt(endpoint)];
    }

    method Close()
      requires held.handles > 0
      modifies this
      ensures log == old(log) + [Call.Close] && replies == old(replies)
      ensures held == old(held).(handles := old(held).handles - 1)
    {
      log := log + [Call.Close];
      held := held.(handles := held.handles - 1);
    }

    method Exit()
      requires held.contexts > 0
      modifies this
      ensures log == old(log) + [Call.Exit] && replies == old(replies)
      ensures held == old(held).(contexts := old(held).contexts - 1)
    {
      log := log + [Call.Exit];
      held := held.(contexts := held.contexts - 1);
    }

    /** malloc: a fresh buffer of n bytes, or none when the script says the
      allocation fails. */
    method Malloc(n: nat) returns (p: Option<array<byte>>)
      modifies this
      ensures p.Some? == old(replies).AllocOk()
      ensures p.Some? ==> fresh(p.value) && p.value.Length == n
      ensures replies == old(replies).AfterAlloc() && log == old(log)
      ensures held == if p.Some? then old(held).(buffers := old(held).buffers + 1) else old(held)
    {
      if replies.AllocOk() {
        var a := new byte[n];
        p := Some(a);
        held := held.(buffers := held.buffers + 1);
      } else {
        p := None;
      }
      replies := replies.AfterAlloc();
    }

    /** free: a no-op on a null pointer. */
    method Free(p: Option<array<byte>>)
      requires p.Some? ==> held.buffers > 0
      modifies this
      ensures replies == old(replies) && log == old(log)
      ensures held == if p.Some? then old(held).(buffers := old(held).buffers - 1) else old(held)
    {
      if p.Some? {
        held := held.(buffers := held.buffers - 1);
      }
    }
  }
}
