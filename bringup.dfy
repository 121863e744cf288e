/** What the bring-up does, as pure functions of the device and of the scripted
    replies: the calls it issues, how far it gets, the resources it then holds.
    Both drivers (the C++ class and the C program) are proved to follow it; the
    lemmas here state what it promises. */
module Bringup {
  import opened Wrappers
  import opened Descriptors
  import opened Encoding
  import opened Platform

  /** The six distinct argument lists of the bridge-configuration messages,
      each with its -1 sentinel. In the lists starting 0x00, 0x08 the second
      byte selects the baud rate (0x05 would be 19200, 0x08 is 115200). */
  const ARGS_03_01: seq<int> := [0x03, 0x01, -1]
  const ARGS_01_03: seq<int> := [0x01, 0x03, -1]
  const ARGS_00_08_01: seq<int> := [0x00, 0x08, 0x01, -1]
  const ARGS_04_00_00: seq<int> := [0x04, 0x00, 0x00, -1]
  const ARGS_02_11_13: seq<int> := [0x02, 0x11, 0x13, -1]
  const ARGS_00_08_11: seq<int> := [0x00, 0x08, 0x11, -1]

  /** The argument lists of the twelve configuration messages, in order. */
  const CONFIG_MESSAGES: seq<seq<int>> := [
    ARGS_03_01,
    ARGS_01_03,
    ARGS_00_08_01,
    ARGS_04_00_00,
    ARGS_01_03,
    ARGS_01_03,
    ARGS_00_08_01,
    ARGS_04_00_00,
    ARGS_02_11_13,
    ARGS_04_00_00,
    ARGS_00_08_11,
    ARGS_04_00_00
  ]

  /** The bytes the bridge firmware must receive, message by message. */
  const CONFIG_PAYLOADS: seq<seq<byte>> := [
    [0x03, 0x01],
    [0x01, 0x03],
    [0x00, 0x08, 0x01],
    [0x04, 0x00, 0x00],
    [0x01, 0x03],
    [0x01, 0x03],
    [0x00, 0x08, 0x01],
    [0x04, 0x00, 0x00],
    [0x02, 0x11, 0x13],
    [0x04, 0x00, 0x00],
    [0x00, 0x08, 0x11],
    [0x04, 0x00, 0x00]
  ]

  /** The control requests carrying the given payloads, in order. */
  function ControlCalls(ps: seq<seq<byte>>): (cs: seq<Call>)
    ensures |cs| == |ps|
  {
    seq(|ps|, j requires 0 <= j < |ps| => BridgeControl(ps[j]))
  }

  /** The encoded payloads of a list of argument lists. */
  function EncodeAll(msgs: seq<seq<int>>): (ps: seq<seq<byte>>)
    ensures |ps| == |msgs|
    ensures forall i | 0 <= i < |msgs| :: ps[i] == Encode(msgs[i])
  {
    seq(|msgs|, i requires 0 <= i < |msgs| => Encode(msgs[i]))
  }

  /** The part of a run that one stage contributes: the error, if any, the calls
      issued and the replies left. */
  datatype Step = Step(err: Option<Error>, calls: seq<Call>, rest: Replies)

  function Then(calls: seq<Call>, s: Step): Step {
    s.(calls := calls + s.calls)
  }

  /** One control message carrying data: allocate the buffer (only when there
      is at least one byte), then send the bytes; a non-positive status is a
      failure. */
  function Transfer(data: seq<byte>, q: Replies): Step {
    if |data| > 0 && !q.AllocOk() then Step(Some(OutOfMemory), [], q.AfterAlloc())
    else
      var q1 := if |data| > 0 then q.AfterAlloc() else q;
      var st := q1.ControlStatus(|data|);
      Step(if st <= 0 then Some(ControlTransferFailed) else None, [BridgeControl(data)], q1.AfterControl())
  }

  /** One control message built from a terminated argument list. */
  function Message(args: seq<int>, q: Replies): Step {
    Transfer(Encode(args), q)
  }

  /** An argument list that starts with the sentinel still issues one vendor
      request, of zero bytes and without a buffer; an idle device, which
      moves the zero bytes it is given, reports 0, and 0 counts as failure. */
  lemma EmptyMessageSends(args: seq<int>, q: Replies)
    requires |args| > 0 && args[0] < 0
    ensures Encode(args) == []
    ensures Message(args, q).calls == [BridgeControl([])] && Message(args, q).rest == q.AfterControl()
    ensures q.nControl >= |q.control| ==> Message(args, q).err == Some(ControlTransferFailed)
  {
    CountAt(args, 0);
  }

  /** Send the payloads in order, stopping at the first failure. */
  function Transfers(ps: seq<seq<byte>>, q: Replies): Step
    decreases |ps|
  {
    if ps == [] then Step(None, [], q)
    else
      var s := Transfer(ps[0], q);
      if s.err.Some? then s else Then(s.calls, Transfers(ps[1..], s.rest))
  }

  /** Send the messages built from the argument lists in order, stopping at the
      first failure. */
  function Configuration(msgs: seq<seq<int>>, q: Replies): Step {
    Transfers(EncodeAll(msgs), q)
  }

  lemma ControlCallsCons(p: seq<byte>, ps: seq<seq<byte>>)
    ensures ControlCalls([p] + ps) == [BridgeControl(p)] + ControlCalls(ps)
  {
    assert forall j | 0 <= j < |ps| :: ([p] + ps)[j + 1] == ps[j];
  }

  /** The number of payloads on the wire when the sequence stopped at message
      k: the message itself counts when its buffer was allocated. */
  function SentBefore(err: Option<Error>, k: nat): nat {
    if err == Some(ControlTransferFailed) then k + 1 else k
  }

  /** The sequence fails only for want of a buffer or with a failed transfer. */
  lemma {:induction false} TransfersErrors(ps: seq<seq<byte>>, q: Replies)
    ensures var c := Transfers(ps, q);
      c.err.None? || c.err == Some(OutOfMemory) || c.err == Some(ControlTransferFailed)
    decreases |ps|
  {
    if ps != [] && Transfer(ps[0], q).err.None? {
      TransfersErrors(ps[1..], Transfer(ps[0], q).rest);
    }
  }

  /** The sequence issues nothing but control requests. */
  lemma {:induction false} TransfersOnlyControl(ps: seq<seq<byte>>, q: Replies)
    ensures forall k | 0 <= k < |Transfers(ps, q).calls| :: Transfers(ps, q).calls[k].Control?
    decreases |ps|
  {
    if ps != [] && Transfer(ps[0], q).err.None? {
      var s := Transfer(ps[0], q);
      TransfersOnlyControl(ps[1..], s.rest);
      var c, r := Transfers(ps, q).calls, Transfers(ps[1..], s.rest).calls;
      assert c == [BridgeControl(ps[0])] + r;
      assert forall k | 1 <= k < |c| :: c[k] == r[k - 1];
    }
  }

  /** The sequence either sends every payload in order, or stops at some
      payload k: the payloads before k are sent, payload k too unless its
      buffer could not be allocated, and nothing after it. */
  lemma {:induction false} TransfersTrace(ps: seq<seq<byte>>, q: Replies)
    ensures var c := Transfers(ps, q);
      && (c.err.None? ==> c.calls == ControlCalls(ps))
      && (c.err.Some? ==>
            && (c.err == Some(OutOfMemory) || c.err == Some(ControlTransferFailed))
            && exists k | 0 <= k < |ps| :: c.calls == ControlCalls(ps[..SentBefore(c.err, k)]))
    decreases |ps|
  {
    if ps != [] {
      var c := Transfers(ps, q);
      var s := Transfer(ps[0], q);
      if s.err.Some? {
        assert c.calls == ControlCalls(ps[..SentBefore(c.err, 0)]);
      } else {
        var tl := ps[1..];
        TransfersTrace(tl, s.rest);
        var r := Transfers(tl, s.rest);
        assert ps == [ps[0]] + tl;
        if r.err.None? {
          ControlCallsCons(ps[0], tl);
        } else {
          var k :| 0 <= k < |tl| && r.calls == ControlCalls(tl[..SentBefore(r.err, k)]);
          var n := SentBefore(r.err, k);
          assert ps[..n + 1] == [ps[0]] + tl[..n];
          ControlCallsCons(ps[0], tl[..n]);
          assert SentBefore(c.err, k + 1) == n + 1;
        }
      }
    }
  }

  /** Every configuration argument list is non-empty and carries its sentinel. */
  lemma ConfigMessagesTerminated()
    ensures forall k | 0 <= k < |CONFIG_MESSAGES| ::
      |CONFIG_MESSAGES[k]| > 0 && CONFIG_MESSAGES[k][0] >= 0 && Terminated(CONFIG_MESSAGES[k])
  {
    assert ARGS_03_01[2] < 0 && ARGS_01_03[2] < 0 && ARGS_00_08_01[3] < 0;
    assert ARGS_04_00_00[3] < 0 && ARGS_02_11_13[3] < 0 && ARGS_00_08_11[3] < 0;
  }

  /** Each argument list encodes to its bytes (one lemma per list keeps each
      proof small). */
  lemma EncodeArgs0301() ensures Encode(ARGS_03_01) == [0x03, 0x01] { EncodeSpec(ARGS_03_01, 2); }
  lemma EncodeArgs0103() ensures Encode(ARGS_01_03) == [0x01, 0x03] { EncodeSpec(ARGS_01_03, 2); }
  lemma EncodeArgs000801() ensures Encode(ARGS_00_08_01) == [0x00, 0x08, 0x01] { EncodeSpec(ARGS_00_08_01, 3); }
  lemma EncodeArgs040000() ensures Encode(ARGS_04_00_00) == [0x04, 0x00, 0x00] { EncodeSpec(ARGS_04_00_00, 3); }
  lemma EncodeArgs021113() ensures Encode(ARGS_02_11_13) == [0x02, 0x11, 0x13] { EncodeSpec(ARGS_02_11_13, 3); }
  lemma EncodeArgs000811() ensures Encode(ARGS_00_08_11) == [0x00, 0x08, 0x11] { EncodeSpec(ARGS_00_08_11, 3); }

  /** The sequence from payload k on: payload k, then, unless it failed, the
      sequence from payload k + 1 on. */
  lemma TransfersStep(ps: seq<seq<byte>>, k: nat, q: Replies)
    requires k < |ps|
    ensures Transfers(ps[k..], q) ==
      var s := Transfer(ps[k], q);
      if s.err.Some? then s else Then(s.calls, Transfers(ps[k + 1..], s.rest))
  {
    assert ps[k..][1..] == ps[k + 1..];
  }

  /** Sending the payloads ps from q0 is the calls `done` followed by sending
      them from payload k on, from q. */
  ghost predicate Pending(ps: seq<seq<byte>>, q0: Replies, done: seq<Call>, k: nat, q: Replies) {
    k <= |ps| && Transfers(ps, q0) == Then(done, Transfers(ps[k..], q))
  }

  lemma PendingStart(ps: seq<seq<byte>>, q: Replies)
    ensures Pending(ps, q, [], 0, q)
  {
    assert ps[0..] == ps;
  }

  /** Payload k went through: the sequence continues with payload k + 1. */
  lemma PendingAdvance(ps: seq<seq<byte>>, q0: Replies, done: seq<Call>, k: nat, q: Replies)
    requires Pending(ps, q0, done, k, q) && k < |ps| && Transfer(ps[k], q).err.None?
    ensures Pending(ps, q0, done + Transfer(ps[k], q).calls, k + 1, Transfer(ps[k], q).rest)
  {
    TransfersStep(ps, k, q);
  }

  /** Payload k failed: the sequence ends with its error. */
  lemma PendingStop(ps: seq<seq<byte>>, q0: Replies, done: seq<Call>, k: nat, q: Replies)
    requires Pending(ps, q0, done, k, q) && k < |ps| && Transfer(ps[k], q).err.Some?
    ensures Transfers(ps, q0) == Then(done, Transfer(ps[k], q))
  {
    TransfersStep(ps, k, q);
  }

  /** Every payload went through. */
  lemma PendingFinish(ps: seq<seq<byte>>, q0: Replies, done: seq<Call>, q: Replies)
    requires Pending(ps, q0, done, |ps|, q)
    ensures Transfers(ps, q0) == Step(None, done, q)
  {
    assert ps[|ps|..] == [];
  }

  /** Every configuration argument list encodes to its payload. */
  lemma EncodeConfigMessages()
    ensures EncodeAll(CONFIG_MESSAGES) == CONFIG_PAYLOADS
  {
    EncodeArgs0301();
    EncodeArgs0103();
    EncodeArgs000801();
    EncodeArgs040000();
    EncodeArgs021113();
    EncodeArgs000811();
    assert forall i | 0 <= i < |CONFIG_MESSAGES| :: CONFIG_PAYLOADS[i] == Encode(CONFIG_MESSAGES[i]);
  }

  /** How far the bring-up got. `ctx`, `devh`, `cfg`: a context, a handle, a
      configuration descriptor was obtained; `claimed`: the data interface was
      claimed; `rendp`, `wendp`: the endpoint fields afterwards. */
  datatype Progress = Progress(
    err: Option<Error>,
    calls: seq<Call>,
    rest: Replies,
    ctx: bool,
    devh: bool,
    cfg: bool,
    claimed: bool,
    rendp: int,
    wendp: int)

  /** The bring-up up to and including the halt clearing, before any release:
      init, open, detach, fetch the descriptor, then the stages of `Attach`.
      The first failure ends it. */
  function BringUp(d: Device, vid: int, pid: int, msgs: seq<seq<int>>, q: Replies): Progress
    requires WellFormed(d.config)
  {
    var start := [Init, Open(vid, pid)];
    if d.initStatus != 0 then
      Progress(Some(ContextInitFailed), [Init], q, false, false, false, false, -1, -1)
    else if vid != d.vid || pid != d.pid then
      Progress(Some(DeviceNotFound), start, q, true, false, false, false, -1, -1)
    else if d.detachStatus != 0 then
      Progress(Some(KernelDetachFailed), start + [SetAutoDetach(1)], q, true, true, false, false, -1, -1)
    else if d.configStatus != 0 then
      Progress(Some(DescriptorFetchFailed), start + [SetAutoDetach(1), GetActiveConfig], q, true, true, false, false, -1, -1)
    else
      var a := Attach(d.config, d.claimStatus, msgs, q);
      a.(calls := start + [SetAutoDetach(1), GetActiveConfig] + a.calls)
  }

  /** The stages after the descriptor was fetched, with a context, a handle
      and the descriptor held: validate the descriptor, claim the data
      interface, scan its endpoints, send the configuration messages, clear
      the halts on both endpoints. */
  function Attach(c: ConfigDescriptor, claimStatus: int, msgs: seq<seq<int>>, q: Replies): Progress
    requires WellFormed(c)
  {
    if !Acceptable(c) then
      Progress(Some(UnexpectedDescriptor), [], q, true, true, true, false, -1, -1)
    else if claimStatus != 0 then
      Progress(Some(InterfaceClaimFailed), [Claim(DATA_INTF_NUMBER)], q, true, true, true, false, -1, -1)
    else
      var e := Scan(DataAltSetting(c).endpoints);
      if e.read < 0 || e.write < 0 then
        Progress(Some(EndpointsNotFound), [Claim(DATA_INTF_NUMBER)], q, true, true, true, true, e.read, e.write)
      else
        var m := Configuration(msgs, q);
        var halts := if m.err.None? then [ClearHalt(e.write), ClearHalt(e.read)] else [];
        Progress(m.err, [Claim(DATA_INTF_NUMBER)] + m.calls + halts, m.rest, true, true, true, true, e.read, e.write)
  }

  /** The resources still held once the driver has released everything it
      releases: the claim of the data interface, when it was made, stays. */
  function Leaked(h: Held, p: Progress): Held {
    h.(claims := h.claims + if p.claimed then 1 else 0)
  }

  /** The resources held after the bring-up, with the descriptor freed again:
      the context, the handle and the claim that were obtained. */
  function Acquired(h: Held, p: Progress): Held {
    Leaked(h, p).(contexts := h.contexts + (if p.ctx then 1 else 0),
                  handles := h.handles + (if p.devh then 1 else 0))
  }

  /** The release of the handle and the context (`cleanup`, and the tail of the
      C program's exit path): the interface only when the marker `intf` is set,
      then the handle, then the context, each only when held. */
  function Teardown(devh: bool, intf: int, ctx: bool): seq<Call> {
    (if devh then (if intf >= 0 then [Release(intf)] else []) + [Close] else [])
    + (if ctx then [Exit] else [])
  }

  /** A successful bring-up issues the fixed sequence: init, open, detach,
      descriptor, claim of interface 0, the twelve payloads byte for byte, and
      the two halt clearings, write endpoint first; the endpoint fields are the
      scan's results and both were found. It succeeds exactly when every stage
      does. */
  lemma BringUpSuccess(d: Device, vid: int, pid: int, msgs: seq<seq<int>>, q: Replies)
    requires WellFormed(d.config)
    ensures var p := BringUp(d, vid, pid, msgs, q);
      p.err.None? <==>
        && d.initStatus == 0 && vid == d.vid && pid == d.pid && d.detachStatus == 0
        && d.configStatus == 0 && Acceptable(d.config) && d.claimStatus == 0
        && Scan(DataAltSetting(d.config).endpoints).read >= 0
        && Scan(DataAltSetting(d.config).endpoints).write >= 0
        && Configuration(msgs, q).err.None?
    ensures var p := BringUp(d, vid, pid, msgs, q);
      p.err.None? ==>
        && BulkPair(p.rendp, p.wendp) == Scan(DataAltSetting(d.config).endpoints)
        && p.rendp >= 0 && p.wendp >= 0
        && p.calls == [Init, Open(vid, pid), SetAutoDetach(1), GetActiveConfig, Claim(DATA_INTF_NUMBER)]
                      + ControlCalls(EncodeAll(msgs)) + [ClearHalt(p.wendp), ClearHalt(p.rendp)]
  {
    TransfersTrace(EncodeAll(msgs), q);
  }

  /** A failure before the claim (context, device, detach, descriptor fetch, or
      descriptor checks) issues no claim and no control message. */
  lemma EarlyFailureTouchesNothing(d: Device, vid: int, pid: int, msgs: seq<seq<int>>, q: Replies)
    requires WellFormed(d.config)
    requires var p := BringUp(d, vid, pid, msgs, q);
      p.err.Some? && (p.err.value.ContextInitFailed? || p.err.value.DeviceNotFound? ||
                      p.err.value.KernelDetachFailed? || p.err.value.DescriptorFetchFailed? ||
                      p.err.value.UnexpectedDescriptor?)
    ensures var p := BringUp(d, vid, pid, msgs, q);
      && (forall k | 0 <= k < |p.calls| :: !p.calls[k].Claim? && !p.calls[k].Control?)
      && !p.claimed && p.rest == q
  {
    var p := BringUp(d, vid, pid, msgs, q);
    if d.initStatus == 0 && vid == d.vid && pid == d.pid && d.detachStatus == 0 && d.configStatus == 0 {
      TransfersErrors(EncodeAll(msgs), q);
      assert !Acceptable(d.config);
      assert p.calls == [Init, Open(vid, pid), SetAutoDetach(1), GetActiveConfig];
    }
  }

  /** The descriptor checks: with the earlier stages passing, bring-up fails with
      UnexpectedDescriptor exactly when interface 0 is missing or its first
      alternate setting has a class or a subclass other than 0. */
  lemma DescriptorRejected(d: Device, vid: int, pid: int, msgs: seq<seq<int>>, q: Replies)
    requires WellFormed(d.config)
    requires d.initStatus == 0 && vid == d.vid && pid == d.pid && d.detachStatus == 0 && d.configStatus == 0
    ensures BringUp(d, vid, pid, msgs, q).err == Some(UnexpectedDescriptor) <==>
      || d.config.bNumInterfaces == 0
      || DataAltSetting(d.config).bInterfaceClass != 0
      || DataAltSetting(d.config).bInterfaceSubClass != 0
  {
    if BringUp(d, vid, pid, msgs, q).err == Some(UnexpectedDescriptor) && Acceptable(d.config) {
      TransfersTrace(EncodeAll(msgs), q);
    }
  }

  /** Missing endpoints: with the claim done, bring-up stops with
      EndpointsNotFound exactly when the scan lacks a read or a write endpoint,
      and then no control message is sent. */
  lemma EndpointsMissing(d: Device, vid: int, pid: int, msgs: seq<seq<int>>, q: Replies)
    requires WellFormed(d.config)
    requires d.initStatus == 0 && vid == d.vid && pid == d.pid && d.detachStatus == 0 && d.configStatus == 0
    requires Acceptable(d.config) && d.claimStatus == 0
    ensures var p := BringUp(d, vid, pid, msgs, q);
      && (p.err == Some(EndpointsNotFound) <==>
            || (forall k | 0 <= k < |DataAltSetting(d.config).endpoints| :: !IsBulkIn(DataAltSetting(d.config).endpoints[k]))
            || (forall k | 0 <= k < |DataAltSetting(d.config).endpoints| :: !IsBulkOut(DataAltSetting(d.config).endpoints[k])))
      && (p.err == Some(EndpointsNotFound) ==> forall k | 0 <= k < |p.calls| :: !p.calls[k].Control?)
  {
    var eps := DataAltSetting(d.config).endpoints;
    ScanFindsBoth(eps);
    ScanNeverBelowNone(eps);
    TransfersTrace(EncodeAll(msgs), q);
  }

  /** The resources obtained nest: a descriptor only with a handle, a handle and
      a claim only with a context... and the claim only with a descriptor. */
  lemma HeldResourcesNest(d: Device, vid: int, pid: int, msgs: seq<seq<int>>, q: Replies)
    requires WellFormed(d.config)
    ensures var p := BringUp(d, vid, pid, msgs, q);
      && (p.cfg ==> p.devh) && (p.devh ==> p.ctx) && (p.claimed ==> p.cfg)
      && (p.err.None? ==> p.claimed)
  {
    TransfersErrors(EncodeAll(msgs), q);
  }

  /** With the driver's own message table, a successful bring-up puts the
      twelve configuration payloads on the wire byte for byte. */
  lemma BringUpSendsPayloads(d: Device, vid: int, pid: int, q: Replies)
    requires WellFormed(d.config)
    ensures var p := BringUp(d, vid, pid, CONFIG_MESSAGES, q);
      p.err.None? ==>
        p.calls == [Init, Open(vid, pid), SetAutoDetach(1), GetActiveConfig, Claim(DATA_INTF_NUMBER)]
                   + ControlCalls(CONFIG_PAYLOADS) + [ClearHalt(p.wendp), ClearHalt(p.rendp)]
  {
    BringUpSuccess(d, vid, pid, CONFIG_MESSAGES, q);
    EncodeConfigMessages();
  }

  /** The bring-up never gives an interface back: its requests hold no release. */
  lemma BringUpNeverReleases(d: Device, vid: int, pid: int, msgs: seq<seq<int>>, q: Replies)
    requires WellFormed(d.config)
    ensures forall k | 0 <= k < |BringUp(d, vid, pid, msgs, q).calls| :: !BringUp(d, vid, pid, msgs, q).calls[k].Release?
  {
    var ps := EncodeAll(msgs);
    TransfersOnlyControl(ps, q);
    var a := Attach(d.config, d.claimStatus, msgs, q);
    forall k | 0 <= k < |a.calls|
      ensures !a.calls[k].Release?
    {
      var e := Scan(DataAltSetting(d.config).endpoints);
      if Acceptable(d.config) && d.claimStatus == 0 && e.read >= 0 && e.write >= 0 {
        var m := Transfers(ps, q);
        var halts := if m.err.None? then [ClearHalt(a.wendp), ClearHalt(a.rendp)] else [];
        assert a.calls == [Claim(DATA_INTF_NUMBER)] + m.calls + halts;
        if 1 <= k < 1 + |m.calls| {
          assert a.calls[k] == m.calls[k - 1];
        }
      }
    }
    var start := [Init, Open(vid, pid), SetAutoDetach(1), GetActiveConfig];
    assert forall k | 4 <= k < |start + a.calls| :: (start + a.calls)[k] == a.calls[k - 4];
  }

  /** The release sequence gives back exactly what the markers say is held:
      the interface only with a handle and a set marker, the handle and the
      context each when held, in that order. */
  lemma TeardownReleasesMarked(devh: bool, intf: int, ctx: bool)
    ensures var t := Teardown(devh, intf, ctx);
      && ((exists k | 0 <= k < |t| :: t[k] == Release(intf)) <==> devh && intf >= 0)
      && ((exists k | 0 <= k < |t| :: t[k] == Close) <==> devh)
      && ((exists k | 0 <= k < |t| :: t[k] == Exit) <==> ctx)
      && (forall k | 0 <= k < |t| :: t[k] == Release(intf) || t[k] == Close || t[k] == Exit)
      && |t| == (if devh && intf >= 0 then 1 else 0) + (if devh then 1 else 0) + (if ctx then 1 else 0)
  {
    var t := Teardown(devh, intf, ctx);
    if devh && intf >= 0 { assert t[0] == Release(intf); }
    if devh { assert t[if intf >= 0 then 1 else 0] == Close; }
    if ctx { assert t[|t| - 1] == Exit; }
  }

  /** With the interface marker left unset, as both drivers leave it, no
      release is ever issued. */
  lemma TeardownWithoutMarker(devh: bool, ctx: bool)
    ensures forall k | 0 <= k < |Teardown(devh, -1, ctx)| :: !Teardown(devh, -1, ctx)[k].Release?
  {
  }

  /** The claim is made exactly when every stage before it passes. */
  lemma ClaimedIff(d: Device, vid: int, pid: int, msgs: seq<seq<int>>, q: Replies)
    requires WellFormed(d.config)
    ensures BringUp(d, vid, pid, msgs, q).claimed <==>
      && d.initStatus == 0 && vid == d.vid && pid == d.pid && d.detachStatus == 0
      && d.configStatus == 0 && Acceptable(d.config) && d.claimStatus == 0
  {
  }

  /** A failing configuration message ends the bring-up: the payloads before
      it (and it too, unless its buffer could not be allocated) are the last
      requests, and no halt is cleared. */
  lemma MessageFailureStops(d: Device, vid: int, pid: int, msgs: seq<seq<int>>, q: Replies)
    requires WellFormed(d.config)
    requires var p := BringUp(d, vid, pid, msgs, q);
      p.err == Some(OutOfMemory) || p.err == Some(ControlTransferFailed)
    ensures var p := BringUp(d, vid, pid, msgs, q);
      && Configuration(msgs, q).err == p.err
      && exists k | 0 <= k < |msgs| ::
           p.calls == [Init, Open(vid, pid), SetAutoDetach(1), GetActiveConfig, Claim(DATA_INTF_NUMBER)]
                      + ControlCalls(EncodeAll(msgs)[..SentBefore(p.err, k)])
  {
    TransfersTrace(EncodeAll(msgs), q);
  }
}
