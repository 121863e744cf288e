/** The C++ driver class `LeCroy`: its constructor brings the adapter up
    (or cleans up and fails), `snd_str` and `rcv_str` move command and answer
    over the bulk endpoints, its destructor tears the connection down. Every
    method is proved to issue exactly the requests, and to hold exactly the
    resources, that the functions of `Bringup` and `Framing` describe. */
module LeCroyCc {
  import opened Wrappers
  import opened Descriptors
  import opened Encoding
  import opened Platform
  import opened Bringup
  import opened Framing

  /** Everything the constructor issues: the bring-up, the release of the
      descriptor by its scope guard once fetched, and on failure the cleanup
      (with the interface marker still unset). */
  function Construction(p: Progress): seq<Call> {
    p.calls + (if p.cfg then [FreeConfig] else []) + (if p.err.Some? then Teardown(p.devh, -1, p.ctx) else [])
  }

  /** The resources held once the constructor returns: on success those it
      acquired, on failure only the interface claim it never gives back. */
  function Retained(h: Held, p: Progress): Held {
    if p.err.None? then Acquired(h, p) else Leaked(h, p)
  }

  class LeCroy {
    const host: Host
    /** m_devh and m_ctx are non-null. */
    var devh: bool
    var ctx: bool
    /** m_intf: the claimed interface, -1 for none. */
    var intf: int
    var wendp: int
    var rendp: int
    var timeout: int

    /** The fields agree with the library: a set handle or context, or a set
      interface marker, is one the library holds. */
    ghost predicate Valid()
      reads this, host
    {
      && host.Valid()
      && timeout == TIMEOUT_MS
      && (devh ==> host.held.handles > 0)
      && (ctx ==> host.held.contexts > 0)
      && (intf >= 0 ==> host.held.claims > 0)
    }

    /** A constructed object: handle, context and both endpoints in place. */
    ghost predicate Ready()
      reads this, host
    {
      Valid() && devh && ctx && rendp >= 0 && wendp >= 0
    }

    /** The member initialiser list: nothing held, no endpoints, no interface. */
    constructor (host: Host)
      requires host.Valid()
      ensures this.host == host && Valid()
      ensures !devh && !ctx && intf == -1 && wendp == -1 && rendp == -1 && timeout == TIMEOUT_MS
    {
      this.host := host;
      devh, ctx := false, false;
      intf, wendp, rendp := -1, -1, -1;
      timeout := TIMEOUT_MS;
    }

    /** `ctl_msg`: one vendor control request carrying buf[..len]; a status of
      zero or below is an error. */
    method CtlMsg(buf: Option<array<byte>>, len: nat) returns (r: Result<int, Error>)
      requires Valid() && devh
      requires if buf.Some? then len <= buf.value.Length else len == 0
      modifies host
      ensures var data := if buf.Some? then old(buf.value[..len]) else [];
        var st := old(host.replies).ControlStatus(len);
        && host.log == old(host.log) + [BridgeControl(data)]
        && host.replies == old(host.replies).AfterControl() && host.held == old(host.held)
        && (r.Success? <==> st > 0) && (r.Success? ==> r.value == st)
        && (r.Failure? ==> r.error == ControlTransferFailed)
    {
      var data := if buf.Some? then buf.value[..len] else [];
      var st := host.ControlTransfer(VENDOR_OUT_TO_DEVICE, BRIDGE_REQUEST, 0, 0, data, timeout);
      if st <= 0 {
        return Failure(ControlTransferFailed);
      }
      return Success(st);
    }

    /** `vctl_msg(m0, ...)`: count the arguments before the sentinel, copy
      them, truncated to bytes, into a fresh buffer and send it; with m0
      negative nothing is allocated and a zero-length request goes out. The
      buffer is freed on every path. */
    method VctlMsg(m0: int, rest: seq<int>) returns (r: Result<int, Error>)
      requires Valid() && devh && Terminated([m0] + rest)
      modifies host
      ensures var s := Message([m0] + rest, old(host.replies));
        && host.log == old(host.log) + s.calls && host.replies == s.rest && host.held == old(host.held)
        && (r.Success? <==> s.err.None?) && (r.Failure? ==> r.error == s.err.value)
        && (r.Success? ==> r.value > 0)
    {
      ghost var data := Encode([m0] + rest);
      var narg := 0;
      var buf: Option<array<byte>> := None;
      if m0 >= 0 {
        assert Terminated(rest) by {
          var j :| 0 <= j < |[m0] + rest| && ([m0] + rest)[j] < 0;
          assert rest[j - 1] < 0;
        }
        var count := CountArgs(rest);
        narg := 1 + count;
        buf := host.Malloc(narg);
        if buf.None? {
          host.Free(buf);
          return Failure(OutOfMemory);
        }
        buf.value[0] := ToByte(m0);
        FillBuffer(buf.value, 1, rest);
        EncodeAssembled(m0, rest, buf.value[..]);
        assert buf.value[..narg] == data;
      } else {
        assert data == [];
      }
      assert (if buf.Some? then buf.value[..narg] else []) == data;
      r := CtlMsg(buf, narg);
      host.Free(buf);
    }

    /** The configuration messages in order, each argument list sent with
      `vctl_msg`; the first that fails ends the sequence with its error. */
    method SendConfiguration(msgs: seq<seq<int>>) returns (err: Option<Error>)
      requires Valid() && devh
      requires forall k | 0 <= k < |msgs| :: |msgs[k]| > 0 && Terminated(msgs[k])
      modifies host
      ensures Valid()
      ensures var m := Configuration(msgs, old(host.replies));
        && err == m.err && host.log == old(host.log) + m.calls
        && host.replies == m.rest && host.held == old(host.held)
    {
      ghost var ps, q0, log0 := EncodeAll(msgs), host.replies, host.log;
      ghost var done: seq<Call> := [];
      PendingStart(ps, q0);
      var k := 0;
      while k < |msgs|
        invariant k <= |msgs| && Valid() && host.held == old(host.held)
        invariant host.log == log0 + done && Pending(ps, q0, done, k, host.replies)
      {
        ghost var q := host.replies;
        var args := msgs[k];
        assert args == [args[0]] + args[1..];
        var r := VctlMsg(args[0], args[1..]);
        assert host.log == log0 + (done + Transfer(ps[k], q).calls);
        if r.Failure? {
          PendingStop(ps, q0, done, k, q);
          return Some(r.error);
        }
        PendingAdvance(ps, q0, done, k, q);
        done := done + Transfer(ps[k], q).calls;
        k := k + 1;
      }
      PendingFinish(ps, q0, done, host.replies);
      err := None;
    }

    /** The try block after the descriptor was fetched: check the descriptor,
      claim the data interface (without recording it in the interface marker),
      scan its endpoints into the endpoint fields, send the configuration
      messages and clear the halts. */
    method ConfigureInterface(cfg: ConfigDescriptor) returns (err: Option<Error>)
      requires Valid() && devh && ctx && WellFormed(cfg) && cfg == host.dev.config
      requires intf == -1 && rendp == -1 && wendp == -1
      modifies this, host
      ensures var a := Attach(cfg, host.dev.claimStatus, CONFIG_MESSAGES, old(host.replies));
        && err == a.err && host.log == old(host.log) + a.calls && host.replies == a.rest
        && host.held == old(host.held).(claims := old(host.held).claims + if a.claimed then 1 else 0)
        && rendp == a.rendp && wendp == a.wendp
      ensures Valid() && devh && ctx && intf == -1
    {
      if cfg.bNumInterfaces as int <= DATA_INTF_NUMBER {
        return Some(UnexpectedDescriptor);
      }
      var alt := cfg.interfaces[DATA_INTF_NUMBER].altsettings[0];
      if alt.bInterfaceClass != 0 {
        return Some(UnexpectedDescriptor);
      }
      if alt.bInterfaceSubClass != 0 {
        return Some(UnexpectedDescriptor);
      }
      var st := host.Claim(DATA_INTF_NUMBER);
      if st != 0 {
        return Some(InterfaceClaimFailed);
      }
      rendp, wendp := ScanEndpoints(alt);
      if rendp < 0 || wendp < 0 {
        return Some(EndpointsNotFound);
      }
      ConfigMessagesTerminated();
      err := SendConfiguration(CONFIG_MESSAGES);
      if err.Some? {
        return;
      }
      host.ClearHalt(wendp);
      host.ClearHalt(rendp);
    }

    /** `cleanup`: release the interface when the marker is set and close the
      handle, when there is one, then leave the context, when there is one. */
    method Cleanup()
      requires Valid()
      modifies host
      ensures host.log == old(host.log) + Teardown(devh, intf, ctx) && host.replies == old(host.replies)
      ensures host.held == old(host.held).(
        claims := old(host.held).claims - (if devh && intf >= 0 then 1 else 0),
        handles := old(host.held).handles - (if devh then 1 else 0),
        contexts := old(host.held).contexts - (if ctx then 1 else 0))
    {
      if devh {
        if intf >= 0 {
          host.Release(intf);
        }
        host.Close();
      }
      if ctx {
        host.Exit();
      }
    }

    /** The constructor's try block: the bring-up, with the descriptor
      released by its guard once fetched; the fields record the context and
      the handle obtained, the interface marker stays unset. */
    method TryBringUp(vid: int, pid: int) returns (err: Option<Error>)
      requires Valid() && !devh && !ctx && intf == -1 && rendp == -1 && wendp == -1
      modifies this, host
      ensures var p := BringUp(host.dev, vid, pid, CONFIG_MESSAGES, old(host.replies));
        && err == p.err && host.log == old(host.log) + p.calls + (if p.cfg then [FreeConfig] else [])
        && host.replies == p.rest && host.held == Acquired(old(host.held), p)
        && Valid() && ctx == p.ctx && devh == p.devh && intf == -1
        && (err.None? ==> Ready() && rendp == p.rendp && wendp == p.wendp)
    {
      var st := host.Init();
      if st != 0 {
        return Some(ContextInitFailed);
      }
      ctx := true;
      var found := host.Open(vid, pid);
      if !found {
        return Some(DeviceNotFound);
      }
      devh := true;
      st := host.SetAutoDetach(1);
      if st != 0 {
        return Some(KernelDetachFailed);
      }
      var cfg;
      st, cfg := host.GetActiveConfig();
      if st != 0 {
        return Some(DescriptorFetchFailed);
      }
      err := ConfigureInterface(cfg.value);
      host.FreeConfig();
    }

    /** The try block with its catch: on failure, the cleanup. */
    method Construct(vid: int, pid: int) returns (err: Option<Error>)
      requires Valid() && !devh && !ctx && intf == -1 && rendp == -1 && wendp == -1
      modifies this, host
      ensures var p := BringUp(host.dev, vid, pid, CONFIG_MESSAGES, old(host.replies));
        && err == p.err && host.log == old(host.log) + Construction(p) && host.replies == p.rest
        && host.held == Retained(old(host.held), p)
        && (err.None? ==> Ready() && rendp == p.rendp && wendp == p.wendp && intf == -1)
    {
      err := TryBringUp(vid, pid);
      if err.Some? {
        Cleanup();
      }
    }

    /** `new LeCroy(vid, pid)`: the member initialisers, then the bring-up; a
      failure propagates as the error, and the object is never handed out. */
    static method Create(host: Host, vid: int, pid: int) returns (r: Result<LeCroy, Error>)
      requires host.Valid()
      modifies host
      ensures var p := BringUp(host.dev, vid, pid, CONFIG_MESSAGES, old(host.replies));
        && (r.Success? <==> p.err.None?) && (r.Failure? ==> r.error == p.err.value)
        && (r.Success? ==> r.value.rendp == p.rendp && r.value.wendp == p.wendp)
        && host.log == old(host.log) + Construction(p) && host.replies == p.rest
        && host.held == Retained(old(host.held), p)
      ensures r.Success? ==> fresh(r.value) && r.value.host == host && r.value.Ready() && r.value.intf == -1
    {
      var d := new LeCroy(host);
      var err := d.Construct(vid, pid);
      if err.Some? {
        return Failure(err.value);
      }
      return Success(d);
    }

    /** The destructor: `cleanup`. */
    method Destroy()
      requires Valid()
      modifies host
      ensures host.log == old(host.log) + Teardown(devh, intf, ctx) && host.replies == old(host.replies)
      ensures host.held == old(host.held).(
        claims := old(host.held).claims - (if devh && intf >= 0 then 1 else 0),
        handles := old(host.held).handles - (if devh then 1 else 0),
        contexts := old(host.held).contexts - (if ctx then 1 else 0))
    {
      Cleanup();
    }

    /** `snd_str`: one bulk OUT transfer of the C string without its
      terminator on the write endpoint; a negative status is an error,
      otherwise the count of bytes the device took. */
    method SndStr(buf: seq<byte>) returns (r: Result<nat, Error>)
      requires Valid() && devh && IsCString(buf)
      modifies host
      ensures var s := Send(wendp, buf, old(host.replies));
        && r == SentCount(s) && host.log == old(host.log) + [s.call]
        && host.replies == s.rest && host.held == old(host.held)
    {
      var st, put := host.BulkOut(wendp, Command(buf), timeout);
      if st < 0 {
        return Failure(BulkTransferFailed);
      }
      return Success(put);
    }

    /** `rcv_str`: a bulk IN transfer of up to bufsz bytes into buf on the read
      endpoint, then one of two bytes into a local buffer for the line end; a
      negative status of either is an error, otherwise the count of the first. */
    method RcvStr(buf: array<byte>, bufsz: nat) returns (r: Result<nat, Error>)
      requires Valid() && devh && bufsz <= buf.Length
      modifies host, buf
      ensures var rc := Receive(rendp, bufsz, old(host.replies));
        && r == ReceivedCount(rc) && host.log == old(host.log) + rc.calls
        && host.replies == rc.rest && host.held == old(host.held)
        && buf[..rc.got] == rc.payload && buf[rc.got..] == old(buf[rc.got..])
    {
      var st, got := host.BulkIn(rendp, buf, bufsz, timeout);
      if st < 0 {
        return Failure(BulkTransferFailed);
      }
      var crlf := new byte[TRAILER_LENGTH];
      var got1;
      st, got1 := host.BulkIn(rendp, crlf, TRAILER_LENGTH, timeout);
      if st < 0 {
        return Failure(BulkTransferFailed);
      }
      return Success(got);
    }
  }

  /** The constructor never releases the data interface, on success or
      failure: its requests hold no release. */
  lemma ConstructionNeverReleases(d: Device, vid: int, pid: int, q: Replies)
    requires WellFormed(d.config)
    ensures forall k | 0 <= k < |Construction(BringUp(d, vid, pid, CONFIG_MESSAGES, q))| ::
      !Construction(BringUp(d, vid, pid, CONFIG_MESSAGES, q))[k].Release?
  {
    var p := BringUp(d, vid, pid, CONFIG_MESSAGES, q);
    BringUpNeverReleases(d, vid, pid, CONFIG_MESSAGES, q);
    TeardownWithoutMarker(p.devh, p.ctx);
    var guard := if p.cfg then [FreeConfig] else [];
    var t := if p.err.Some? then Teardown(p.devh, -1, p.ctx) else [];
    var c := Construction(p);
    assert c == p.calls + guard + t;
    assert forall k | |p.calls| <= k < |p.calls| + |guard| :: c[k] == FreeConfig;
    assert forall k | |p.calls| + |guard| <= k < |c| :: c[k] == t[k - |p.calls| - |guard|];
  }

  /** A failed construction gives back the context, the handle and the
      descriptor it obtained, and only those: the interface stays claimed, and
      it was claimed exactly when every stage up to the claim passed. A
      successful one holds one more context, handle and claim, and no
      descriptor. */
  lemma ConstructionHolds(h: Held, d: Device, vid: int, pid: int, q: Replies)
    requires WellFormed(d.config)
    ensures var p := BringUp(d, vid, pid, CONFIG_MESSAGES, q); var r := Retained(h, p);
      && (p.err.Some? ==>
            && r.contexts == h.contexts && r.handles == h.handles && r.configs == h.configs
            && r.buffers == h.buffers
            && (r.claims == h.claims + 1 <==>
                  && d.initStatus == 0 && vid == d.vid && pid == d.pid && d.detachStatus == 0
                  && d.configStatus == 0 && Acceptable(d.config) && d.claimStatus == 0)
            && (r.claims == h.claims || r.claims == h.claims + 1))
      && (p.err.None? ==> r == h.(contexts := h.contexts + 1, handles := h.handles + 1, claims := h.claims + 1))
  {
    ClaimedIff(d, vid, pid, CONFIG_MESSAGES, q);
    HeldResourcesNest(d, vid, pid, CONFIG_MESSAGES, q);
  }
}
