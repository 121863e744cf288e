/** The C test program `lecroy.c`: one function `main` that parses its
    options, brings the adapter up exactly as the C++ constructor does, sends
    the identification query, reads the answer and, on every path, releases
    what it obtained through a single exit block. Its helpers report raw
    libusb statuses instead of errors. */
module LeCroyC {
  import opened Wrappers
  import opened Descriptors
  import opened Encoding
  import opened Platform
  import opened Bringup
  import opened Framing
  import LeCroyCc

  /** The identity `main` looks for; no option changes it. */
  const ID_VEND := 0x05ff
  const ID_PROD := 0x0021

  /** Size of the answer buffer, `BUFSZ_HS`. */
  const BUFSZ_HS := 16 * 65536

  /** What the C `vctl_msg` does: the status it returns, the requests it
      issued and the replies left. */
  datatype CStep = CStep(status: int, calls: seq<Call>, rest: Replies)

  /** The C `vctl_msg`: it always allocates (even for an empty list); when the
      allocation fails it returns -1 without a request, otherwise the raw
      status of the one vendor request carrying the encoded arguments. */
  function CMessage(args: seq<int>, q: Replies): CStep {
    if !q.AllocOk() then CStep(-1, [], q.AfterAlloc())
    else
      var data := Encode(args);
      var q1 := q.AfterAlloc();
      CStep(q1.ControlStatus(|data|), [BridgeControl(data)], q1.AfterControl())
  }

  /** For a non-empty argument list the C `vctl_msg` and the C++ one agree:
      the C status is zero or below exactly when the C++ call fails, with
      the same requests and the same replies consumed; an allocation failure
      is the status -1. */
  lemma CMessageAgrees(args: seq<int>, q: Replies)
    requires |args| > 0 && args[0] >= 0
    ensures var c := CMessage(args, q); var m := Message(args, q);
      && |Encode(args)| > 0
      && (c.status <= 0 <==> m.err.Some?)
      && (m.err == Some(OutOfMemory) <==> !q.AllocOk())
      && (!q.AllocOk() ==> c.status == -1)
      && c.calls == m.calls && c.rest == m.rest
  {
    assert Count(args) >= 1;
  }

  /** The messages a configuration is made of: each one starts with a byte and
      ends with the sentinel. */
  predicate Configurable(msgs: seq<seq<int>>) {
    forall k | 0 <= k < |msgs| :: |msgs[k]| > 0 && msgs[k][0] >= 0 && Terminated(msgs[k])
  }

  /** `ctl_msg`: the vendor request carrying buf[..len]; the raw status. */
  method CtlMsg(host: Host, buf: array<byte>, len: nat) returns (st: int)
    requires host.held.handles > 0 && len <= buf.Length
    modifies host
    ensures st == old(host.replies).ControlStatus(len)
    ensures host.log == old(host.log) + [BridgeControl(buf[..len])]
    ensures host.replies == old(host.replies).AfterControl() && host.held == old(host.held)
  {
    st := host.ControlTransfer(VENDOR_OUT_TO_DEVICE, BRIDGE_REQUEST, 0, 0, buf[..len], TIMEOUT_MS);
  }

  /** `vctl_msg(devh, ...)`: count the arguments before the sentinel, allocate
      that many bytes, fill them with the arguments truncated to 8 bits, send
      them and free the buffer; -1 when the allocation fails. */
  method VctlMsg(host: Host, args: seq<int>) returns (st: int)
    requires host.held.handles > 0 && Terminated(args)
    modifies host
    ensures var c := CMessage(args, old(host.replies));
      && st == c.status && host.log == old(host.log) + c.calls
      && host.replies == c.rest && host.held == old(host.held)
  {
    var narg := CountArgs(args);
    EncodeSpec(args, narg);
    var buf := host.Malloc(narg);
    if buf.None? {
      host.Free(buf);
      return -1;
    }
    FillBuffer(buf.value, 0, args);
    assert buf.value[..narg] == buf.value[0..];
    st := CtlMsg(host, buf.value, narg);
    host.Free(buf);
  }

  /** The twelve checked `vctl_msg` calls of `main`: the first status of zero
      or below ends the sequence. */
  method SendConfiguration(host: Host, msgs: seq<seq<int>>) returns (ok: bool)
    requires host.held.handles > 0 && Configurable(msgs)
    modifies host
    ensures var m := Configuration(msgs, old(host.replies));
      && ok == m.err.None? && host.log == old(host.log) + m.calls
      && host.replies == m.rest && host.held == old(host.held)
  {
    ghost var ps, q0, log0 := EncodeAll(msgs), host.replies, host.log;
    ghost var done: seq<Call> := [];
    PendingStart(ps, q0);
    var k := 0;
    while k < |msgs|
      invariant k <= |msgs| && host.held == old(host.held)
      invariant host.log == log0 + done && Pending(ps, q0, done, k, host.replies)
    {
      ghost var q := host.replies;
      CMessageAgrees(msgs[k], q);
      var st := VctlMsg(host, msgs[k]);
      assert host.log == log0 + (done + Transfer(ps[k], q).calls);
      if st <= 0 {
        PendingStop(ps, q0, done, k, q);
        return false;
      }
      PendingAdvance(ps, q0, done, k, q);
      done := done + Transfer(ps[k], q).calls;
      k := k + 1;
    }
    PendingFinish(ps, q0, done, host.replies);
    ok := true;
  }

  /** `snd_str`: one bulk OUT transfer of the C string without its
      terminator; the raw status. */
  method SndStr(host: Host, ep: int, buf: seq<byte>) returns (st: int)
    requires host.held.handles > 0 && IsCString(buf)
    modifies host
    ensures var s := Send(ep, buf, old(host.replies));
      && st == SentStatus(s) && host.log == old(host.log) + [s.call]
      && host.replies == s.rest && host.held == old(host.held)
  {
    var got;
    st, got := host.BulkOut(ep, Command(buf), TIMEOUT_MS);
  }

  /** `rcv_str`: a bulk IN transfer of up to bufsz bytes into buf, then, when
      it did not fail, one of two bytes into a local buffer for the line end;
      the status of the read that failed, otherwise the count of the first. */
  method RcvStr(host: Host, ep: int, buf: array<byte>, bufsz: nat) returns (st: int)
    requires host.held.handles > 0 && bufsz <= buf.Length
    modifies host, buf
    ensures var r := Receive(ep, bufsz, old(host.replies));
      && st == ReceivedStatus(r) && host.log == old(host.log) + r.calls
      && host.replies == r.rest && host.held == old(host.held)
      && buf[..r.got] == r.payload && buf[r.got..] == old(buf[r.got..])
  {
    var got;
    st, got := host.BulkIn(ep, buf, bufsz, TIMEOUT_MS);
    if st < 0 {
      return st;
    }
    var crlf := new byte[TRAILER_LENGTH];
    var got1;
    st, got1 := host.BulkIn(ep, crlf, TRAILER_LENGTH, TIMEOUT_MS);
    if st < 0 {
      return st;
    }
    return got;
  }

  /** The option characters getopt hands back hold only `-h`. */
  predicate HelpOnly(opts: seq<char>) {
    forall i | 0 <= i < |opts| :: opts[i] == 'h'
  }

  /** The option loop of `main` over the characters getopt returns: `-h`
      counts up `help` from -1, any other option stops the loop as an error. */
  method ParseOptions(opts: seq<char>) returns (ok: bool, help: int)
    ensures ok <==> HelpOnly(opts)
    ensures ok ==> help == |opts| - 1
  {
    help := -1;
    var i := 0;
    while i < |opts|
      invariant i <= |opts| && help == i - 1
      invariant forall j | 0 <= j < i :: opts[j] == 'h'
    {
      if opts[i] != 'h' {
        return false, help;
      }
      help := help + 1;
      i := i + 1;
    }
    ok := true;
  }

  /** What `main` does: exit status, requests issued, replies left, the
      answer it prints, and whether it left the data interface claimed. */
  datatype Outcome = Outcome(rv: int, calls: seq<Call>, rest: Replies, answer: seq<byte>, claimed: bool)

  /** The exit block `bail`: free the descriptor, close the handle (the
      interface marker is never set, so nothing is released) and leave the
      context, each when obtained. */
  function ExitBlock(p: Progress): seq<Call> {
    (if p.cfg then [FreeConfig] else []) + Teardown(p.devh, -1, p.ctx)
  }

  /** What the exchange after the bring-up does: exit status, requests,
      replies left and the answer printed. */
  datatype Exchange = Exchange(rv: int, calls: seq<Call>, rest: Replies, answer: seq<byte>)

  /** The query on the write endpoint; when it was sent, the answer read on
      the read endpoint and success. The answer printed is the payload, when
      the read reported no error. */
  function Query(cmd: seq<byte>, wendp: int, rendp: int, q: Replies): Exchange
    requires IsCString(cmd)
  {
    var s := Send(wendp, cmd, q);
    if SentStatus(s) < 0 then Exchange(1, [s.call], s.rest, [])
    else
      var r := Receive(rendp, BUFSZ_HS, s.rest);
      Exchange(0, [s.call] + r.calls, r.rest, if ReceivedStatus(r) >= 0 then r.payload else [])
  }

  /** `main` after the bring-up described by p: on failure the exit block;
      otherwise the query and its answer, then the exit block. */
  function AfterBringUp(cmd: seq<byte>, p: Progress): Outcome
    requires IsCString(cmd)
  {
    if p.err.Some? then Outcome(1, p.calls + ExitBlock(p), p.rest, [], p.claimed)
    else
      var x := Query(cmd, p.wendp, p.rendp, p.rest);
      Outcome(x.rv, p.calls + x.calls + ExitBlock(p), x.rest, x.answer, p.claimed)
  }

  /** `main` as a whole: an unknown option fails before anything is obtained,
      `-h` succeeds before anything is obtained, otherwise the bring-up with
      the default identity and what follows it. */
  function Program(opts: seq<char>, d: Device, q: Replies): Outcome
    requires WellFormed(d.config)
  {
    if !HelpOnly(opts) then Outcome(1, [], q, [], false)
    else if |opts| > 0 then Outcome(0, [], q, [], false)
    else IdnLength(); AfterBringUp(IDN, BringUp(d, ID_VEND, ID_PROD, CONFIG_MESSAGES, q))
  }

  /** The exit block, with the variables of `main` as parameters. */
  method Bail(host: Host, cfg: bool, devh: bool, intf: int, ctx: bool)
    requires cfg ==> host.held.configs > 0
    requires devh ==> host.held.handles > 0
    requires devh && intf >= 0 ==> host.held.claims > 0
    requires ctx ==> host.held.contexts > 0
    modifies host
    ensures host.log == old(host.log) + (if cfg then [FreeConfig] else []) + Teardown(devh, intf, ctx)
    ensures host.replies == old(host.replies)
    ensures host.held == old(host.held).(
      configs := old(host.held).configs - (if cfg then 1 else 0),
      claims := old(host.held).claims - (if devh && intf >= 0 then 1 else 0),
      handles := old(host.held).handles - (if devh then 1 else 0),
      contexts := old(host.held).contexts - (if ctx then 1 else 0))
  {
    if cfg {
      host.FreeConfig();
    }
    if devh {
      if intf >= 0 {
        host.Release(intf);
      }
      host.Close();
    }
    if ctx {
      host.Exit();
    }
  }

  /** The part of `main` after the descriptor was fetched: check it, claim
      the data interface, find the bulk endpoints, send the configuration and
      clear the halts. */
  method AttachStage(host: Host, cfg: ConfigDescriptor, msgs: seq<seq<int>>) returns (ok: bool, rendp: int, wendp: int)
    requires host.Valid() && cfg == host.dev.config && host.held.handles > 0 && Configurable(msgs)
    modifies host
    ensures var a := Attach(cfg, host.dev.claimStatus, msgs, old(host.replies));
      && ok == a.err.None? && host.log == old(host.log) + a.calls && host.replies == a.rest
      && host.held == old(host.held).(claims := old(host.held).claims + if a.claimed then 1 else 0)
      && (ok ==> rendp == a.rendp && wendp == a.wendp)
  {
    rendp, wendp := -1, -1;
    if cfg.bNumInterfaces as int <= DATA_INTF_NUMBER {
      return false, rendp, wendp;
    }
    var alt := cfg.interfaces[DATA_INTF_NUMBER].altsettings[0];
    if alt.bInterfaceClass != 0 || alt.bInterfaceSubClass != 0 {
      return false, rendp, wendp;
    }
    var st := host.Claim(DATA_INTF_NUMBER);
    if st != 0 {
      return false, rendp, wendp;
    }
    rendp, wendp := ScanEndpoints(alt);
    if rendp < 0 || wendp < 0 {
      return false, rendp, wendp;
    }
    ok := SendConfiguration(host, msgs);
    if !ok {
      return;
    }
    host.ClearHalt(wendp);
    host.ClearHalt(rendp);
  }

  /** The bring-up part of `main`, up to the halt clearing: what it obtained
      (the descriptor is still held, `bail` frees it) and the endpoints. */
  method BringUpStage(host: Host, vid: int, pid: int, msgs: seq<seq<int>>)
    returns (ok: bool, cfg: bool, devh: bool, ctx: bool, rendp: int, wendp: int)
    requires host.Valid() && Configurable(msgs)
    modifies host
    ensures var p := BringUp(host.dev, vid, pid, msgs, old(host.replies));
      && ok == p.err.None? && host.log == old(host.log) + p.calls && host.replies == p.rest
      && host.held == Acquired(old(host.held), p).(configs := old(host.held).configs + if p.cfg then 1 else 0)
      && cfg == p.cfg && devh == p.devh && ctx == p.ctx
      && (ok ==> rendp == p.rendp && wendp == p.wendp)
  {
    ok, cfg, devh, ctx, rendp, wendp := false, false, false, false, -1, -1;
    var st := host.Init();
    if st != 0 {
      return;
    }
    ctx := true;
    devh := host.Open(vid, pid);
    if !devh {
      return;
    }
    st := host.SetAutoDetach(1);
    if st != 0 {
      return;
    }
    var c;
    st, c := host.GetActiveConfig();
    if st != 0 {
      return;
    }
    cfg := true;
    ok, rendp, wendp := AttachStage(host, c.value, msgs);
  }

  /** The query and the answer of `main`: `snd_str`, then `rcv_str` into a
      buffer one byte larger than the read, the terminator written only after
      a read that did not fail (see `TerminatorFits`). */
  method Converse(host: Host, cmd: seq<byte>, wendp: int, rendp: int) returns (rv: int, answer: seq<byte>)
    requires host.held.handles > 0 && IsCString(cmd)
    modifies host
    ensures var x := Query(cmd, wendp, rendp, old(host.replies));
      && rv == x.rv && answer == x.answer
      && host.log == old(host.log) + x.calls && host.replies == x.rest && host.held == old(host.held)
  {
    var st := SndStr(host, wendp, cmd);
    if st < 0 {
      return 1, [];
    }
    var buf := new byte[BUFSZ_HS + 1];
    var got := RcvStr(host, rendp, buf, BUFSZ_HS);
    answer := [];
    var t := TerminatorIndex(got);
    if t.Some? {
      buf[t.value] := 0;
      answer := buf[..t.value];
    }
    rv := 0;
  }

  /** `main` after the bring-up described by p, which left the log at
      log0 + p.calls and the resources at those of `Acquired` plus the
      descriptor: the exchange when the bring-up succeeded, then the exit
      block (the interface marker `intf` keeps its initial -1). */
  method Finish(host: Host, ghost p: Progress, ghost log0: seq<Call>, ghost h0: Held, cmd: seq<byte>,
                ok: bool, cfg: bool, devh: bool, ctx: bool, rendp: int, wendp: int)
    returns (rv: int, answer: seq<byte>)
    requires IsCString(cmd)
    requires ok == p.err.None? && cfg == p.cfg && devh == p.devh && ctx == p.ctx
    requires ok ==> rendp == p.rendp && wendp == p.wendp
    requires (p.cfg ==> p.devh) && (p.devh ==> p.ctx) && (p.claimed ==> p.cfg) && (p.err.None? ==> p.claimed)
    requires host.log == log0 + p.calls && host.replies == p.rest
    requires host.held == Acquired(h0, p).(configs := h0.configs + if p.cfg then 1 else 0)
    modifies host
    ensures var o := AfterBringUp(cmd, p);
      && rv == o.rv && answer == o.answer
      && host.log == log0 + o.calls && host.replies == o.rest
      && host.held == Leaked(h0, p)
  {
    var intf := -1;
    ghost var e := ExitBlock(p);
    assert e == (if cfg then [FreeConfig] else []) + Teardown(devh, intf, ctx);
    if ok {
      ghost var x := Query(cmd, wendp, rendp, p.rest);
      rv, answer := Converse(host, cmd, wendp, rendp);
      Bail(host, cfg, devh, intf, ctx);
      assert host.log == log0 + (p.calls + x.calls + e);
    } else {
      rv, answer := 1, [];
      Bail(host, cfg, devh, intf, ctx);
      assert host.log == log0 + (p.calls + e);
    }
  }

  /** `main` from `libusb_init` on: the bring-up, then the rest. */
  method Session(host: Host, vid: int, pid: int, msgs: seq<seq<int>>, cmd: seq<byte>) returns (rv: int, answer: seq<byte>)
    requires host.Valid() && Configurable(msgs) && IsCString(cmd)
    modifies host
    ensures var p := BringUp(host.dev, vid, pid, msgs, old(host.replies));
      var o := AfterBringUp(cmd, p);
      && rv == o.rv && answer == o.answer
      && host.log == old(host.log) + o.calls && host.replies == o.rest
      && host.held == Leaked(old(host.held), p)
  {
    ghost var p := BringUp(host.dev, vid, pid, msgs, host.replies);
    ghost var log0, h0 := host.log, host.held;
    HeldResourcesNest(host.dev, vid, pid, msgs, host.replies);
    var ok, cfg, devh, ctx, rendp, wendp := BringUpStage(host, vid, pid, msgs);
    rv, answer := Finish(host, p, log0, h0, cmd, ok, cfg, devh, ctx, rendp, wendp);
  }

  /** `main(argc, argv)`, with the option characters getopt returns and the
      identity it looks for. */
  method Run(host: Host, opts: seq<char>) returns (rv: int, answer: seq<byte>)
    requires host.Valid()
    modifies host
    ensures var o := Program(opts, host.dev, old(host.replies));
      && rv == o.rv && answer == o.answer
      && host.log == old(host.log) + o.calls && host.replies == o.rest
      && host.held == old(host.held).(claims := old(host.held).claims + if o.claimed then 1 else 0)
  {
    var parsed, help := ParseOptions(opts);
    if !parsed {
      return 1, [];
    }
    if help >= 0 {
      return 0, [];
    }
    ConfigMessagesTerminated();
    IdnLength();
    rv, answer := Session(host, ID_VEND, ID_PROD, CONFIG_MESSAGES, IDN);
  }

  /** `main` exits with 0 exactly when `-h` alone was given, or when no option
      was given, the bring-up succeeded and the query was sent; otherwise with
      1. */
  lemma ProgramExitStatus(opts: seq<char>, d: Device, q: Replies)
    requires WellFormed(d.config)
    ensures var o := Program(opts, d, q);
      var p := BringUp(d, ID_VEND, ID_PROD, CONFIG_MESSAGES, q);
      && (o.rv == 0 || o.rv == 1)
      && (o.rv == 0 <==>
            || (|opts| > 0 && HelpOnly(opts))
            || (opts == [] && p.err.None? && Send(p.wendp, IDN, p.rest).status >= 0))
  {
    IdnLength();
  }

  /** The exchange issues only bulk transfers. */
  lemma QueryOnlyBulk(cmd: seq<byte>, wendp: int, rendp: int, q: Replies)
    requires IsCString(cmd)
    ensures forall k | 0 <= k < |Query(cmd, wendp, rendp, q).calls| ::
      Query(cmd, wendp, rendp, q).calls[k].BulkOut? || Query(cmd, wendp, rendp, q).calls[k].BulkIn?
  {
    var s := Send(wendp, cmd, q);
    ReceiveFrames(rendp, BUFSZ_HS, s.rest);
  }

  /** What follows a bring-up that released nothing releases nothing either. */
  lemma AfterBringUpNeverReleases(cmd: seq<byte>, p: Progress)
    requires IsCString(cmd)
    requires forall k | 0 <= k < |p.calls| :: !p.calls[k].Release?
    ensures forall k | 0 <= k < |AfterBringUp(cmd, p).calls| :: !AfterBringUp(cmd, p).calls[k].Release?
  {
    TeardownWithoutMarker(p.devh, p.ctx);
    var x := ExitBlock(p);
    assert forall k | 0 <= k < |x| :: !x[k].Release?;
    var mid := if p.err.Some? then [] else Query(cmd, p.wendp, p.rendp, p.rest).calls;
    QueryOnlyBulk(cmd, p.wendp, p.rendp, p.rest);
    assert forall k | 0 <= k < |mid| :: !mid[k].Release?;
    NoReleaseConcat(p.calls, mid, x);
    assert AfterBringUp(cmd, p).calls == p.calls + mid + x;
  }

  /** `main` never releases the data interface on any path. */
  lemma ProgramNeverReleases(opts: seq<char>, d: Device, q: Replies)
    requires WellFormed(d.config)
    ensures forall k | 0 <= k < |Program(opts, d, q).calls| :: !Program(opts, d, q).calls[k].Release?
  {
    if HelpOnly(opts) && opts == [] {
      BringUpNeverReleases(d, ID_VEND, ID_PROD, CONFIG_MESSAGES, q);
      IdnLength();
      AfterBringUpNeverReleases(IDN, BringUp(d, ID_VEND, ID_PROD, CONFIG_MESSAGES, q));
    }
  }

  /** No release in three pieces, none in their concatenation. */
  lemma NoReleaseConcat(a: seq<Call>, b: seq<Call>, c: seq<Call>)
    requires forall k | 0 <= k < |a| :: !a[k].Release?
    requires forall k | 0 <= k < |b| :: !b[k].Release?
    requires forall k | 0 <= k < |c| :: !c[k].Release?
    ensures forall k | 0 <= k < |a + b + c| :: !(a + b + c)[k].Release?
  {
    forall k | 0 <= k < |a + b + c|
      ensures !(a + b + c)[k].Release?
    {
      if k < |a| {
        assert (a + b + c)[k] == a[k];
      } else if k < |a| + |b| {
        assert (a + b + c)[k] == b[k - |a|];
      } else {
        assert (a + b + c)[k] == c[k - |a| - |b|];
      }
    }
  }

  /** `main` leaves the data interface claimed exactly when it ran the
      bring-up and the claim succeeded; everything else it obtained it gives
      back, on every path. */
  lemma ProgramLeaksOnlyClaim(opts: seq<char>, d: Device, q: Replies)
    requires WellFormed(d.config)
    ensures Program(opts, d, q).claimed <==>
      && opts == [] && d.initStatus == 0 && ID_VEND == d.vid && ID_PROD == d.pid && d.detachStatus == 0
      && d.configStatus == 0 && Acceptable(d.config) && d.claimStatus == 0
  {
    ClaimedIff(d, ID_VEND, ID_PROD, CONFIG_MESSAGES, q);
  }

  /** The exit block undoes the bring-up's acquisitions in the guard's and the
      cleanup's order: the descriptor, exactly when fetched, then the handle,
      then the context. Together with `BringUpStage` and `Bail` this returns
      every counter but the claims to its starting value. */
  lemma ExitUndoesAcquired(h: Held, p: Progress)
    ensures var x := ExitBlock(p);
      && (FreeConfig in x <==> p.cfg) && (Close in x <==> p.devh) && (Call.Exit in x <==> p.ctx)
      && (forall k | 0 <= k < |x| :: !x[k].Release?)
      && Acquired(h, p).(contexts := h.contexts, handles := h.handles) == Leaked(h, p)
  {
    TeardownReleasesMarked(p.devh, -1, p.ctx);
    var g := if p.cfg then [FreeConfig] else [];
    var t := Teardown(p.devh, -1, p.ctx);
    assert ExitBlock(p) == g + t;
    assert FreeConfig !in t;
    assert Close in ExitBlock(p) <==> Close in t;
    assert Call.Exit in ExitBlock(p) <==> Call.Exit in t;
  }

  /** With no option given, a failed bring-up issues exactly what the C++
      constructor issues when it fails: the descriptor freed when fetched,
      then the cleanup. Both drivers exit their failure paths alike. */
  lemma DriversAgreeOnFailure(d: Device, q: Replies)
    requires WellFormed(d.config)
    ensures var p := BringUp(d, ID_VEND, ID_PROD, CONFIG_MESSAGES, q);
      p.err.Some? ==> Program([], d, q).calls == LeCroyCc.Construction(p)
                      && Program([], d, q).rv == 1
  {
  }

  /** As written, `buf[got] = 0` writes into a buffer of BUFSZ_HS bytes at the
      value `rcv_str` returned. */
  predicate TerminatorFitsAsWritten(got: int) {
    0 <= got < BUFSZ_HS
  }

  /** With a device that sends no answer the read times out, `rcv_str`
      returns -7, and the terminator is written before the buffer. */
  lemma TerminatorOverrunsAsWritten(ep: int, q: Replies)
    requires q.nIn >= |q.bulkIn|
    ensures ReceivedStatus(Receive(ep, BUFSZ_HS, q)) == LIBUSB_ERROR_TIMEOUT
    ensures !TerminatorFitsAsWritten(ReceivedStatus(Receive(ep, BUFSZ_HS, q)))
  {
  }

  /** With a device that fills the whole buffer, `rcv_str` returns BUFSZ_HS
      and the terminator is written just past the buffer. */
  lemma TerminatorOverrunsOnFullBuffer(ep: int, q: Replies, data: seq<byte>)
    requires |data| == BUFSZ_HS && q.nIn == 0
    requires q.bulkIn == [InReply(0, data), InReply(0, [0x0A, 0x0D])]
    ensures ReceivedStatus(Receive(ep, BUFSZ_HS, q)) == BUFSZ_HS
    ensures !TerminatorFitsAsWritten(ReceivedStatus(Receive(ep, BUFSZ_HS, q)))
  {
  }

  /** Corrected: the terminator goes at `got` only when `rcv_str` did not
      fail, in a buffer one byte larger than the read. */
  function TerminatorIndex(got: int): Option<nat> {
    if got >= 0 then Some(got) else None
  }

  /** The corrected terminator always lands inside the buffer of
      BUFSZ_HS + 1 bytes, right after the payload. */
  lemma TerminatorFits(ep: int, q: Replies)
    ensures var r := Receive(ep, BUFSZ_HS, q);
      var t := TerminatorIndex(ReceivedStatus(r));
      && (t.Some? <==> ReceivedStatus(r) >= 0)
      && (t.Some? ==> t.value == r.got == |r.payload| && t.value < BUFSZ_HS + 1)
  {
    ReceiveFrames(ep, BUFSZ_HS, q);
  }
}
