/** The framing of the serial traffic over the two bulk endpoints: a command
    goes out as the bytes of a C string without its terminator; an answer
    comes back as one payload read followed by one read of a two-byte trailer
    (the instrument's line end), whose bytes are thrown away. The functions
    say what either driver issues and what it reports. */
module Framing {
  import opened Wrappers
  import opened Encoding
  import opened Platform

  /** Size of the trailer read that follows every payload read. */
  const TRAILER_LENGTH := 2

  /** What sending does: the bulk OUT request issued, its status, the bytes
      the device took, the replies left. */
  datatype Sending = Sending(status: int, put: nat, call: Call, rest: Replies)

  /** The bytes of a C string, up to and excluding the terminator. */
  function Command(buf: seq<byte>): (data: seq<byte>)
    requires IsCString(buf)
    ensures |data| == Strlen(buf) && data == buf[..|data|]
    ensures forall i | 0 <= i < |data| :: data[i] != 0
  {
    buf[..Strlen(buf)]
  }

  /** One bulk OUT transfer of the command on endpoint ep. */
  function Send(ep: int, buf: seq<byte>, q: Replies): Sending
    requires IsCString(buf)
  {
    var data := Command(buf);
    var r := q.NextOut(|data|);
    Sending(r.status, Min(r.accepted, |data|), BulkOut(ep, data, TIMEOUT_MS), q.AfterOut())
  }

  /** The C++ `snd_str`: a negative status is an error, otherwise the count of
      bytes the device took. */
  function SentCount(s: Sending): Result<nat, Error> {
    if s.status < 0 then Failure(BulkTransferFailed) else Success(s.put)
  }

  /** The C `snd_str`: the raw status. */
  function SentStatus(s: Sending): int {
    s.status
  }

  /** What receiving does: the status and the count of the payload read, the
      status of the trailer read when it was issued, the payload bytes, the
      requests issued and the replies left. */
  datatype Reception = Reception(
    status: int,
    got: nat,
    trailer: Option<int>,
    payload: seq<byte>,
    calls: seq<Call>,
    rest: Replies)

  /** A payload read of up to bufsz bytes on endpoint ep; only when it does not
      fail, a trailer read of exactly two bytes on the same endpoint. */
  function Receive(ep: int, bufsz: nat, q: Replies): Reception {
    var first := q.NextIn();
    var got := Min(|first.data|, bufsz);
    var q1 := q.AfterIn();
    if first.status < 0 then
      Reception(first.status, got, None, first.data[..got], [BulkIn(ep, bufsz, TIMEOUT_MS)], q1)
    else
      Reception(first.status, got, Some(q1.NextIn().status), first.data[..got],
                [BulkIn(ep, bufsz, TIMEOUT_MS), BulkIn(ep, TRAILER_LENGTH, TIMEOUT_MS)], q1.AfterIn())
  }

  /** The C++ `rcv_str`: an error when either read fails, otherwise the count
      of the payload read. */
  function ReceivedCount(r: Reception): Result<nat, Error> {
    if r.status < 0 || (r.trailer.Some? && r.trailer.value < 0) then Failure(BulkTransferFailed)
    else Success(r.got)
  }

  /** The C `rcv_str`: the failing read's status, otherwise the count of the
      payload read. */
  function ReceivedStatus(r: Reception): int {
    if r.status < 0 then r.status
    else if r.trailer.Some? && r.trailer.value < 0 then r.trailer.value
    else r.got
  }

  /** The command goes out whole and unterminated, as one request of strlen
      bytes on the given endpoint; the count reported never exceeds it. */
  lemma SendFrames(ep: int, buf: seq<byte>, q: Replies)
    requires IsCString(buf)
    ensures var s := Send(ep, buf, q);
      && s.call == BulkOut(ep, buf[..Strlen(buf)], TIMEOUT_MS)
      && s.put <= Strlen(buf)
      && (q.nOut >= |q.bulkOut| ==> s.status == 0 && s.put == Strlen(buf))
      && (SentCount(s).Success? ==> SentCount(s).value <= Strlen(buf))
  {
  }

  /** The two send variants agree on failure: the C++ one fails exactly when
      the C one reports a negative status. */
  lemma SendVariantsAgree(s: Sending)
    ensures SentCount(s).Failure? <==> SentStatus(s) < 0
    ensures SentCount(s).Success? ==> SentCount(s).value == s.put && SentStatus(s) >= 0
  {
  }

  /** Sending "*IDN?\n\r" to an accepting device puts seven bytes on the wire. */
  lemma SendIdentify(ep: int, q: Replies)
    requires q.nOut >= |q.bulkOut|
    ensures IsCString(IDN)
    ensures var s := Send(ep, IDN, q);
      SentCount(s) == Success(7) && s.call == BulkOut(ep, IDN[..7], TIMEOUT_MS)
  {
    IdnLength();
  }

  /** A failed payload read issues no trailer read; otherwise exactly one
      trailer read of two bytes follows on the same endpoint. The payload is
      the device's data cut to the buffer size. */
  lemma ReceiveFrames(ep: int, bufsz: nat, q: Replies)
    ensures var r := Receive(ep, bufsz, q);
      && r.got <= bufsz && |r.payload| == r.got
      && r.payload == q.NextIn().data[..r.got]
      && (r.status < 0 <==> r.calls == [BulkIn(ep, bufsz, TIMEOUT_MS)])
      && (r.status >= 0 <==> r.calls == [BulkIn(ep, bufsz, TIMEOUT_MS), BulkIn(ep, TRAILER_LENGTH, TIMEOUT_MS)])
  {
  }

  /** The count reported is that of the payload read alone: the trailer's
      bytes never change the result, only its status can. */
  lemma ReceiveIgnoresTrailerBytes(ep: int, bufsz: nat, q: Replies, d1: seq<byte>, d2: seq<byte>, st: int)
    requires q.nIn + 1 < |q.bulkIn|
    ensures var q1 := q.(bulkIn := q.bulkIn[q.nIn + 1 := InReply(st, d1)]);
            var q2 := q.(bulkIn := q.bulkIn[q.nIn + 1 := InReply(st, d2)]);
      ReceivedCount(Receive(ep, bufsz, q1)) == ReceivedCount(Receive(ep, bufsz, q2))
      && ReceivedStatus(Receive(ep, bufsz, q1)) == ReceivedStatus(Receive(ep, bufsz, q2))
  {
  }

  /** The two receive variants agree: the C++ one fails exactly when the C one
      reports a negative value, and that value is the status of the first
      read that failed; on success both report the payload count. */
  lemma ReceiveVariantsAgree(ep: int, bufsz: nat, q: Replies)
    ensures var r := Receive(ep, bufsz, q);
      && (ReceivedCount(r).Failure? <==> ReceivedStatus(r) < 0)
      && (ReceivedCount(r).Success? ==> ReceivedCount(r).value == ReceivedStatus(r) == r.got)
      && (r.status < 0 ==> ReceivedStatus(r) == r.status)
      && (r.status >= 0 && ReceivedStatus(r) < 0 ==> r.trailer == Some(ReceivedStatus(r)))
  {
  }

  /** A five-byte answer followed by its two-byte line end yields five. */
  lemma ReceiveAnswer(ep: int, bufsz: nat, q: Replies, answer: seq<byte>)
    requires |answer| == 5 && bufsz >= 5
    requires q.nIn == 0 && q.bulkIn == [InReply(0, answer), InReply(0, [0x0A, 0x0D])]
    ensures ReceivedCount(Receive(ep, bufsz, q)) == Success(5)
    ensures ReceivedStatus(Receive(ep, bufsz, q)) == 5
    ensures Receive(ep, bufsz, q).payload == answer
  {
  }
}
