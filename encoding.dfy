/** Byte-level encodings: the sentinel-terminated argument lists of the
    control-message helpers, C string length, and the C int-to-uint8_t
    conversion. */
module Encoding {

  /** An octet, as uint8_t holds it. */
  newtype byte = x: int | 0 <= x < 256

  /** A varargs list as the helpers expect it: some argument is negative
      (the -1 sentinel). */
  predicate Terminated(args: seq<int>) {
    exists i | 0 <= i < |args| :: args[i] < 0
  }

  /** The number of arguments before the first negative one, counting from
      position i. */
  function CountFrom(args: seq<int>, i: nat): (n: nat)
    requires i <= |args|
    ensures i <= n <= |args|
    ensures forall j | i <= j < n :: args[j] >= 0
    ensures n < |args| ==> args[n] < 0
    decreases |args| - i
  {
    if i == |args| || args[i] < 0 then i else CountFrom(args, i + 1)
  }

  /** The number of arguments before the first negative one. */
  function Count(args: seq<int>): (n: nat)
    ensures n <= |args|
    ensures forall j | 0 <= j < n :: args[j] >= 0
    ensures n < |args| ==> args[n] < 0
  {
    CountFrom(args, 0)
  }

  /** The count is pinned down by where the first negative argument sits. */
  lemma CountAt(args: seq<int>, n: nat)
    requires n <= |args| && (forall i | 0 <= i < n :: args[i] >= 0) && (n == |args| || args[n] < 0)
    ensures Count(args) == n
  {
  }

  /** With a sentinel present, the count stops before the end. */
  lemma CountTerminated(args: seq<int>)
    requires Terminated(args)
    ensures Count(args) < |args| && args[Count(args)] < 0
  {
  }

  /** The arguments before the first negative one. */
  function Prefix(args: seq<int>): (p: seq<int>)
    ensures |p| <= |args| && p == args[..|p|]
    ensures forall i | 0 <= i < |p| :: p[i] >= 0
    ensures |p| < |args| ==> args[|p|] < 0
  {
    args[..Count(args)]
  }

  /** Conversion of an int to uint8_t: the value modulo 256. */
  function ToByte(x: int): byte {
    (x % 256) as byte
  }

  function ToBytes(s: seq<int>): (b: seq<byte>)
    ensures |b| == |s|
  {
    seq(|s|, i requires 0 <= i < |s| => ToByte(s[i]))
  }

  /** The buffer a control message is built into: the prefix before the first
      negative argument, each value truncated to 8 bits. */
  function Encode(args: seq<int>): seq<byte> {
    ToBytes(Prefix(args))
  }

  /** Encode keeps exactly the arguments before the first negative one, in
      order, each reduced modulo 256. */
  lemma EncodeSpec(args: seq<int>, n: nat)
    requires n <= |args| && (forall i | 0 <= i < n :: args[i] >= 0) && (n == |args| || args[n] < 0)
    ensures |Encode(args)| == n
    ensures forall i | 0 <= i < n :: Encode(args)[i] == ToByte(args[i])
  {
    CountAt(args, n);
  }

  /** An argument list whose head is non-negative encodes to that head followed
      by the encoding of the rest. */
  lemma EncodeCons(m0: int, rest: seq<int>)
    requires m0 >= 0
    ensures Encode([m0] + rest) == [ToByte(m0)] + Encode(rest)
  {
    var args := [m0] + rest;
    var n := Count(rest);
    assert forall i | 1 <= i < n + 1 :: args[i] == rest[i - 1];
    CountAt(args, n + 1);
    assert Prefix(args) == [m0] + Prefix(rest);
  }

  /** The buffer the C++ vctl_msg assembles, the head byte followed by the
      counted rest, is the encoding of the whole list. */
  lemma EncodeAssembled(m0: int, rest: seq<int>, b: seq<byte>)
    requires m0 >= 0 && |b| == 1 + Count(rest)
    requires b[0] == ToByte(m0) && b[1..] == ToBytes(rest[..|b| - 1])
    ensures b == Encode([m0] + rest)
  {
    EncodeCons(m0, rest);
    assert b == [b[0]] + b[1..];
  }

  /** The counting loop of vctl_msg: the number of arguments before the first
      negative one. */
  method CountArgs(args: seq<int>) returns (n: nat)
    requires Terminated(args)
    ensures n == Count(args)
    ensures n < |args| && args[n] < 0 && forall i | 0 <= i < n :: args[i] >= 0
  {
    CountTerminated(args);
    n := 0;
    while args[n] >= 0
      invariant n <= Count(args)
      invariant forall i | 0 <= i < n :: args[i] >= 0
      decreases Count(args) - n
    {
      n := n + 1;
    }
  }

  /** The filling loop of vctl_msg: buf[from + i] receives args[i] truncated to
      8 bits, for every slot from `from` to the end of the buffer. */
  method FillBuffer(buf: array<byte>, from: nat, args: seq<int>)
    requires from <= buf.Length && buf.Length - from <= |args|
    modifies buf
    ensures buf[..from] == old(buf[..from])
    ensures buf[from..] == ToBytes(args[..buf.Length - from])
  {
    for i := from to buf.Length
      invariant buf[..from] == old(buf[..from])
      invariant forall k | from <= k < i :: buf[k] == ToByte(args[k - from])
    {
      buf[i] := ToByte(args[i - from]);
    }
  }

  /** A NUL-terminated C string held in a byte buffer. */
  predicate IsCString(s: seq<byte>) {
    exists i | 0 <= i < |s| :: s[i] == 0
  }

  /** strlen: the index of the first NUL byte. */
  function Strlen(s: seq<byte>): (n: nat)
    requires IsCString(s)
    ensures n < |s| && s[n] == 0
    ensures forall i | 0 <= i < n :: s[i] != 0
    decreases |s|
  {
    if s[0] == 0 then 0
    else
      assert IsCString(s[1..]) by {
        var i :| 0 <= i < |s| && s[i] == 0;
        assert s[1..][i - 1] == 0;
      }
      1 + Strlen(s[1..])
  }

  /** The command string the test programs send, "*IDN?\n\r" with its NUL. */
  const IDN: seq<byte> := [0x2A, 0x49, 0x44, 0x4E, 0x3F, 0x0A, 0x0D, 0x00]

  lemma IdnLength()
    ensures IsCString(IDN) && Strlen(IDN) == 7
  {
    assert IDN[7] == 0;
    assert forall i | 0 <= i < 7 :: IDN[i] != 0;
  }
}
