/** The parts of the USB descriptors the driver reads (USB 2.0, sections 9.6.3,
    9.6.5 and 9.6.6, in the shape libusb hands them over), the descriptor checks
    of the bring-up, and the scan that finds the two bulk endpoints. */
module Descriptors {

  /** Bits 1..0 of bmAttributes select the transfer type; 10b is bulk
      (USB 2.0, section 9.6.6, Table 9-13). */
  const TRANSFER_TYPE_MASK: bv8 := 0x03
  const TRANSFER_TYPE_BULK: bv8 := 0x02
  /** Bit 7 of bEndpointAddress is the direction; set means IN, device to host. */
  const ENDPOINT_DIR_MASK: bv8 := 0x80
  /** The interface the driver validates and claims. */
  const DATA_INTF_NUMBER := 0

  datatype Endpoint = Endpoint(bEndpointAddress: bv8, bmAttributes: bv8)

  /** One alternate setting of an interface (an interface descriptor). */
  datatype AltSetting = AltSetting(
    bInterfaceClass: bv8,
    bInterfaceSubClass: bv8,
    bNumEndpoints: bv8,
    endpoints: seq<Endpoint>)

  datatype Interface = Interface(altsettings: seq<AltSetting>)

  datatype ConfigDescriptor = ConfigDescriptor(bNumInterfaces: bv8, interfaces: seq<Interface>)

  /** What libusb guarantees of a parsed descriptor: the counts match the
      arrays and every interface has at least one alternate setting. */
  predicate WellFormedAlt(a: AltSetting) {
    |a.endpoints| == a.bNumEndpoints as int
  }

  predicate WellFormed(c: ConfigDescriptor) {
    && |c.interfaces| == c.bNumInterfaces as int
    && forall i | 0 <= i < |c.interfaces| :: WellFormedInterface(c.interfaces[i])
  }

  predicate WellFormedInterface(f: Interface) {
    && |f.altsettings| > 0
    && forall j | 0 <= j < |f.altsettings| :: WellFormedAlt(f.altsettings[j])
  }

  /** Alternate setting 0 of the data interface, which the driver inspects. */
  function DataAltSetting(c: ConfigDescriptor): (a: AltSetting)
    requires WellFormed(c) && c.bNumInterfaces as int > DATA_INTF_NUMBER
    ensures WellFormedAlt(a)
  {
    c.interfaces[DATA_INTF_NUMBER].altsettings[0]
  }

  /** The three descriptor checks of the bring-up: the data interface exists and
      its first alternate setting has class 0 and subclass 0. */
  predicate Acceptable(c: ConfigDescriptor)
    requires WellFormed(c)
  {
    && c.bNumInterfaces as int > DATA_INTF_NUMBER
    && DataAltSetting(c).bInterfaceClass == 0
    && DataAltSetting(c).bInterfaceSubClass == 0
  }

  predicate IsBulk(e: Endpoint) {
    e.bmAttributes & TRANSFER_TYPE_MASK == TRANSFER_TYPE_BULK
  }

  predicate IsIn(e: Endpoint) {
    e.bEndpointAddress & ENDPOINT_DIR_MASK != 0
  }

  predicate IsBulkIn(e: Endpoint) {
    IsBulk(e) && IsIn(e)
  }

  predicate IsBulkOut(e: Endpoint) {
    IsBulk(e) && !IsIn(e)
  }

  /** The read (IN) and write (OUT) endpoint addresses; -1 means none found. */
  datatype BulkPair = BulkPair(read: int, write: int)

  const NONE_FOUND := BulkPair(-1, -1)

  /** One step of the scan: a bulk IN entry overwrites the read endpoint, any
      other bulk entry the write endpoint, a non-bulk entry changes nothing. */
  function ScanStep(p: BulkPair, e: Endpoint): BulkPair {
    if !IsBulk(e) then p
    else if IsIn(e) then p.(read := e.bEndpointAddress as int)
    else p.(write := e.bEndpointAddress as int)
  }

  /** The scan over an endpoint list, front to back. */
  function Scan(eps: seq<Endpoint>): BulkPair
    decreases |eps|
  {
    if eps == [] then NONE_FOUND
    else ScanStep(Scan(eps[..|eps| - 1]), eps[|eps| - 1])
  }

  /** The loop of the bring-up that walks the alternate setting's endpoint
      array, proved to compute Scan. */
  method ScanEndpoints(alt: AltSetting) returns (rendp: int, wendp: int)
    requires WellFormedAlt(alt)
    ensures BulkPair(rendp, wendp) == Scan(alt.endpoints)
  {
    rendp, wendp := -1, -1;
    for i := 0 to alt.bNumEndpoints as int
      invariant BulkPair(rendp, wendp) == Scan(alt.endpoints[..i])
    {
      var e := alt.endpoints[i];
      assert alt.endpoints[..i + 1][..i] == alt.endpoints[..i];
      if TRANSFER_TYPE_BULK != TRANSFER_TYPE_MASK & e.bmAttributes {
        continue;
      }
      if ENDPOINT_DIR_MASK & e.bEndpointAddress != 0 {
        rendp := e.bEndpointAddress as int;
      } else {
        wendp := e.bEndpointAddress as int;
      }
    }
    assert alt.endpoints[..|alt.endpoints|] == alt.endpoints;
  }

  /** Scan result for the read endpoint: -1 exactly when there is no bulk IN
      entry, otherwise the address of the LAST bulk IN entry. */
  lemma {:induction false} ScanRead(eps: seq<Endpoint>)
    ensures Scan(eps).read == -1 <==> forall k | 0 <= k < |eps| :: !IsBulkIn(eps[k])
    ensures Scan(eps).read != -1 ==>
      exists k | 0 <= k < |eps| ::
        && IsBulkIn(eps[k])
        && Scan(eps).read == eps[k].bEndpointAddress as int
        && forall j | k < j < |eps| :: !IsBulkIn(eps[j])
    decreases |eps|
  {
    if eps != [] {
      var init, last := eps[..|eps| - 1], eps[|eps| - 1];
      ScanRead(init);
      assert forall k | 0 <= k < |init| :: init[k] == eps[k];
      if IsBulkIn(last) {
        assert Scan(eps).read == last.bEndpointAddress as int;
      } else {
        assert Scan(eps).read == Scan(init).read;
        if Scan(init).read != -1 {
          var k :| 0 <= k < |init| && IsBulkIn(init[k]) && Scan(init).read == init[k].bEndpointAddress as int
            && forall j | k < j < |init| :: !IsBulkIn(init[j]);
          assert IsBulkIn(eps[k]) && forall j | k < j < |eps| :: !IsBulkIn(eps[j]);
        }
      }
    }
  }

  /** Scan result for the write endpoint: -1 exactly when there is no bulk OUT
      entry, otherwise the address of the LAST bulk OUT entry. */
  lemma {:induction false} ScanWrite(eps: seq<Endpoint>)
    ensures Scan(eps).write == -1 <==> forall k | 0 <= k < |eps| :: !IsBulkOut(eps[k])
    ensures Scan(eps).write != -1 ==>
      exists k | 0 <= k < |eps| ::
        && IsBulkOut(eps[k])
        && Scan(eps).write == eps[k].bEndpointAddress as int
        && forall j | k < j < |eps| :: !IsBulkOut(eps[j])
    decreases |eps|
  {
    if eps != [] {
      var init, last := eps[..|eps| - 1], eps[|eps| - 1];
      ScanWrite(init);
      assert forall k | 0 <= k < |init| :: init[k] == eps[k];
      if IsBulkOut(last) {
        assert Scan(eps).write == last.bEndpointAddress as int;
      } else {
        assert Scan(eps).write == Scan(init).write;
        if Scan(init).write != -1 {
          var k :| 0 <= k < |init| && IsBulkOut(init[k]) && Scan(init).write == init[k].bEndpointAddress as int
            && forall j | k < j < |init| :: !IsBulkOut(init[j]);
          assert IsBulkOut(eps[k]) && forall j | k < j < |eps| :: !IsBulkOut(eps[j]);
        }
      }
    }
  }

  /** Both endpoints are found (both >= 0 after starting at -1) exactly when the
      list holds at least one bulk IN and at least one bulk OUT entry. */
  lemma ScanFindsBoth(eps: seq<Endpoint>)
    ensures (Scan(eps).read >= 0 && Scan(eps).write >= 0) <==>
      (exists k | 0 <= k < |eps| :: IsBulkIn(eps[k])) && (exists k | 0 <= k < |eps| :: IsBulkOut(eps[k]))
  {
    ScanRead(eps);
    ScanWrite(eps);
    ScanNeverBelowNone(eps);
  }

  /** Neither result of the scan drops below the initial -1. */
  lemma {:induction false} ScanNeverBelowNone(eps: seq<Endpoint>)
    ensures Scan(eps).read >= -1 && Scan(eps).write >= -1
    decreases |eps|
  {
    if eps != [] {
      ScanNeverBelowNone(eps[..|eps| - 1]);
    }
  }

  /** With exactly one bulk IN entry and exactly one bulk OUT entry, the scan
      returns their addresses wherever they sit among non-bulk entries. */
  lemma ScanUniquePair(eps: seq<Endpoint>, i: nat, j: nat)
    requires i < |eps| && j < |eps| && IsBulkIn(eps[i]) && IsBulkOut(eps[j])
    requires forall k | 0 <= k < |eps| && k != i :: !IsBulkIn(eps[k])
    requires forall k | 0 <= k < |eps| && k != j :: !IsBulkOut(eps[k])
    ensures Scan(eps) == BulkPair(eps[i].bEndpointAddress as int, eps[j].bEndpointAddress as int)
  {
    ScanRead(eps);
    ScanWrite(eps);
  }

  /** The entries the scan looks at: the bulk ones, in order. */
  function BulkOnly(eps: seq<Endpoint>): seq<Endpoint>
    decreases |eps|
  {
    if eps == [] then []
    else if IsBulk(eps[|eps| - 1]) then BulkOnly(eps[..|eps| - 1]) + [eps[|eps| - 1]]
    else BulkOnly(eps[..|eps| - 1])
  }

  /** Removing every non-bulk entry, wherever it is, does not change the scan. */
  lemma {:induction false} ScanIgnoresNonBulk(eps: seq<Endpoint>)
    ensures Scan(BulkOnly(eps)) == Scan(eps)
    decreases |eps|
  {
    if eps != [] {
      var init, last := eps[..|eps| - 1], eps[|eps| - 1];
      ScanIgnoresNonBulk(init);
      if IsBulk(last) {
        var b := BulkOnly(init) + [last];
        assert b[..|b| - 1] == BulkOnly(init);
      }
    }
  }
}
