# LeCroy USB adapter driver, modelled and verified in Dafny

The LeCroy USB adapter is a USB-to-serial bridge. The driver comes in two
variants: the C++ class `LeCroy` (`LeCroy.cc`) and the C test program
`lecroy.c`. Both do the same thing:

- Bring the adapter up: initialise libusb, open the device by vendor and
  product id, enable kernel-driver auto-detach, fetch the active
  configuration descriptor, and check that interface 0 exists and that its
  alternate setting 0 has class 0 and subclass 0.
- Claim that interface and scan its endpoints for the bulk IN (read) and bulk
  OUT (write) endpoint.
- Send twelve fixed vendor control messages, each built from a list of
  arguments closed by a negative sentinel, then clear the halt on both
  endpoints.
- Send commands as the bytes of a C string on the write endpoint. Read
  answers as a payload read followed by a two-byte trailer read on the read
  endpoint.
- Tear the connection down, releasing only what was obtained.

## How the model is built

- `Platform.Host` stands in for libusb and the C heap. It is a class with:
  - a scripted device (statuses and a configuration descriptor);
  - queues of scripted replies (control statuses, allocation outcomes, bulk
    OUT and bulk IN answers, with an idle-device default once a queue is
    used up);
  - a ghost log of every request issued;
  - ghost counters of the resources the driver holds.
- `Descriptors` holds the descriptor fields that USB 2.0, sections 9.6.3,
  9.6.5 and 9.6.6, define and the driver reads. It also holds the three
  descriptor checks, and the endpoint scan: once as the function `Scan`, and
  once as the loop `ScanEndpoints`, which is proved equal to it.
- `Encoding` holds the sentinel-terminated argument lists: the count, the
  cut to 8 bits and the resulting buffer. It also holds the counting loop and
  the filling loop of `vctl_msg`, and `strlen`.
- `Bringup` describes the bring-up as pure functions of the scripted device:
  which requests it issues, which error ends it, and which resources it
  obtains. It also holds the teardown. The lemmas there state what the
  bring-up promises.
- `Framing` describes what `snd_str` and `rcv_str` issue and what they
  report, for both variants.
- `LeCroyCc` is the C++ class, with the fields of `LeCroy.h`. The
  exception-based constructor becomes the factory `Create`:
  - the member initialisers (`constructor`);
  - the try block (`TryBringUp`, with the descriptor guard `UsbCfg` freeing
    the descriptor);
  - the catch block (`Cleanup`).
- `LeCroyC` is the C program. Its helpers return raw statuses. `main`
  becomes:
  - `Run`: the option loop;
  - `Session`: the bring-up, the query and the exit block `bail`.

Each method is proved against the functions of `Bringup` and `Framing`. Its
postcondition states:

- the returned value;
- the requests appended to the log;
- the replies consumed;
- the resources held afterwards.

Points where the code's behaviour is easy to misread, and which the model
follows as written:

- A control message whose list starts with the sentinel is not a no-op: the
  C++ `vctl_msg` issues one zero-length request without a buffer
  (`EmptyMessageSends`), and the C one first allocates zero bytes.
- In both variants of `rcv_str` a failed payload read returns at once, with
  no trailer read.
- Neither variant ever sets the interface marker (`m_intf`, `intf`) after the
  claim. So neither ever releases the interface, and the model keeps this:
  `BringUpNeverReleases`, `ConstructionNeverReleases`, `ProgramNeverReleases`.

## Model

| member | source | states |
|---|---|---|
| Descriptors.ScanEndpoints | LeCroy.cc:192-202 | the endpoint loop computes exactly the scan function over the alternate setting's endpoint array |
| Descriptors.ScanRead | LeCroy.cc:194-198 | the read endpoint stays -1 exactly when there is no bulk IN entry; otherwise it is the address of the last bulk IN entry |
| Descriptors.ScanWrite | LeCroy.cc:194-201 | the write endpoint stays -1 exactly when there is no bulk OUT entry; otherwise it is the address of the last bulk OUT entry |
| Descriptors.ScanFindsBoth | LeCroy.cc:204-206 | both endpoints are found exactly when the list has at least one bulk IN and one bulk OUT entry |
| Descriptors.ScanNeverBelowNone | LeCroy.cc:145-146 | neither endpoint drops below its initial -1 |
| Descriptors.ScanUniquePair | LeCroy.cc:192-202 | with one bulk IN and one bulk OUT entry, the scan returns their two addresses, wherever they sit |
| Descriptors.ScanIgnoresNonBulk | LeCroy.cc:194-196 | dropping all non-bulk entries leaves the scan unchanged |
| Descriptors.DataAltSetting | LeCroy.cc:180 | alternate setting 0 of interface 0 has as many endpoint entries as it declares |
| Encoding.Count | lecroy.c:70-73 | the count is the number of leading non-negative arguments: all before it are non-negative, and the one at it is negative |
| Encoding.Prefix | LeCroy.cc:73-90 | the buffer values are the arguments before the first negative one |
| Encoding.ToBytes | lecroy.c:79-81 | each byte is its value mod 256, and the length is kept |
| Encoding.EncodeSpec | lecroy.c:70-84 | for a list whose first negative argument is at n, the encoding has n bytes, each the argument mod 256 |
| Encoding.EncodeCons | LeCroy.cc:73-90 | for m0 >= 0, the encoding of m0 then the rest is m0's byte followed by the encoding of the rest |
| Encoding.CountArgs | lecroy.c:71-72 | the counting loop stops at the first negative argument and returns the count |
| Encoding.FillBuffer | lecroy.c:79-81 | the filling loop stores argument i mod 256 at offset i and leaves the bytes before the offset unchanged |
| Encoding.Strlen | LeCroy.cc:101 | strlen is the index of the first NUL |
| Encoding.IdnLength | lecroy.c:254 | "*IDN?\n\r" is a C string of length 7 |
| Bringup.EmptyMessageSends | LeCroy.cc:73-93 | a list that starts with the sentinel issues one zero-length request; against an idle device it fails with ControlTransferFailed |
| Bringup.TransfersErrors | LeCroy.cc:47-49 | the message sequence fails only with OutOfMemory or ControlTransferFailed |
| Bringup.TransfersOnlyControl | LeCroy.cc:208-219 | the message sequence issues only control requests |
| Bringup.TransfersTrace | LeCroy.cc:208-219 | either every payload goes out in order, or the sequence stops at some payload k: k goes out unless its buffer was not allocated, and nothing after k goes out |
| Bringup.ConfigMessagesTerminated | LeCroy.cc:208-219 | each of the twelve argument lists starts with a byte and carries its sentinel |
| Bringup.EncodeArgs0301 | LeCroy.cc:208 | (0x03, 0x01, -1) encodes to the bytes 03 01 |
| Bringup.EncodeArgs0103 | LeCroy.cc:209 | (0x01, 0x03, -1) encodes to the bytes 01 03 |
| Bringup.EncodeArgs000801 | LeCroy.cc:210 | (0x00, 0x08, 0x01, -1) encodes to the bytes 00 08 01 |
| Bringup.EncodeArgs040000 | LeCroy.cc:211 | (0x04, 0x00, 0x00, -1) encodes to the bytes 04 00 00 |
| Bringup.EncodeArgs021113 | LeCroy.cc:216 | (0x02, 0x11, 0x13, -1) encodes to the bytes 02 11 13 |
| Bringup.EncodeArgs000811 | LeCroy.cc:218 | (0x00, 0x08, 0x11, -1) encodes to the bytes 00 08 11 |
| Bringup.EncodeConfigMessages | LeCroy.cc:208-219 | the twelve argument lists encode to the twelve payloads of the table |
| Bringup.BringUpSuccess | LeCroy.cc:152-222 | the bring-up succeeds exactly when every stage does; it then issues init, open, detach, get descriptor, claim of interface 0, the encoded messages in order, and the clear-halts on the write then the read endpoint; the endpoints are the scan's results |
| Bringup.EarlyFailureTouchesNothing | LeCroy.cc:154-185 | a failure up to and including the descriptor checks issues no claim and no control request, and consumes no reply |
| Bringup.DescriptorRejected | LeCroy.cc:176-185 | once the earlier stages pass, the bring-up fails with UnexpectedDescriptor exactly when interface 0 is missing or has a class or subclass other than 0 |
| Bringup.EndpointsMissing | LeCroy.cc:204-206 | once the claim is done, the bring-up fails with EndpointsNotFound exactly when there is no bulk IN entry or no bulk OUT entry; no control request is issued then |
| Bringup.HeldResourcesNest | LeCroy.cc:154-190 | a descriptor is held only with a handle, a handle only with a context, and a claim only with a descriptor; success implies the claim |
| Bringup.BringUpSendsPayloads | LeCroy.cc:208-222 | with the driver's table, a successful bring-up puts the twelve payloads on the wire byte for byte, in order |
| Bringup.BringUpNeverReleases | LeCroy.cc:152-222 | the bring-up issues no release |
| Bringup.TeardownReleasesMarked | LeCroy.cc:230-242 | the teardown releases the interface only with a handle and a set marker, closes only a held handle, exits only a held context, and issues nothing else |
| Bringup.TeardownWithoutMarker | LeCroy.cc:233-236 | with the marker unset, the teardown issues no release |
| Bringup.ClaimedIff | LeCroy.cc:187-190 | the interface is left claimed exactly when every stage up to and including the claim passed |
| Bringup.MessageFailureStops | LeCroy.cc:208-222 | a failed message ends the bring-up with its error; only the messages before it go out (and it too, when its buffer was allocated), then nothing more, not even the clear-halts |
| Framing.Command | LeCroy.cc:101 | the bytes sent are the C string up to its terminator, and none of them is NUL |
| Framing.SendFrames | LeCroy.cc:98-106 | one bulk OUT request of strlen bytes goes to the given endpoint; the count reported never exceeds strlen |
| Framing.SendVariantsAgree | lecroy.c:90-99 | the C++ send fails exactly when the C send reports a negative status |
| Framing.SendIdentify | lecroy.c:254 | sending the identify query to an accepting device puts seven bytes on the wire |
| Framing.ReceiveFrames | LeCroy.cc:108-124 | a failed payload read issues no trailer read; otherwise exactly one 2-byte trailer read follows on the same endpoint; the payload is the device's data cut to the buffer size |
| Framing.ReceiveIgnoresTrailerBytes | LeCroy.cc:119-123 | the trailer's contents never change what either variant reports |
| Framing.ReceiveVariantsAgree | lecroy.c:101-119 | the C++ receive fails exactly when the C receive reports a negative value, which is the status of the first read that failed; on success both report the payload count |
| Framing.ReceiveAnswer | LeCroy.cc:108-124 | a 5-byte answer followed by its 2-byte line end yields 5 and the answer bytes |
| LeCroyCc.LeCroy.constructor | LeCroy.cc:141-147 | no handle, no context, no interface, no endpoints, timeout 1000 ms |
| LeCroyCc.LeCroy.CtlMsg | LeCroy.cc:34-51 | one vendor host-to-device request 0x0B with value 0 and index 0 carries the buffer; it succeeds exactly when the status is positive |
| LeCroyCc.LeCroy.VctlMsg | LeCroy.cc:64-95 | issues what Message describes for the list; nothing stays allocated; success means a positive status |
| LeCroyCc.LeCroy.SendConfiguration | LeCroy.cc:208-219 | sends the messages in order and stops at the first failure, as Configuration describes |
| LeCroyCc.LeCroy.ConfigureInterface | LeCroy.cc:176-222 | the descriptor checks, claim, scan, messages and clear-halts, as Attach describes; the endpoint fields get the scan's results; the interface marker stays -1 |
| LeCroyCc.LeCroy.Cleanup | LeCroy.cc:230-242 | issues the teardown for the fields and gives back exactly what it releases |
| LeCroyCc.LeCroy.TryBringUp | LeCroy.cc:152-222 | issues the bring-up, then the descriptor's free by its guard once fetched; the fields record the context and handle obtained; on success the object is ready |
| LeCroyCc.LeCroy.Construct | LeCroy.cc:152-227 | the try block and, on failure, the cleanup: the requests of Construction, and the resources of Retained |
| LeCroyCc.LeCroy.Create | LeCroy.cc:141-228 | the constructor fails exactly when the bring-up does, with its error; on success it hands out a fresh, ready object whose read and write endpoints are the scan's results |
| LeCroyCc.LeCroy.Destroy | LeCroy.cc:244-247 | the destructor is the cleanup |
| LeCroyCc.LeCroy.SndStr | LeCroy.cc:97-106 | a negative status is BulkTransferFailed; otherwise the count of bytes the device took |
| LeCroyCc.LeCroy.RcvStr | LeCroy.cc:108-124 | the payload lands at the front of the caller's buffer, and the rest of it is untouched; the result is the first read's count, or BulkTransferFailed when either read fails |
| LeCroyCc.ConstructionNeverReleases | LeCroy.cc:224-242 | the constructor issues no release on any path |
| LeCroyCc.ConstructionHolds | LeCroy.cc:224-242 | a failed constructor gives back the context, handle and descriptor but keeps the claim, exactly when the claim was made; a successful one holds one more context, handle and claim |
| LeCroyC.CMessageAgrees | lecroy.c:61-88 | for a list starting with a byte, the C vctl_msg reports zero or below exactly when the C++ one fails, with the same requests and replies; an allocation failure gives -1 with no request |
| LeCroyC.CtlMsg | lecroy.c:42-59 | the same vendor request as the C++ variant; returns the raw status |
| LeCroyC.VctlMsg | lecroy.c:61-88 | always allocates; on failure returns -1 and issues nothing; otherwise sends the encoded arguments and returns the raw status; the buffer is freed |
| LeCroyC.SendConfiguration | lecroy.c:238-249 | stops at the first status of zero or below, with the requests and replies of Configuration |
| LeCroyC.SndStr | lecroy.c:90-99 | one bulk OUT request of strlen bytes; returns the raw status |
| LeCroyC.RcvStr | lecroy.c:101-119 | a failed payload read returns its status; a failed trailer read returns the trailer's status; otherwise the payload count; the payload is at the front of the buffer |
| LeCroyC.ParseOptions | lecroy.c:153-171 | accepts exactly when every option is -h; help is the number of -h options minus one |
| LeCroyC.Bail | lecroy.c:262-275 | frees the descriptor, releases the interface when marked, closes the handle and exits the context, each only when held |
| LeCroyC.AttachStage | lecroy.c:201-252 | the descriptor checks, claim, endpoint scan, messages and clear-halts, as Attach describes |
| LeCroyC.BringUpStage | lecroy.c:178-252 | the bring-up as BringUp describes it; the descriptor stays held until the exit block |
| LeCroyC.Converse | lecroy.c:254-260 | sends the query, and once it is sent reads the answer; exit status 0 once the query is sent; the answer is the payload of a read that did not fail |
| LeCroyC.Finish | lecroy.c:254-275 | after a given bring-up, the exchange and then the exit block: the requests, status and answer of AfterBringUp, with only the claim still held |
| LeCroyC.Session | lecroy.c:178-275 | from libusb_init to return: the outcome of AfterBringUp on the bring-up; only the claim is still held |
| LeCroyC.Run | lecroy.c:121-276 | main: exit status, requests, replies and answer as Program describes; resources as before, plus the claim when one was made |
| LeCroyC.ProgramExitStatus | lecroy.c:126-275 | main exits with 0 or 1; 0 exactly for -h, or, with no option, a successful bring-up and a query that was sent |
| LeCroyC.QueryOnlyBulk | lecroy.c:254-256 | the query and answer issue only bulk transfers |
| LeCroyC.AfterBringUpNeverReleases | lecroy.c:262-275 | what follows a bring-up issues no release |
| LeCroyC.ProgramNeverReleases | lecroy.c:262-275 | main issues no release on any path |
| LeCroyC.ProgramLeaksOnlyClaim | lecroy.c:215-219 | main leaves the interface claimed exactly when it ran the bring-up and every stage up to and including the claim passed |
| LeCroyC.ExitUndoesAcquired | lecroy.c:262-275 | the exit block frees the descriptor exactly when it was fetched, closes exactly a held handle, exits exactly a held context, and releases nothing |
| LeCroyC.DriversAgreeOnFailure | lecroy.c:262-275 | when the bring-up fails, main issues exactly what the failing C++ constructor issues, and exits with 1 |
| LeCroyC.TerminatorOverrunsAsWritten | lecroy.c:256-257 | as written, against a silent device the read times out: rcv_str returns -7, and the terminator is written before the buffer |
| LeCroyC.TerminatorOverrunsOnFullBuffer | lecroy.c:256-257 | as written, a device that fills the buffer makes rcv_str return the buffer's size, and the terminator is written just past the buffer |
| LeCroyC.TerminatorFits | lecroy.c:256-257 | corrected: the terminator is written only after a read that did not fail, right after the payload, inside a buffer one byte larger than the read |

## Findings

| source | as written | input that shows it | evidently intended | confidence | as-written member | corrected member |
|---|---|---|---|---|---|---|
| lecroy.c:256-257 | `buf[got] = 0` with `got` the value `rcv_str` returned, in `unsigned char buf[BUFSZ_HS]` read with `sizeof(buf)` | a device that does not answer: the read times out and `got` is -7; or a device that delivers BUFSZ_HS bytes: `got` is BUFSZ_HS | terminate the answer only after a read that did not fail, in a buffer with room for the terminator | high (not executed) | LeCroyC.TerminatorOverrunsAsWritten | LeCroyC.TerminatorFits |

`LeCroyC.TerminatorOverrunsOnFullBuffer` shows the second input. `Converse`
and `Run` use the corrected form: the buffer has BUFSZ_HS + 1 bytes, the read
still asks for BUFSZ_HS, and the terminator is written only when the status
is not negative. The request log stays that of the source.

## Left out

- The twelve `vctl_msg` calls of the bring-up are written out one by one in
  both variants (`LeCroy.cc:208-219`, `lecroy.c:238-249`). The model sends
  the twelve argument lists from a table, in a loop
  (`LeCroyCc.LeCroy.SendConfiguration`, `LeCroyC.SendConfiguration`). The
  requests, their order and the stop at the first failure are the same. A
  straight-line proof over the twelve literal lists exceeds the verifier's
  resource limit.
- The libusb library and the C heap are not modelled; `Platform.Host`
  replaces them with scripted answers. It does not capture:
  - the descriptor memory;
  - the operating system releasing a claimed interface when the handle is
    closed;
  - libusb's internal state.
- The outcome of `malloc(0)` in the C `vctl_msg`, which is
  implementation-defined, is scripted like any other allocation.
- Timeouts are passed as the constant 1000 ms. They are not modelled as real
  time.
- The status of `libusb_clear_halt` is ignored by both variants, and it is not
  modelled.
- Printing is left out: the error messages, `usage`, and the "clear halt",
  "RX:" and "ANS:" lines of `lecroy.c`. The printed answer appears as the
  out-parameter `answer` of `LeCroyC.Run`.
- `LeCroyC.Run`: `answer` is the whole payload. `printf("%s")` would stop at
  the payload's first NUL byte.
- Exception message strings become the error kinds of `Platform.Error`. The
  rethrow of the constructor becomes the `Failure` result of
  `LeCroyCc.LeCroy.Create`.
- `LeCroyC.ParseOptions` takes the option characters `getopt` returns. It
  does not model `getopt` itself, or the `sscanf` branches, which no option
  reaches because no option takes an argument.
- `lecroy.c:40` opens a `class LeCroy {` that is never closed. The model
  treats the functions after it as free functions.
- The unused constants `BUFSZ_FS`, `TOTSZ_HS` and `TOTSZ_FS` are not
  modelled. Neither are the unused variable `spd` and the timing variables of `main`.
- Alternate setting 0: the code checks only `bNumInterfaces` and then reads
  `altsetting[0]` unchecked. The model assumes libusb always supplies
  alternate setting 0 (`WellFormedInterface`).
- `lctest.cc` and the copy and assignment declarations of `LeCroy.h` are not
  part of this model.
- Integer widths: the arguments of `vctl_msg` are unbounded integers,
  truncated to 8 bits as the buffer store does. The statuses and endpoint
  addresses are unbounded integers, because the driver never computes with
  them.
