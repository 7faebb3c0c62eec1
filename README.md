# UDP broadcast sender and receiver, modelled in Dafny

Two small PyQt programs exchange text over UDP broadcast. The transmitter
(`broadcast_transmitter.py`) records a broadcast address and port and sends each
message as one datagram. The receiver (`broadcast_receiver.py`) binds a socket
and runs `UDPReceiver.process` on a worker thread. That loop reads datagrams and
emits each one as a `new_data` signal until `stop` lowers the `_running` flag.
`stop` then sends an empty datagram to the receiver's own endpoint, so that a
`recvfrom` blocked in the loop returns. Both windows check the typed address
with the same `_check_data` routine.

The project models:

- `AddressCheck` (`address_check.dfy`): `_check_data` as the predicate
  `ValidIPv4`. It is built on Python's `str.split(".")` (`Split`, with its
  inverse `Join`) and on `int()` of one segment (`ParseInt`). The lemmas show
  which texts are accepted: exactly four dot-free segments, each an integer text
  with value in [0, 255]. They also show what is rejected, and check the
  examples `"192.168.1.1"`, `"256.1.1.1"`, `"1.2.3"` and `"a.b.c.d"`.
- `Receiver` (`receiver.dfy`): the receiver as a pure state machine. `State`
  holds the flag, where the loop is, the queue at the bound socket, the sent
  datagrams and the emitted signals. `StartState`, `StopState`, `ArrivalState`
  and `StepState` are the transitions, and `Run` folds a trace of calls over
  them. An invariant `Inv` holds on every reachable state, and the lemmas give
  the receiver's promises. The class `UDPReceiver` keeps the same state in
  fields, and each of its methods is proved to perform the matching transition.
  `UDPReceiverWindow` records the endpoint and starts a fresh receiver.
- `Transmitter` (`transmitter.dfy`): `BroadcastTransmitter` with the fields
  `start` records, the validation it ignores, and the datagram `send` produces.
- `Udp` and `Wrappers`: endpoint, datagram, option and outcome types.

The model keeps the programs' quirks as written:

- A failed validation blocks nothing. The error label is set and cleared at
  once, and the receiver is started (or messaging enabled) anyway.
- `start` stores the address before parsing the port. A port text that is not
  an integer leaves the previous port in place.
- Ports are never range-checked.
- `int()` accepts a sign, so the segment `"-0"` passes and `"-1"` fails only
  the `< 0` test.
- The first datagram read after the flag goes down is dropped, whether or not
  it is the sentinel.
- The socket is never closed, so datagrams keep queueing after the loop exits.
- A `stop` that runs before `start` fails for want of a socket. The `start`
  that follows raises the flag again.

## Model

| member | source | states |
|---|---|---|
| `AddressCheck.Split` | broadcast_receiver.py:147 | `ip.split(".")`: one more piece than separators, no piece holds the separator, and joining the pieces with it gives the text back |
| `AddressCheck.SplitWithoutSeparator` | broadcast_receiver.py:147 | text without a dot splits into itself alone |
| `AddressCheck.SplitAfterFirstSeparator` | broadcast_receiver.py:147 | a dot-free head followed by a dot becomes the first piece |
| `AddressCheck.SplitOfJoin` | broadcast_receiver.py:147 | splitting undoes joining for dot-free pieces (the inverse of the `Split` contract) |
| `AddressCheck.SplitFour` | broadcast_receiver.py:147-148 | four dot-free texts joined by three dots split back into exactly those four segments |
| `AddressCheck.ParseDigits` | broadcast_receiver.py:151 | a run of digits has a value exactly when it is non-empty and all ASCII digits |
| `AddressCheck.ParseInt` | broadcast_receiver.py:151 | `int(p)` succeeds exactly on an optional sign followed by one or more digits |
| `AddressCheck.IsOctetText` | broadcast_receiver.py:150-152 | one pass of the loop body: `int()` of the segment succeeds and the value is neither below 0 nor above 255; such a segment is an integer text, and one with a minus sign reads as 0 |
| `AddressCheck.ValidIPv4` | broadcast_receiver.py:146-152 | holds exactly when `_check_data` returns without raising (the copy at broadcast_transmitter.py:97-103 is identical): four pieces, each read by `int()` as a value in [0, 255]; the text then has exactly three dots and every piece is an integer text |
| `AddressCheck.ParseDecimal` | broadcast_receiver.py:151 | `int()` reads back the decimal text of every natural number |
| `AddressCheck.ParseSigned` | broadcast_receiver.py:151 | a `+` or `-` in front of a run of digits gives the value or its negation |
| `AddressCheck.ParseSignedDecimal` | broadcast_receiver.py:151 | `int()` reads `+` and `-` in front of decimal text as the value and its negation |
| `AddressCheck.FourSegmentsIff` | broadcast_transmitter.py:94-103 | four dot-free texts joined with dots pass exactly when every one is an integer text in [0, 255] |
| `AddressCheck.DottedQuadAccepted` | broadcast_transmitter.py:94-103 | every byte quadruple written `a.b.c.d` passes, and its segments read back as the four bytes |
| `AddressCheck.WrongSegmentCountRejected` | broadcast_receiver.py:147-149 | any number of dots other than three is rejected |
| `AddressCheck.OutOfRangeSegmentRejected` | broadcast_receiver.py:150-152 | a segment read as below 0 or above 255 is rejected |
| `AddressCheck.JoinOfIntegerTexts` | broadcast_receiver.py:150-151 | integer segments joined with a separator hold only digits, signs and separators, with no empty segment |
| `AddressCheck.AcceptedCharacters` | broadcast_receiver.py:150-151 | accepted text has only digits, signs and dots, and no leading, trailing or doubled dot |
| `AddressCheck.DecimalSegment` | broadcast_receiver.py:151-152 | a decimal segment, bare or with `+`, passes exactly when its value is at most 255 |
| `AddressCheck.NegativeSegment` | broadcast_receiver.py:151-152 | a `-` segment passes only for zero: `"-0"` passes, `"-1"` fails |
| `AddressCheck.ZeroPrefix` | broadcast_receiver.py:151 | `int()` reads a run of digits with one more leading zero as the same value |
| `AddressCheck.ZeroPadded` | broadcast_receiver.py:151 | any number of leading zeros leaves the value of a run of digits unchanged, and `int()` reads the padded text as that unsigned value |
| `AddressCheck.ZeroPaddedSegment` | broadcast_receiver.py:151-152 | a zero-padded decimal segment reads as its value and passes exactly when that value is at most 255 |
| `AddressCheck.AcceptedExample` | broadcast_receiver.py:146-152 | `"192.168.1.1"` passes |
| `AddressCheck.NegativeZeroExample` | broadcast_receiver.py:146-152 | `"-0.0.0.0"` passes |
| `AddressCheck.NegativeOneExample` | broadcast_receiver.py:146-152 | `"-1.0.0.0"` is rejected |
| `AddressCheck.AboveRangeExample` | broadcast_receiver.py:146-152 | `"256.1.1.1"` is rejected |
| `AddressCheck.PaddedExample` | broadcast_receiver.py:146-152 | `"010.001.000.255"` passes |
| `AddressCheck.PaddedAboveRangeExample` | broadcast_receiver.py:146-152 | `"0256.1.1.1"` is rejected |
| `AddressCheck.SegmentCountExamples` | broadcast_receiver.py:147-149 | `"1.2.3"`, `"1.2.3.4.5"` and `""` are rejected |
| `AddressCheck.NonNumericExamples` | broadcast_receiver.py:150-151 | `"a.b.c.d"` and `"1..2.3"` are rejected |
| `Receiver.InitInv` | broadcast_receiver.py:15-21 | a new receiver has the flag down, has emitted nothing and satisfies the invariant |
| `Receiver.StepKeepsInv` | broadcast_receiver.py:46-50 | one loop iteration keeps the invariant that emissions match reads |
| `Receiver.ApplyKeepsInv` | broadcast_receiver.py:23-50 | every call and every arrival keeps the invariant |
| `Receiver.RunKeepsInv` | broadcast_receiver.py:23-52 | every trace of calls and arrivals keeps the invariant |
| `Receiver.AsNewDataTexts` | broadcast_receiver.py:50 | `new_data` carries each payload unchanged, empty ones included, and is never `stopped` |
| `Receiver.ForwardedInArrivalOrder` | broadcast_receiver.py:46-50 | forwarded payloads are a prefix of the arrivals, and are all reads but the one that found the flag down |
| `Receiver.StoppedOnceAndLast` | broadcast_receiver.py:46-52 | `stopped` is emitted at most once, exactly when the loop has exited, and after every `new_data` |
| `Receiver.NothingAfterExit` | broadcast_receiver.py:46-52 | after the loop exits, no trace reads or emits anything more |
| `Receiver.DrainWhileRunning` | broadcast_receiver.py:46-50 | while the flag is up the loop forwards everything queued, in order, and then waits |
| `Receiver.FirstAfterFlagDropped` | broadcast_receiver.py:47-52 | the first datagram read with the flag down is consumed but not forwarded, and `stopped` follows |
| `Receiver.StopUnblocksLoop` | broadcast_receiver.py:31-36 | after `stop` on a started receiver the sentinel is sent and the loop exits after one more read |
| `Receiver.NoForwardingAfterStop` | broadcast_receiver.py:31-50 | once `stop` has run on a started receiver nothing is ever forwarded again |
| `Receiver.StopBeforeStartIsLost` | broadcast_receiver.py:19-36 | `stop` before `start` sends nothing, and `start` then raises the flag again |
| `Receiver.HelloScenario` | broadcast_receiver.py:23-52 | start, arrival of "hello", stop: the signals are `new_data("hello")` then `stopped` |
| `Receiver.UDPReceiver.constructor` | broadcast_receiver.py:15-21 | the new receiver is the initial state: flag down, no socket |
| `Receiver.UDPReceiver.Start` | broadcast_receiver.py:23-29 | raises the flag and enters the loop |
| `Receiver.UDPReceiver.Stop` | broadcast_receiver.py:31-36 | lowers the flag, then sends the empty datagram to its own endpoint, and fails only if there is no socket |
| `Receiver.UDPReceiver.Running` | broadcast_receiver.py:38-43 | returns the flag and changes nothing |
| `Receiver.UDPReceiver.Deliver` | broadcast_receiver.py:47 | a datagram reaches the bound socket and joins the queue `recvfrom` reads |
| `Receiver.UDPReceiver.Step` | broadcast_receiver.py:46-52 | one loop iteration: forward the oldest datagram while the flag is up, otherwise drop it, leave the loop and emit `stopped` |
| `Receiver.UDPReceiver.Process` | broadcast_receiver.py:45-52 | runs the loop until it exits or would block |
| `Receiver.UDPReceiverWindow.constructor` | broadcast_receiver.py:100-109 | no receiver yet, empty address and port 0 |
| `Receiver.UDPReceiverWindow.CheckData` | broadcast_receiver.py:146-152 | returns normally exactly when the stored address passes `ValidIPv4` |
| `Receiver.UDPReceiverWindow.Start` | broadcast_receiver.py:111-137 | stores the address, then the port if it parses, clears the error label, and starts a fresh receiver even when validation failed |
| `Receiver.UDPReceiverWindow.Stop` | broadcast_receiver.py:139-140 | stops the current receiver |
| `Transmitter.BroadcastTransmitter.constructor` | broadcast_transmitter.py:55-63 | empty address, port 0, nothing sent |
| `Transmitter.BroadcastTransmitter.CheckData` | broadcast_transmitter.py:97-103 | returns normally exactly when `broadcast_ip` passes `ValidIPv4`; changes no field |
| `Transmitter.BroadcastTransmitter.Start` | broadcast_transmitter.py:65-80 | stores the address before parsing, keeps the old port if the port text does not parse, and enables messaging whatever the validation says |
| `Transmitter.BroadcastTransmitter.Stop` | broadcast_transmitter.py:82-88 | disables messaging and keeps the stored endpoint |
| `Transmitter.BroadcastTransmitter.Send` | broadcast_transmitter.py:90-92 | appends exactly one datagram with the message text, to the endpoint last stored by `start` |
| `Transmitter.StartDoesNotGate` | broadcast_transmitter.py:65-92 | after a start with an address the check rejects (`"localhost"`) and a port text `int()` rejects, no error is shown, messaging is on, and the next send is addressed to the new address and the old port |

## Left out

- `ParseInt`: Python's `int()` also accepts surrounding whitespace, single
  underscores between digits and non-ASCII decimal digits. The model rejects
  these forms, so `ValidIPv4` is stricter than `_check_data` on such text. The
  same holds for the port text, which both `Start` methods parse with
  `ParseInt`: a port typed as `" 9000"` leaves the old port in the model, where
  Python stores 9000. In the other direction, Python 3.11 and later refuse to
  convert more than 4300 digits, so `ValidIPv4` accepts a zero-padded segment
  of 4301 digits that `_check_data` rejects.
- Threads: `QThread`, `moveToThread`, signal and slot delivery, and the
  `QMutex`. The receiver is one sequential trace of calls, so nothing here
  claims freedom from races. The loop's blocking `recvfrom` becomes a step that
  does nothing on an empty queue.
- `UDPReceiverWindow.start` reuses its `QThread` and connects its `started`
  signal once per start. A second start would therefore also restart old
  receivers. This is not modelled: each window start builds and starts one
  receiver directly.
- A second `start` on the same `UDPReceiver` is not modelled. It would set
  `_running` to true again, even after a `stop`, and then bind a second socket
  to the same endpoint. The trace model treats it as doing nothing, and the
  class method requires a receiver that has not started. `NoForwardingAfterStop`
  holds only because of this: a second `start` after `stop` would raise the
  flag again and forwarding would resume.
- Sockets: creation, `setsockopt`, `bind` and their failures, and I/O errors of
  `sendto` and `recvfrom`, such as an address that does not resolve or a port
  out of range. A datagram the receiver sends to its own endpoint is assumed to
  arrive at once. A failed `bind` is the usual result of starting a receiver
  with an address that `_check_data` rejects: the exception ends `start` before
  `process` starts, whereas the model leaves such a receiver in `Receiving`.
  Likewise the transmitter's `send` after a start with an address that
  `_check_data` rejects usually fails in `sendto`, because the address does not
  resolve; the model's `sent` logs what is handed to `sendto`, not what is
  delivered.
- The 1024-byte limit of `recvfrom`, and the UTF-8 `encode`/`decode` of
  payloads. Payloads are already-decoded text.
- GUI: widget layout, the enabling of individual buttons and fields (reduced to
  one `messaging` flag on the transmitter), `add_msg`, `on_receiver_stopped`,
  window titles, `QApplication` and the `__main__` blocks.
- The `constants` module is not part of this model. The window constructors
  pre-fill their text fields from it; the model takes the typed texts as
  parameters of `Start`.
- `print` calls.
