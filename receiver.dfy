/** The receiving program: `UDPReceiver`, which binds a broadcast-enabled socket and
    forwards every datagram it reads as a `new_data` signal until it is stopped, and
    the part of `UDPReceiverWindow` that configures and starts it.

    The receiver runs on a worker thread in the program; here it is one sequential
    trace of calls. The socket is abstracted as a queue of datagrams waiting at the
    bound endpoint (`recvfrom` takes the oldest) and a log of datagrams sent through
    it; a datagram sent to the receiver's own endpoint is delivered to that queue at
    once. The signals are a log of events. Payloads are already-decoded text.

    The pure part (`State` and its transitions) is the specification; the class
    `UDPReceiver` holds the same state in fields and each of its methods is proved to
    perform the corresponding transition. */
module Receiver {
  import opened Wrappers
  import opened Udp
  import AddressCheck

  // ---------------------------------------------------------------------------
  // The receiver as a value
  // ---------------------------------------------------------------------------

  /** The two signals of `UDPReceiver`: `new_data(str)` and `stopped()`. */
  datatype Event = NewData(text: string) | Stopped

  /** Where the receiving thread is: before `start` (no socket exists yet), inside
      the `while True` loop of `process`, or past it. */
  datatype Loop = NotStarted | Receiving | Exited

  /** `stop` before `start` fails at the `sendto`: the `_socket` attribute is only
      declared by `__init__`, never assigned, so reading it raises `AttributeError`. */
  datatype StopError = NoSocket

  datatype State = State(
    endpoint: Endpoint,     // `_ip` and `_port`, fixed by `__init__`
    running: bool,          // `_running`
    loop: Loop,
    inbound: seq<string>,   // datagrams waiting at the bound socket, oldest first
    arrived: seq<string>,   // every datagram that ever reached the bound socket
    received: seq<string>,  // every payload `recvfrom` has returned, in order
    sent: seq<Datagram>,    // datagrams sent through the receiver's socket
    emitted: seq<Event>)    // signals emitted, in order

  /** The empty datagram `stop` sends to the receiver's own endpoint. */
  function Sentinel(e: Endpoint): Datagram
  {
    Datagram("", e)
  }

  /** `UDPReceiver(ip, port)`: the flag is down and no socket exists. */
  function Init(ip: string, port: int): State
  {
    State(Endpoint(ip, port), false, NotStarted, [], [], [], [], [])
  }

  /** `start`: raise the flag (without the mutex), create and bind the socket, and
      enter `process`. */
  function StartState(s: State): State
    requires s.loop == NotStarted
  {
    s.(running := true, loop := Receiving)
  }

  /** `stop`: lower the flag, then send an empty datagram to the receiver's own
      endpoint so that a `recvfrom` blocked in `process` returns. Before `start`
      there is no socket: the flag is lowered and the send fails. */
  function StopState(s: State): State
  {
    var lowered := s.(running := false);
    if s.loop == NotStarted then lowered
    else lowered.(sent := s.sent + [Sentinel(s.endpoint)],
                  inbound := s.inbound + [""],
                  arrived := s.arrived + [""])
  }

  /** Some other host sends `payload` to the bound endpoint. Before `start` nothing
      is bound, so the datagram is lost; after the loop has exited the socket is
      still open (it is never closed), so datagrams keep queueing unread. */
  function ArrivalState(s: State, payload: string): State
  {
    if s.loop == NotStarted then s
    else s.(inbound := s.inbound + [payload], arrived := s.arrived + [payload])
  }

  /** One iteration of the loop in `process`: take the oldest datagram; if the flag
      is down, leave the loop without forwarding it and emit `stopped`, otherwise
      emit it as `new_data`. Outside the loop, or with nothing to read (where
      `recvfrom` would block), nothing happens. */
  function StepState(s: State): State
  {
    if s.loop != Receiving || s.inbound == [] then s
    else
      var data := s.inbound[0];
      var taken := s.(inbound := s.inbound[1..], received := s.received + [data]);
      if !s.running then taken.(loop := Exited, emitted := s.emitted + [Stopped])
      else taken.(emitted := s.emitted + [NewData(data)])
  }

  /** The loop of `process` run until it exits or would block on an empty queue. */
  function Drain(s: State): State
    decreases |s.inbound|
  {
    if s.loop == Receiving && s.inbound != [] then Drain(StepState(s)) else s
  }

  /** A call made on the receiver, or a datagram arriving from elsewhere. */
  datatype Action = StartCall | StopCall | Arrival(payload: string) | LoopStep

  /** A second `start` on the same receiver is not modelled (the window builds a new
      receiver for every start); the trace model lets it do nothing. */
  function Apply(s: State, a: Action): State
  {
    match a
    case StartCall => if s.loop == NotStarted then StartState(s) else s
    case StopCall => StopState(s)
    case Arrival(p) => ArrivalState(s, p)
    case LoopStep => StepState(s)
  }

  function Run(s: State, trace: seq<Action>): State
    decreases |trace|
  {
    if trace == [] then s else Run(Apply(s, trace[0]), trace[1..])
  }

  // ---------------------------------------------------------------------------
  // The invariant of every reachable state
  // ---------------------------------------------------------------------------

  /** The `new_data` signals for a run of payloads. */
  function AsNewData(payloads: seq<string>): seq<Event>
  {
    if payloads == [] then [] else [NewData(payloads[0])] + AsNewData(payloads[1..])
  }

  /** The texts carried by the `new_data` signals among `events`, in order. */
  function DataTexts(events: seq<Event>): seq<string>
  {
    if events == [] then []
    else (if events[0].NewData? then [events[0].text] else []) + DataTexts(events[1..])
  }

  /** What has been emitted given what has been read: every payload read while the
      flag was up is forwarded in order; if the loop has exited, the last payload
      read is the one that found the flag down, and it is followed by `stopped`. */
  ghost predicate Inv(s: State)
  {
    s.arrived == s.received + s.inbound &&
    (s.loop == NotStarted ==> s.arrived == [] && s.sent == [] && s.emitted == []) &&
    (forall i | 0 <= i < |s.sent| :: s.sent[i] == Sentinel(s.endpoint)) &&
    (s.loop != Exited ==> s.emitted == AsNewData(s.received)) &&
    (s.loop == Exited ==>
      |s.received| > 0 && s.emitted == AsNewData(s.received[..|s.received| - 1]) + [Stopped])
  }

  lemma {:induction false} AsNewDataAppend(xs: seq<string>, x: string)
    ensures AsNewData(xs + [x]) == AsNewData(xs) + [NewData(x)]
  {
    if xs != [] {
      assert (xs + [x])[1..] == xs[1..] + [x];
      AsNewDataAppend(xs[1..], x);
    }
  }

  /** `new_data` signals carry their payloads unchanged and nothing else: no
      payload is filtered out, empty ones included, and no `stopped` is among them. */
  lemma {:induction false} AsNewDataTexts(xs: seq<string>)
    ensures |AsNewData(xs)| == |xs|
    ensures DataTexts(AsNewData(xs)) == xs
    ensures Stopped !in AsNewData(xs)
  {
    if xs != [] {
      AsNewDataTexts(xs[1..]);
      assert AsNewData(xs)[1..] == AsNewData(xs[1..]);
    }
  }

  lemma {:induction false} DataTextsAppend(a: seq<Event>, b: seq<Event>)
    ensures DataTexts(a + b) == DataTexts(a) + DataTexts(b)
  {
    if a == [] {
      assert a + b == b;
    } else {
      assert (a + b)[0] == a[0] && (a + b)[1..] == a[1..] + b;
      DataTextsAppend(a[1..], b);
    }
  }

  lemma InitInv(ip: string, port: int)
    ensures Inv(Init(ip, port))
    ensures !Init(ip, port).running && Init(ip, port).emitted == []
  {
  }

  lemma StepKeepsInv(s: State)
    requires Inv(s)
    ensures Inv(StepState(s))
  {
    if s.loop == Receiving && s.inbound != [] {
      var data := s.inbound[0];
      assert s.received + s.inbound == (s.received + [data]) + s.inbound[1..];
      AsNewDataAppend(s.received, data);
      assert (s.received + [data])[..|s.received|] == s.received;
    }
  }

  lemma ApplyKeepsInv(s: State, a: Action)
    requires Inv(s)
    ensures Inv(Apply(s, a))
  {
    match a
    case StartCall =>
    case StopCall =>
      if s.loop != NotStarted {
        assert s.arrived + [""] == s.received + (s.inbound + [""]);
      }
    case Arrival(p) =>
      if s.loop != NotStarted {
        assert s.arrived + [p] == s.received + (s.inbound + [p]);
      }
    case LoopStep => StepKeepsInv(s);
  }

  /** Every state reachable from a valid one by any trace of calls and arrivals is
      valid. */
  lemma {:induction false} RunKeepsInv(s: State, trace: seq<Action>)
    requires Inv(s)
    ensures Inv(Run(s, trace))
    decreases |trace|
  {
    if trace != [] {
      ApplyKeepsInv(s, trace[0]);
      RunKeepsInv(Apply(s, trace[0]), trace[1..]);
    }
  }

  // ---------------------------------------------------------------------------
  // What the receiver promises
  // ---------------------------------------------------------------------------

  /** The forwarded payloads are exactly the datagrams read, in arrival order, less
      the one read after the flag went down: the loop filters on the flag only,
      never on content, and never reorders. */
  lemma ForwardedInArrivalOrder(s: State)
    requires Inv(s)
    ensures var forwarded := DataTexts(s.emitted);
            forwarded <= s.arrived &&
            |forwarded| == |s.received| - (if s.loop == Exited then 1 else 0) &&
            forwarded <= s.received
  {
    if s.loop == Exited {
      var kept := s.received[..|s.received| - 1];
      DataTextsAppend(AsNewData(kept), [Stopped]);
      AsNewDataTexts(kept);
      assert DataTexts([Stopped]) == [];
      assert kept <= s.received;
    } else {
      AsNewDataTexts(s.received);
    }
  }

  /** `stopped` is emitted at most once, only when the loop has exited, and as the
      last signal: after every `new_data`. */
  lemma StoppedOnceAndLast(s: State)
    requires Inv(s)
    ensures forall i | 0 <= i < |s.emitted| :: s.emitted[i] == Stopped ==> i == |s.emitted| - 1
    ensures Stopped in s.emitted <==> s.loop == Exited
  {
    if s.loop == Exited {
      var kept := AsNewData(s.received[..|s.received| - 1]);
      AsNewDataTexts(s.received[..|s.received| - 1]);
      assert forall i | 0 <= i < |kept| :: s.emitted[i] == kept[i];
      assert s.emitted[|s.emitted| - 1] == Stopped;
    } else {
      AsNewDataTexts(s.received);
    }
  }

  /** Once the loop has exited nothing more is emitted or read, whatever happens
      next, even though datagrams keep arriving at the still-open socket. */
  lemma {:induction false} NothingAfterExit(s: State, trace: seq<Action>)
    requires s.loop == Exited
    ensures Run(s, trace).loop == Exited
    ensures Run(s, trace).emitted == s.emitted
    ensures Run(s, trace).received == s.received
    decreases |trace|
  {
    if trace != [] {
      NothingAfterExit(Apply(s, trace[0]), trace[1..]);
    }
  }

  /** While the flag is up, the loop forwards everything waiting, in order, empty
      payloads included, and then waits in `recvfrom`. */
  lemma {:induction false} DrainWhileRunning(s: State)
    requires s.loop == Receiving && s.running
    ensures Drain(s).loop == Receiving && Drain(s).inbound == []
    ensures Drain(s).emitted == s.emitted + AsNewData(s.inbound)
    ensures Drain(s).received == s.received + s.inbound
    decreases |s.inbound|
  {
    if s.inbound != [] {
      var next := StepState(s);
      DrainWhileRunning(next);
      var x := s.inbound[0];
      assert AsNewData(s.inbound) == [NewData(x)] + AsNewData(s.inbound[1..]);
      assert s.inbound == [x] + s.inbound[1..];
    }
  }

  /** The first datagram read after the flag goes down is dropped, whether it is the
      sentinel or not, and the loop exits with one `stopped`. */
  lemma FirstAfterFlagDropped(s: State)
    requires s.loop == Receiving && !s.running && s.inbound != []
    ensures Drain(s).loop == Exited
    ensures Drain(s).emitted == s.emitted + [Stopped]
    ensures Drain(s).received == s.received + [s.inbound[0]]
    ensures Drain(s).inbound == s.inbound[1..]
  {
  }

  /** `stop` on a started receiver unblocks it: whatever is waiting, the loop then
      reads exactly one more datagram, forwards nothing and emits `stopped`. If
      other datagrams were queued before the sentinel, the sentinel stays unread. */
  lemma StopUnblocksLoop(s: State)
    requires s.loop == Receiving
    ensures var t := Drain(StopState(s));
            t.loop == Exited && t.emitted == s.emitted + [Stopped] &&
            |t.received| == |s.received| + 1 && !t.running
    ensures StopState(s).sent == s.sent + [Sentinel(s.endpoint)]
  {
    FirstAfterFlagDropped(StopState(s));
  }

  /** Once `stop` has run on a started receiver, no datagram is ever forwarded
      again, whatever arrives and however often the loop steps: the flag stays
      down, so neither the sentinel nor anything queued before or after it can
      become a `new_data` signal. */
  lemma {:induction false} NoForwardingAfterStop(s: State, trace: seq<Action>)
    requires s.loop != NotStarted && !s.running
    ensures !Run(s, trace).running
    ensures DataTexts(Run(s, trace).emitted) == DataTexts(s.emitted)
    decreases |trace|
  {
    if trace != [] {
      var next := Apply(s, trace[0]);
      assert next.emitted == s.emitted || next.emitted == s.emitted + [Stopped];
      DataTextsAppend(s.emitted, [Stopped]);
      assert DataTexts([Stopped]) == [];
      NoForwardingAfterStop(next, trace[1..]);
    }
  }

  /** `stop` before the worker thread has run `start` is lost: the send fails for
      want of a socket, and `start` then raises the flag again without looking at
      it, so the loop runs on. */
  lemma StopBeforeStartIsLost(ip: string, port: int)
    ensures StopState(Init(ip, port)).sent == []
    ensures StartState(StopState(Init(ip, port))).running
    ensures StartState(StopState(Init(ip, port))).loop == Receiving
  {
  }

  /** A sequential scenario: start, one datagram "hello", stop. */
  lemma HelloScenario(ip: string, port: int)
    ensures var s := Run(Init(ip, port), [StartCall, Arrival("hello"), LoopStep, StopCall, LoopStep]);
            s.emitted == [NewData("hello"), Stopped] && s.loop == Exited && s.inbound == []
  {
  }

  // ---------------------------------------------------------------------------
  // UDPReceiver
  // ---------------------------------------------------------------------------

  class UDPReceiver {
    const ip: string
    const port: int
    var running: bool
    var loop: Loop
    var inbound: seq<string>
    var sent: seq<Datagram>
    var emitted: seq<Event>
    ghost var arrived: seq<string>
    ghost var received: seq<string>

    ghost function Abs(): State
      reads this
    {
      State(Endpoint(ip, port), running, loop, inbound, arrived, received, sent, emitted)
    }

    ghost predicate Valid()
      reads this
    {
      Inv(Abs())
    }

    constructor (ip: string, port: int)
      ensures Abs() == Init(ip, port) && Valid()
    {
      this.ip := ip;
      this.port := port;
      running := false;
      loop := NotStarted;
      inbound, sent, emitted := [], [], [];
      arrived, received := [], [];
    }

    method Start()
      requires Valid() && loop == NotStarted
      modifies this
      ensures Abs() == StartState(old(Abs())) && Valid()
    {
      running := true;
      loop := Receiving;
    }

    method Stop() returns (r: Outcome<StopError>)
      requires Valid()
      modifies this
      ensures Abs() == StopState(old(Abs())) && Valid()
      ensures r.Fail? <==> old(loop) == NotStarted
    {
      running := false;
      if loop == NotStarted {
        r := Fail(NoSocket);
      } else {
        sent := sent + [Sentinel(Endpoint(ip, port))];
        inbound := inbound + [""];
        arrived := arrived + [""];
        r := Pass;
      }
      ApplyKeepsInv(old(Abs()), StopCall);
    }

    /** `running()`: reads the flag and changes nothing. */
    method Running() returns (r: bool)
      ensures r == running
    {
      r := running;
    }

    /** A datagram from another host reaches the bound endpoint. */
    method Deliver(payload: string)
      requires Valid()
      modifies this
      ensures Abs() == ArrivalState(old(Abs()), payload) && Valid()
    {
      if loop != NotStarted {
        inbound := inbound + [payload];
        arrived := arrived + [payload];
      }
      ApplyKeepsInv(old(Abs()), Arrival(payload));
    }

    /** One pass through the body of the loop in `process`; `progressed` is false
        when the loop is not running or `recvfrom` would block. */
    method Step() returns (progressed: bool)
      requires Valid()
      modifies this
      ensures Abs() == StepState(old(Abs())) && Valid()
      ensures progressed <==> old(loop) == Receiving && old(inbound) != []
    {
      StepKeepsInv(Abs());
      if loop != Receiving || inbound == [] {
        return false;
      }
      var data := inbound[0];
      inbound := inbound[1..];
      received := received + [data];
      var up := Running();
      if !up {
        loop := Exited;
        emitted := emitted + [Stopped];
      } else {
        emitted := emitted + [NewData(data)];
      }
      progressed := true;
    }

    /** `process`: the `while True` loop, run until it exits or would block. */
    method Process()
      requires Valid()
      modifies this
      ensures Abs() == Drain(old(Abs())) && Valid()
    {
      while loop == Receiving && inbound != []
        invariant Valid()
        invariant Drain(Abs()) == Drain(old(Abs()))
        decreases |inbound|
      {
        var _ := Step();
      }
    }
  }

  // ---------------------------------------------------------------------------
  // UDPReceiverWindow
  // ---------------------------------------------------------------------------

  /** The window's configuration state: the endpoint typed by the user, the error
      label, and the receiver it starts. Widgets, the worker thread and the signal
      connections are not modelled: the receiver's `start` is run directly. */
  class UDPReceiverWindow {
    var ip: string
    var port: int
    var error: string
    var receiver: UDPReceiver?

    constructor ()
      ensures ip == "" && port == 0 && error == "" && receiver == null
    {
      ip, port, error, receiver := "", 0, "", null;
    }

    /** `_check_data`: returns normally exactly when the stored address is a
        dotted quad; reads `ip` and changes nothing. */
    method CheckData() returns (ok: bool)
      ensures ok <==> AddressCheck.ValidIPv4(ip)
    {
      ok := AddressCheck.ValidIPv4(ip);
    }

    /** `start`: store the address, then the port if its text is an integer, then
        validate; a failure only flashes the error label, which is cleared again
        at once, and the receiver is created and started either way. */
    method Start(ipText: string, portText: string)
      modifies this
      ensures ip == ipText
      ensures port == (if AddressCheck.ParseInt(portText).Some?
                       then AddressCheck.ParseInt(portText).value else old(port))
      ensures error == ""
      ensures receiver != null && fresh(receiver) && receiver.Valid()
      ensures receiver.Abs() == StartState(Init(ipText, port))
    {
      var failed := false;
      ip := ipText;
      var parsed := AddressCheck.ParseInt(portText);
      if parsed.None? {
        failed := true;
      } else {
        port := parsed.value;
        var ok := CheckData();
        failed := !ok;
      }
      if failed {
        error := "Invalid IP or port";
      }
      error := "";
      receiver := new UDPReceiver(ip, port);
      receiver.Start();
    }

    /** `stop`: stop the current receiver. */
    method Stop() returns (r: Outcome<StopError>)
      requires receiver != null && receiver.Valid()
      modifies receiver
      ensures receiver.Valid() && receiver.Abs() == StopState(old(receiver.Abs()))
      ensures r.Fail? <==> old(receiver.loop) == NotStarted
    {
      r := receiver.Stop();
    }
  }
}
