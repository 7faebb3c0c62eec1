/** The transmitting program: `BroadcastTransmitter` records the broadcast address
    and port the user typed, validates them without acting on the result, and
    sends each message as one datagram to the endpoint last recorded.

    Widgets are reduced to the state they carry for the core: the error label's
    text and one flag for "messaging enabled" (the buttons and fields that `start`
    enables and `stop` disables). The socket is reduced to a log of the datagrams
    sent through it; it is created once by `__init__` and never closed. */
module Transmitter {
  import opened Wrappers
  import opened Udp
  import AddressCheck

  class BroadcastTransmitter {
    var broadcastIp: string
    var port: int
    var error: string
    var messaging: bool
    var sent: seq<Datagram>

    /** `__init__`: the address is empty and the port 0 until `start` runs. */
    constructor ()
      ensures broadcastIp == "" && port == 0 && error == "" && !messaging && sent == []
    {
      broadcastIp, port, error, messaging, sent := "", 0, "", false, [];
    }

    /** `_check_data`: returns normally exactly when the stored address is a dotted
        quad of bytes; it reads `broadcast_ip` only. */
    method CheckData() returns (ok: bool)
      ensures ok <==> AddressCheck.ValidIPv4(broadcastIp)
    {
      ok := AddressCheck.ValidIPv4(broadcastIp);
    }

    /** `start`: store the address before any parsing, then the port if its text is
        an integer (otherwise the old port stays), then validate. A failure only
        sets the error label, which the next statement clears, and messaging is
        enabled whatever the outcome. No datagram is sent. */
    method Start(ipText: string, portText: string)
      modifies this
      ensures broadcastIp == ipText
      ensures port == (if AddressCheck.ParseInt(portText).Some?
                       then AddressCheck.ParseInt(portText).value else old(port))
      ensures error == "" && messaging
      ensures sent == old(sent)
    {
      var failed := false;
      broadcastIp := ipText;
      var parsed := AddressCheck.ParseInt(portText);
      if parsed.None? {
        failed := true;
      } else {
        port := parsed.value;
        var ok := CheckData();
        failed := !ok;
      }
      if failed {
        error := "Invalid IP or port";
      }
      error := "";
      messaging := true;
    }

    /** `stop`: disables messaging; the stored endpoint and the socket are kept. */
    method Stop()
      modifies this
      ensures !messaging
      ensures broadcastIp == old(broadcastIp) && port == old(port)
      ensures error == old(error) && sent == old(sent)
    {
      messaging := false;
    }

    /** `send`: exactly one datagram carrying the message text, to the endpoint
        as last stored by `start`. Nothing checks that messaging is enabled. */
    method Send(msg: string)
      modifies this
      ensures sent == old(sent) + [Datagram(msg, Endpoint(broadcastIp, port))]
      ensures broadcastIp == old(broadcastIp) && port == old(port)
      ensures error == old(error) && messaging == old(messaging)
    {
      sent := sent + [Datagram(msg, Endpoint(broadcastIp, port))];
    }
  }

  /** What the user sees of a start with an address the check rejects and a port
      text `int()` rejects: no error is shown, messaging is enabled, and the next
      send is addressed to the new address and the port of the previous start. */
  method StartDoesNotGate(t: BroadcastTransmitter, previousPort: int)
    requires t.port == previousPort
    modifies t
    ensures !AddressCheck.ValidIPv4(t.broadcastIp)
    ensures t.messaging && t.error == ""
    ensures t.sent == old(t.sent) + [Datagram("hi", Endpoint("localhost", previousPort))]
  {
    t.Start("localhost", "port");
    assert AddressCheck.ParseInt("port") == None by {
      assert !AddressCheck.IsDigit("port"[0]) && !AddressCheck.IsSign("port"[0]);
    }
    t.Send("hi");
    assert AddressCheck.Split(t.broadcastIp, '.') == [t.broadcastIp] by {
      assert '.' !in t.broadcastIp;
      AddressCheck.SplitWithoutSeparator(t.broadcastIp, '.');
    }
  }
}
