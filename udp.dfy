/** Addresses and datagrams as the two programs hand them to the socket layer. */
module Udp {

  /** An (address, port) pair as passed to `bind` and `sendto`. The address is the
      raw text typed by the user and the port the value of `int()` on the port text:
      neither is range-checked anywhere in the program. */
  datatype Endpoint = Endpoint(address: string, port: int)

  /** One UDP datagram: an already-decoded text payload and its destination. */
  datatype Datagram = Datagram(payload: string, dest: Endpoint)
}
