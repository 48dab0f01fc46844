/**
 * utility/queue.go SendMessageToQueue, as the one effect the use cases
 * have: publishing a text. Dialling, logging in, the STOMP frame and the
 * disconnect are network I/O and are not modelled; whether the broker
 * accepts the next message is a field set by whoever builds it.
 */
module Queue {
  import opened Wrappers

  class Broker {
    /** Every message the broker has accepted, oldest first. */
    var delivered: seq<string>
    /** The error the next send reports (a failed dial or send), or None when it succeeds. */
    const fault: Option<string>

    constructor(fault: Option<string>)
      ensures delivered == [] && this.fault == fault
    {
      delivered := [];
      this.fault := fault;
    }

    /** queue.go SendMessageToQueue: either the message is delivered once, or the error comes back and nothing is delivered. */
    method Send(message: string) returns (err: Option<string>)
      modifies this`delivered
      ensures err == fault
      ensures fault.None? ==> delivered == old(delivered) + [message]
      ensures fault.Some? ==> delivered == old(delivered)
    {
      err := fault;
      if fault.None? {
        delivered := delivered + [message];
      }
    }
  }
}
