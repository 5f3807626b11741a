/** The telnet session the monitor talks to, as far as the polling script sees it:
    every command written is logged with the pause the script takes before reading,
    each read takes the next canned reply (nothing once the replies run out, as
    `read_very_eager` returns no bytes when nothing has arrived), and closes are counted. */
module Transport {

  /** One received octet. */
  newtype byte = b: int | 0 <= b < 256

  /** A command written to the device and the delay, in seconds, slept before the read. */
  datatype Sent = Sent(command: string, delay: nat)

  /** The reply to the `k`-th read: empty once the canned replies are exhausted. */
  function Reply(replies: seq<seq<byte>>, k: nat): seq<byte> {
    if k < |replies| then replies[k] else []
  }

  class Link {
    /** What the device sends back, read after read. */
    const replies: seq<seq<byte>>
    /** How many reads have been made. */
    var read: nat
    /** Every command written, in order. */
    var sent: seq<Sent>
    /** How many times the session was closed. */
    var closes: nat

    constructor(replies: seq<seq<byte>>)
      ensures this.replies == replies && read == 0 && sent == [] && closes == 0
    {
      this.replies := replies;
      read := 0;
      sent := [];
      closes := 0;
    }

    /** Writes `command`, waits `delay` seconds and reads what has arrived. */
    method Exchange(command: string, delay: nat) returns (reply: seq<byte>)
      modifies this
      ensures reply == Reply(replies, old(read))
      ensures read == old(read) + 1
      ensures sent == old(sent) + [Sent(command, delay)]
      ensures closes == old(closes)
    {
      reply := Reply(replies, read);
      read := read + 1;
      sent := sent + [Sent(command, delay)];
    }

    method Close()
      modifies this
      ensures closes == old(closes) + 1
      ensures read == old(read) && sent == old(sent)
    {
      closes := closes + 1;
    }
  }
}
