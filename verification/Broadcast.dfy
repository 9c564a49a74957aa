/** The broadcaster that wakes the workers: a counter of broadcasts and a channel that each one replaces. */
module Broadcast {

  /** Channels are numbered in the order they are made; a channel is closed by the broadcast that replaces it. */
  type Channel = int

  const CLOSED_CHANNEL: Channel := -1

  predicate Closed(c: Channel, sent: nat) {
    c < sent
  }

  function WaitChannel(sent: nat, viewed: nat): (c: Channel) {
    if sent == viewed then sent else CLOSED_CHANNEL
  }

  /**
   * The channel handed out by a wait is closed, at the time of the wait or at any later time, exactly if
   * there has been a broadcast that the receiver has not seen.
   */
  lemma ReadyExactlyIfUnseen(viewed: nat, sent: nat, sentLater: nat)
    requires viewed <= sent <= sentLater
    ensures Closed(WaitChannel(sent, viewed), sentLater) <==> viewed < sentLater
  {
  }

  class Broadcaster {
    var ch: Channel
    var sent: nat

    ghost predicate Valid()
      reads this
    {
      ch == sent
    }

    constructor ()
      ensures Valid() && sent == 0
    {
      ch := 0;
      sent := 0;
    }

    /** Closes the current channel, so that every receiver waiting on it is ready, and makes a new one. */
    method Broadcast()
      requires Valid()
      modifies this
      ensures Valid() && sent == old(sent) + 1
      ensures Closed(old(ch), sent) && !Closed(ch, sent)
    {
      ch := ch + 1;
      sent := sent + 1;
    }

    method NewReceiver() returns (r: Receiver)
      requires Valid()
      ensures fresh(r) && r.b == this && r.viewed == sent
    {
      r := new Receiver(this);
    }
  }

  class Receiver {
    const b: Broadcaster
    var viewed: nat

    constructor (b: Broadcaster)
      ensures this.b == b && viewed == b.sent
    {
      this.b := b;
      this.viewed := b.sent;
    }

    method Wait() returns (c: Channel)
      requires b.Valid() && viewed <= b.sent
      ensures c == WaitChannel(b.sent, viewed)
      ensures forall later: nat :: b.sent <= later ==> (Closed(c, later) <==> viewed < later)
    {
      if b.sent == viewed {
        c := b.ch;
      } else {
        c := CLOSED_CHANNEL;
      }
      forall later: nat | b.sent <= later
        ensures Closed(c, later) <==> viewed < later
      {
        ReadyExactlyIfUnseen(viewed, b.sent, later);
      }
    }

    method Awake()
      modifies this
      ensures viewed == b.sent
    {
      viewed := b.sent;
    }
  }
}
