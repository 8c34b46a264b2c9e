/** The in-order plugin of the client package: inbound raw messages are written to a
    single-consumer stream, and one consumer loop hands them to their callbacks one at a
    time, waiting for each message's completion promise before taking the next.

    The asynchronous loop is modelled as discrete steps: `DeliverNext` is one turn of
    the loop taking an entry off the stream and calling its callback, `Complete` is the
    settling of the completion promise the loop is awaiting. The stream's end-of-stream
    behaviour (assumed, as the stream library is not part of this model): entries
    written after `close` or `kill` are never delivered; after `close` the consumer
    still drains what was queued; `kill` discards what is queued, and the entry already
    handed out runs to completion. */
module InOrder {

  datatype Option<T> = None | Some(value: T)

  /** `string | ws.RawData` */
  datatype RawData = Text(text: string) | Binary(bytes: seq<bv8>)

  /** One stream entry: the message, and the callback created for it by `onMessageRaw`,
      identified by a ticket. The ticket also names the promise `onMessageRaw` returned. */
  datatype Entry = Entry(ticket: nat, message: RawData)

  /** The state of the inbound stream: open, ended by `close`, or ended by `kill`. */
  datatype Mode = Open | Closed | Killed

  /** Tickets strictly increase along `s`: the order of `s` is the order of writing. */
  ghost predicate InTicketOrder(s: seq<Entry>) {
    forall i, j :: 0 <= i < j < |s| ==> s[i].ticket < s[j].ticket
  }

  ghost function Tickets(s: seq<Entry>): set<nat> {
    set e | e in s :: e.ticket
  }

  class InOrderPlugin {
    /** Entries written to the stream and not yet taken by the consumer. */
    var queue: seq<Entry>
    /** The entry whose completion promise the consumer is awaiting, if any. */
    var inFlight: Option<Entry>
    var mode: Mode
    /** The ticket the next `onMessageRaw` call hands out. */
    var nextTicket: nat
    /** The promises returned by `onMessageRaw` that have resolved, with their values. */
    var settled: map<nat, RawData>

    /** Every entry written while the stream was open, in writing order. */
    ghost var arrived: seq<Entry>
    /** Every entry handed to its callback, in delivery order. */
    ghost var delivered: seq<Entry>
    /** The entries `kill` threw away. */
    ghost var discarded: seq<Entry>

    ghost predicate Valid()
      reads this
    {
      // what arrived is what was delivered, then what was discarded, then what waits
      && arrived == delivered + discarded + queue
      && (discarded != [] ==> mode == Killed)
      && (mode == Killed ==> queue == [])
      // the entry in flight is the last one delivered
      && (inFlight.Some? ==> delivered != [] && inFlight.value == delivered[|delivered| - 1])
      && InTicketOrder(arrived)
      && (forall i :: 0 <= i < |arrived| ==> arrived[i].ticket < nextTicket)
      // a promise has resolved exactly when its entry was delivered, with the entry's message
      && settled.Keys == Tickets(delivered)
      && (forall t :: t in settled ==> t < nextTicket)
      && (forall i :: 0 <= i < |delivered| ==> settled[delivered[i].ticket] == delivered[i].message)
    }

    /** The consumer loop has nothing left to do. */
    ghost predicate Finished()
      reads this
    {
      inFlight.None? && (mode == Killed || (mode == Closed && queue == []))
    }

    /** The constructor creates the stream and starts the one consumer loop. */
    constructor ()
      ensures Valid()
      ensures queue == [] && inFlight == None && mode == Open && settled == map[]
      ensures arrived == [] && delivered == [] && discarded == []
    {
      queue, inFlight, mode, nextTicket, settled := [], None, Open, 0, map[];
      arrived, delivered, discarded := [], [], [];
    }

    /** `onMessageRaw(options)`: writes one entry carrying the message and a fresh
        callback, and returns (the ticket of) the promise tied to that callback. */
    method OnMessageRaw(message: RawData) returns (ticket: nat)
      requires Valid()
      modifies this`queue, this`nextTicket, this`arrived
      ensures Valid()
      ensures ticket == old(nextTicket) && ticket !in settled
      ensures old(mode) == Open ==> queue == old(queue) + [Entry(ticket, message)]
      ensures old(mode) == Open ==> arrived == old(arrived) + [Entry(ticket, message)]
      ensures old(mode) != Open ==> queue == old(queue) && arrived == old(arrived)
    {
      ticket := nextTicket;
      nextTicket := nextTicket + 1;
      if mode == Open {
        queue := queue + [Entry(ticket, message)];
        arrived := arrived + [Entry(ticket, message)];
      }
    }

    /** One turn of the consumer loop: when no entry is in flight and one is queued,
        take the oldest and call its callback with a null error, which resolves the
        promise of `onMessageRaw` with the entry's message. */
    method DeliverNext() returns (handed: bool)
      requires Valid()
      modifies this`queue, this`inFlight, this`settled, this`delivered
      ensures Valid()
      ensures handed <==> old(inFlight).None? && old(queue) != []
      ensures handed ==> inFlight == Some(old(queue)[0]) && queue == old(queue)[1..]
      ensures handed ==> delivered == old(delivered) + [old(queue)[0]]
      ensures handed ==> settled == old(settled)[old(queue)[0].ticket := old(queue)[0].message]
      ensures !handed ==> queue == old(queue) && inFlight == old(inFlight)
      ensures !handed ==> delivered == old(delivered) && settled == old(settled)
    {
      handed := inFlight.None? && queue != [];
      if handed {
        var e := queue[0];
        queue := queue[1..];
        inFlight := Some(e);
        settled := settled[e.ticket := e.message];
        ghost var before := delivered;
        delivered := delivered + [e];
        assert arrived == delivered + discarded + queue;
        assert e == arrived[|before|] && e.ticket < nextTicket;
        forall i | 0 <= i < |delivered|
          ensures settled[delivered[i].ticket] == delivered[i].message
        {
          if i < |before| {
            assert delivered[i] == arrived[i] && e == arrived[|before|];
          }
        }
        assert settled.Keys == Tickets(delivered) by {
          assert Tickets(delivered) == Tickets(before) + {e.ticket};
        }
      }
    }

    /** The completion promise of the entry in flight settles. A rejection is swallowed
        (`ok` is ignored): the consumer is free for the next entry either way. */
    method Complete(ok: bool)
      requires Valid()
      modifies this`inFlight
      ensures Valid()
      ensures inFlight == None
    {
      inFlight := None;
    }

    /** `onEnd`: a "close" cleanup ends the stream after what is queued, a "kill" cleanup
        discards what is queued, any other cleanup mode leaves the stream as it is. */
    method OnEnd(streamCleanupMode: string)
      requires Valid()
      modifies this`mode, this`queue, this`discarded
      ensures Valid()
      ensures streamCleanupMode == "close" ==> queue == old(queue) && discarded == old(discarded)
      ensures streamCleanupMode == "close" ==> mode == (if old(mode) == Killed then Killed else Closed)
      ensures streamCleanupMode == "kill" ==> mode == Killed && queue == []
      ensures streamCleanupMode == "kill" ==> discarded == old(discarded) + old(queue)
      ensures streamCleanupMode != "close" && streamCleanupMode != "kill"
        ==> mode == old(mode) && queue == old(queue) && discarded == old(discarded)
    {
      if streamCleanupMode == "close" {
        if mode == Open {
          mode := Closed;
        }
      } else if streamCleanupMode == "kill" {
        discarded := discarded + queue;
        queue := [];
        mode := Killed;
      }
    }

    /** The consumer loop run until the queue is empty, the handler of the i-th entry
        completing with `outcomes[i]` (true: resolved, false: rejected). Every queued
        entry is delivered, in order, whatever the outcomes. */
    method RunConsumer(outcomes: seq<bool>)
      requires Valid() && inFlight == None
      requires |outcomes| == |queue|
      modifies this`queue, this`inFlight, this`settled, this`delivered
      ensures Valid()
      ensures queue == [] && inFlight == None
      ensures delivered == old(delivered) + old(queue)
      ensures forall i :: 0 <= i < |old(queue)| ==> settled[old(queue)[i].ticket] == old(queue)[i].message
    {
      ghost var q0, d0 := queue, delivered;
      var k := 0;
      while queue != []
        invariant Valid() && inFlight == None
        invariant 0 <= k <= |q0| && |outcomes| == |q0|
        invariant queue == q0[k..]
        invariant delivered == d0 + q0[..k]
        decreases |queue|
      {
        var handed := DeliverNext();
        assert q0[..k + 1] == q0[..k] + [q0[k]];
        Complete(outcomes[k]);
        k := k + 1;
      }
      assert q0[..k] == q0;
      forall i | 0 <= i < |q0|
        ensures settled[q0[i].ticket] == q0[i].message
      {
        assert q0[i] == delivered[|d0| + i];
      }
    }

    /** A "close" cleanup while the consumer is idle, then the consumer loop run to the
        end: the consumer finishes, and unless the stream had already been killed, every
        entry written while it was open reaches its callback, in writing order, with its
        promise resolved to its message. */
    method CloseAndDrain(outcomes: seq<bool>)
      requires Valid() && inFlight == None
      requires |outcomes| == |queue|
      modifies this`mode, this`queue, this`inFlight, this`settled, this`delivered, this`discarded
      ensures Valid() && Finished()
      ensures old(mode) != Killed ==> mode == Closed && delivered == arrived
      ensures old(mode) != Killed ==> forall i :: 0 <= i < |arrived| ==> settled[arrived[i].ticket] == arrived[i].message
      ensures old(mode) == Killed ==> delivered == old(delivered) && discarded == old(discarded)
    {
      OnEnd("close");
      RunConsumer(outcomes);
      if mode == Closed {
        CloseDrainsEverything(this);
      }
    }
  }

  /** Delivery order is arrival order: the entries handed to callbacks are the first
      ones written, in the order they were written. */
  lemma {:induction false} DeliveredInArrivalOrder(p: InOrderPlugin)
    requires p.Valid()
    ensures p.delivered == p.arrived[..|p.delivered|]
    ensures InTicketOrder(p.delivered)
  {
    assert p.arrived == p.delivered + (p.discarded + p.queue);
    assert p.arrived[..|p.delivered|] == p.delivered;
  }

  /** An entry discarded by `kill` never reaches its callback, and its promise never
      resolves. */
  lemma {:induction false} DiscardedNeverDelivered(p: InOrderPlugin, e: Entry)
    requires p.Valid()
    requires e in p.discarded
    ensures e !in p.delivered
    ensures e.ticket !in p.settled
  {
    var j :| 0 <= j < |p.discarded| && p.discarded[j] == e;
    var a := p.arrived;
    assert a[|p.delivered| + j] == e;
    forall i | 0 <= i < |p.delivered|
      ensures p.delivered[i].ticket != e.ticket
    {
      assert p.delivered[i] == a[i];
    }
    assert e.ticket !in Tickets(p.delivered);
  }

  /** Once the stream was closed and the consumer has finished, every entry written
      while the stream was open has been delivered. */
  lemma {:induction false} CloseDrainsEverything(p: InOrderPlugin)
    requires p.Valid()
    requires p.mode == Closed && p.Finished()
    ensures p.delivered == p.arrived
  {
  }

  /** At most one entry is in flight, and it is the latest one delivered, so an entry is
      handed out only after every earlier one has been. */
  lemma {:induction false} InFlightIsLatest(p: InOrderPlugin)
    requires p.Valid() && p.inFlight.Some?
    ensures p.inFlight.value in p.delivered
    ensures forall e :: e in p.delivered ==> e.ticket <= p.inFlight.value.ticket
  {
    DeliveredInArrivalOrder(p);
    forall e | e in p.delivered
      ensures e.ticket <= p.inFlight.value.ticket
    {
      var i :| 0 <= i < |p.delivered| && p.delivered[i] == e;
      assert i <= |p.delivered| - 1;
    }
  }
}
