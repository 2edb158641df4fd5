/** The switch's ports: an in-port is a queue of arriving messages, an
    out-port an ordered list of bound subscribers that every written
    message is handed to. */
module Ports {
  import opened Types

  const LocalInPortId: int := 0
  const RemoteInPortId: int := 1
  const LocalOutPortId: int := 0
  const RemoteOutPortId: int := 1

  /** A bound output function, identified by the order it was bound in. */
  type SubscriberId = nat

  /** One call of a subscriber: who was called, with what, and what it
      answered. */
  datatype Invocation = Invocation(subscriber: SubscriberId, msg: Message, result: Option<Error>)

  /** The calls Write makes: each subscriber once, in bind order, with the
      same message; `respond` stands for what the subscribers answer. */
  function Fanout(subs: seq<SubscriberId>, msg: Message, respond: (SubscriberId, Message) -> Option<Error>)
    : seq<Invocation>
    decreases |subs|
  {
    if subs == [] then []
    else Fanout(subs[..|subs| - 1], msg, respond) + [Invocation(subs[|subs| - 1], msg, respond(subs[|subs| - 1], msg))]
  }

  /** The k-th call goes to the k-th subscriber, and there is one call per
      subscriber. */
  lemma {:induction false} FanoutAt(subs: seq<SubscriberId>, msg: Message, respond: (SubscriberId, Message) -> Option<Error>)
    ensures |Fanout(subs, msg, respond)| == |subs|
    ensures forall k :: 0 <= k < |subs| ==>
              Fanout(subs, msg, respond)[k] == Invocation(subs[k], msg, respond(subs[k], msg))
    decreases |subs|
  {
    if subs != [] {
      FanoutAt(subs[..|subs| - 1], msg, respond);
    }
  }

  /** What subscribers answer does not change who is called or with what. */
  lemma {:induction false} FanoutIgnoresAnswers(subs: seq<SubscriberId>, msg: Message,
                                                r1: (SubscriberId, Message) -> Option<Error>,
                                                r2: (SubscriberId, Message) -> Option<Error>)
    ensures |Fanout(subs, msg, r1)| == |subs| == |Fanout(subs, msg, r2)|
    ensures forall k :: 0 <= k < |subs| ==>
              && Fanout(subs, msg, r1)[k].subscriber == Fanout(subs, msg, r2)[k].subscriber
              && Fanout(subs, msg, r1)[k].msg == Fanout(subs, msg, r2)[k].msg
  {
    FanoutAt(subs, msg, r1);
    FanoutAt(subs, msg, r2);
  }

  class InPort {
    const id: int
    /** The messages sent to the port and not yet read, oldest first. */
    var queue: seq<Message>

    /** NewInPort. */
    constructor (id: int)
      ensures this.id == id && queue == []
    {
      this.id := id;
      queue := [];
    }

    /** PortId: the id given at construction. */
    function PortId(): (r: int)
      ensures r == id
    {
      id
    }

    /** A send on the port's channel. */
    method Send(msg: Message)
      modifies this`queue
      ensures queue == old(queue) + [msg]
    {
      queue := queue + [msg];
    }

    /** A receive from the port's channel: the oldest message not yet read,
        or None when none is waiting. */
    method Read() returns (msg: Option<Message>)
      modifies this`queue
      ensures old(queue) == [] ==> msg == None && queue == []
      ensures old(queue) != [] ==> msg == Some(old(queue)[0]) && queue == old(queue)[1..]
    {
      if queue == [] {
        msg := None;
      } else {
        msg := Some(queue[0]);
        queue := queue[1..];
      }
    }
  }

  /** Messages sent to an empty in-port are read back in the order sent. */
  method SendThenRead(p: InPort, a: Message, b: Message) returns (x: Option<Message>, y: Option<Message>)
    requires p.queue == []
    modifies p
    ensures x == Some(a) && y == Some(b) && p.queue == []
  {
    p.Send(a);
    p.Send(b);
    x := p.Read();
    y := p.Read();
  }

  class OutPort {
    const id: int
    /** The bound output functions, in bind order. */
    var subscribers: seq<SubscriberId>

    /** NewOutPort. */
    constructor (id: int)
      ensures this.id == id && subscribers == []
    {
      this.id := id;
      subscribers := [];
    }

    /** PortId: the id given at construction. */
    function PortId(): (r: int)
      ensures r == id
    {
      id
    }

    /** BindToPort: the subscriber goes to the end of the list. */
    method BindToPort(s: SubscriberId) returns (err: Option<Error>)
      modifies this`subscribers
      ensures subscribers == old(subscribers) + [s]
      ensures err == None
    {
      subscribers := subscribers + [s];
      err := None;
    }

    /** Write: every subscriber called once, in bind order, with msg; their
        errors do not stop the loop and Write itself returns nil. */
    method Write(msg: Message, respond: (SubscriberId, Message) -> Option<Error>)
      returns (trace: seq<Invocation>, err: Option<Error>)
      ensures trace == Fanout(subscribers, msg, respond)
      ensures |trace| == |subscribers|
      ensures forall k :: 0 <= k < |trace| ==> trace[k].subscriber == subscribers[k] && trace[k].msg == msg
      ensures err == None
    {
      trace := [];
      var i := 0;
      while i < |subscribers|
        invariant 0 <= i <= |subscribers|
        invariant trace == Fanout(subscribers[..i], msg, respond)
      {
        var s := subscribers[i];
        var answer := respond(s, msg);
        assert subscribers[..i + 1][..i] == subscribers[..i];
        trace := trace + [Invocation(s, msg, answer)];
        i := i + 1;
      }
      assert subscribers[..|subscribers|] == subscribers;
      FanoutAt(subscribers, msg, respond);
      err := None;
    }
  }
}
