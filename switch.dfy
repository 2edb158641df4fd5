/** The gossip switch: two in-ports, two out-ports and a message filter. A
    message received on an in-port is broadcast to every out-port when the
    filter accepts it and dropped otherwise; the switch is started and
    stopped by compare-and-swap on its running flag. */
module Switch {
  import opened Types
  import opened Events
  import opened Ports
  import opened BlockFilters
  import opened TxFilters

  /** The switch types. */
  const TxSwitch: int := 0
  const BlockSwitch: int := 1

  /** The switch's message filter: a transaction filter or a block filter. */
  datatype SwitchFilter = TxSwitchFilter(txFilter: TxFilter) | BlockSwitchFilter(blockFilter: BlockFilter)
  {
    /** The event sink the filter reports to. */
    function Center(): EventCenter
    {
      match this
      case TxSwitchFilter(f) => f.center
      case BlockSwitchFilter(f) => f.center
    }

    /** The filter's verdict on a message received on port portId. */
    function Verdict(portId: int, msg: Message): (r: Option<Error>)
      ensures TxSwitchFilter? ==>
                r == TxVerdict(txFilter.verifySignature, txFilter.chainId, txFilter.sender, portId, msg)
      ensures BlockSwitchFilter? ==> r == BlockVerdict(blockFilter.deps, msg)
    {
      match this
      case TxSwitchFilter(f) => TxVerdict(f.verifySignature, f.chainId, f.sender, portId, msg)
      case BlockSwitchFilter(f) => BlockVerdict(f.deps, msg)
    }

    /** The events the filter reports for one verification with verdict r. */
    function EventsOf(msg: Message, r: Option<Error>): seq<Event>
    {
      match this
      case TxSwitchFilter(_) => if msg.TxMessage? then [TxEvent(msg.tx, r)] else []
      case BlockSwitchFilter(_) => BlockEvents(r)
    }

    /** The filter's Verify; the block filter is not told the port. */
    method Verify(portId: int, msg: Message) returns (err: Option<Error>)
      modifies Center()
      ensures err == Verdict(portId, msg)
      ensures Center().notified == old(Center().notified) + EventsOf(msg, err)
    {
      match this {
        case TxSwitchFilter(f) =>
          err := f.Verify(portId, msg);
        case BlockSwitchFilter(f) =>
          err := f.Verify(msg);
      }
    }
  }

  /** The part of config.SwitchConfig the filters use. */
  datatype SwitchConfig = SwitchConfig(verifySignature: bool, chainId: U64)

  /** The collaborators a filter is built with: sender recovery for the
      transaction filter, chain access and the worker for the block filter. */
  datatype FilterDeps = FilterDeps(
    sender: (Signer, Transaction) -> Option<Address>,
    blockDeps: BlockDeps)

  /** A non-empty set of port ids has a member to pick. */
  lemma NonEmptyHasKey(s: set<int>)
    requires s != {}
    ensures exists k :: k in s
  {
    if forall k :: k !in s {
      assert false;
    }
  }

  class GossipSwitch {
    const filter: SwitchFilter
    var inPorts: map<int, InPort>
    var outPorts: map<int, OutPort>
    var running: bool

    /** The fixed port layout: in-ports and out-ports {0, 1}, each port
        stored under its own id. */
    ghost predicate Valid()
      reads this
    {
      && inPorts.Keys == {LocalInPortId, RemoteInPortId}
      && outPorts.Keys == {LocalOutPortId, RemoteOutPortId}
      && (forall id :: id in inPorts ==> inPorts[id].id == id)
      && (forall id :: id in outPorts ==> outPorts[id].id == id)
    }

    /** NewGossipSwitch: a stopped switch with fresh, empty ports. */
    constructor (filter: SwitchFilter)
      ensures this.filter == filter && Valid() && !running
      ensures forall id :: id in inPorts ==> fresh(inPorts[id]) && inPorts[id].queue == []
      ensures forall id :: id in outPorts ==> fresh(outPorts[id]) && outPorts[id].subscribers == []
    {
      this.filter := filter;
      inPorts := map[];
      outPorts := map[];
      running := false;
      new;
      InitPort();
    }

    /** initPort: a new local and remote in-port and out-port, each under
        its id; other entries are kept. */
    method InitPort()
      modifies this`inPorts, this`outPorts
      ensures inPorts.Keys == old(inPorts).Keys + {LocalInPortId, RemoteInPortId}
      ensures outPorts.Keys == old(outPorts).Keys + {LocalOutPortId, RemoteOutPortId}
      ensures forall id :: id in inPorts && id != LocalInPortId && id != RemoteInPortId ==>
                inPorts[id] == old(inPorts)[id]
      ensures forall id :: id in outPorts && id != LocalOutPortId && id != RemoteOutPortId ==>
                outPorts[id] == old(outPorts)[id]
      ensures forall id :: (id == LocalInPortId || id == RemoteInPortId) ==>
                id in inPorts && fresh(inPorts[id]) && inPorts[id].id == id && inPorts[id].queue == []
      ensures forall id :: (id == LocalOutPortId || id == RemoteOutPortId) ==>
                id in outPorts && fresh(outPorts[id]) && outPorts[id].id == id && outPorts[id].subscribers == []
    {
      var localIn := new InPort(LocalInPortId);
      var remoteIn := new InPort(RemoteInPortId);
      var localOut := new OutPort(LocalOutPortId);
      var remoteOut := new OutPort(RemoteOutPortId);
      inPorts := inPorts[LocalInPortId := localIn][RemoteInPortId := remoteIn];
      outPorts := outPorts[LocalOutPortId := localOut][RemoteOutPortId := remoteOut];
    }

    /** InPort: the in-port with that id, or null when there is none. */
    function InPort(portId: int): (p: InPort?)
      reads this
      ensures p != null <==> portId in inPorts
      ensures p != null ==> p == inPorts[portId]
      ensures Valid() ==> (p != null <==> portId == LocalInPortId || portId == RemoteInPortId)
      ensures Valid() && p != null ==> p.id == portId
    {
      if portId in inPorts then inPorts[portId] else null
    }

    /** OutPort: the out-port with that id, or null when there is none. */
    function OutPort(portId: int): (p: OutPort?)
      reads this
      ensures p != null <==> portId in outPorts
      ensures p != null ==> p == outPorts[portId]
      ensures Valid() ==> (p != null <==> portId == LocalOutPortId || portId == RemoteOutPortId)
      ensures Valid() && p != null ==> p.id == portId
    {
      if portId in outPorts then outPorts[portId] else null
    }

    /** Start: stopped to running; an error, and still running, when the
        switch was running already. */
    method Start() returns (err: Option<Error>)
      modifies this`running
      ensures running
      ensures !old(running) ==> err == None
      ensures old(running) ==> err == Some(SwitchAlreadyStarted)
    {
      if !running {
        running := true;
        return None;
      }
      return Some(SwitchAlreadyStarted);
    }

    /** Stop: running to stopped; an error, and still stopped, when the
        switch was stopped already. */
    method Stop() returns (err: Option<Error>)
      modifies this`running
      ensures !running
      ensures old(running) ==> err == None
      ensures !old(running) ==> err == Some(SwitchAlreadyStopped)
    {
      if running {
        running := false;
        return None;
      }
      return Some(SwitchAlreadyStopped);
    }

    /** IsRunning: the current state of the flag. */
    function IsRunning(): (r: bool)
      reads this
      ensures r == running
    {
      running
    }

    /** broadCastMsg: every out-port writes the message (in no particular
        port order); the result maps each port id to the calls its
        subscribers received. */
    method BroadCastMsg(msg: Message, respond: (SubscriberId, Message) -> Option<Error>)
      returns (writes: map<int, seq<Invocation>>, err: Option<Error>)
      ensures writes.Keys == outPorts.Keys
      ensures forall id :: id in writes ==> writes[id] == Fanout(outPorts[id].subscribers, msg, respond)
      ensures err == None
    {
      writes := map[];
      var remaining := outPorts.Keys;
      while remaining != {}
        invariant remaining <= outPorts.Keys
        invariant writes.Keys == outPorts.Keys - remaining
        invariant forall id :: id in writes ==> writes[id] == Fanout(outPorts[id].subscribers, msg, respond)
        decreases remaining
      {
        NonEmptyHasKey(remaining);
        var key :| key in remaining;
        var trace, _ := outPorts[key].Write(msg, respond);
        writes := writes[key := trace];
        remaining := remaining - {key};
      }
      err := None;
    }

    /** onRecvMsg: an accepted message is broadcast to every out-port, a
        rejected one reaches none. */
    method OnRecvMsg(portId: int, msg: Message, respond: (SubscriberId, Message) -> Option<Error>)
      returns (writes: map<int, seq<Invocation>>)
      modifies filter.Center()
      ensures filter.Center().notified
              == old(filter.Center().notified) + filter.EventsOf(msg, filter.Verdict(portId, msg))
      ensures filter.Verdict(portId, msg).Some? ==> writes == map[]
      ensures filter.Verdict(portId, msg).None? ==>
                && writes.Keys == outPorts.Keys
                && forall id :: id in writes ==> writes[id] == Fanout(outPorts[id].subscribers, msg, respond)
    {
      var err := filter.Verify(portId, msg);
      if err.None? {
        var broadcastErr;
        writes, broadcastErr := BroadCastMsg(msg, respond);
      } else {
        writes := map[];
      }
    }
  }

  /** NewGossipSwitchByType: a stopped switch with a transaction filter or
      a block filter on the given event sink; no switch for any other type. */
  method NewGossipSwitchByType(switchType: int, center: EventCenter, config: SwitchConfig, deps: FilterDeps)
    returns (sw: GossipSwitch?, err: Option<Error>)
    ensures switchType != TxSwitch && switchType != BlockSwitch ==> sw == null && err == Some(UnsupportedSwitchType)
    ensures switchType == TxSwitch || switchType == BlockSwitch ==>
              && err == None && sw != null && fresh(sw) && sw.Valid() && !sw.running
              && sw.filter.Center() == center
    ensures switchType == TxSwitch ==>
              && sw != null && sw.filter.TxSwitchFilter?
              && sw.filter.txFilter.verifySignature == config.verifySignature
              && sw.filter.txFilter.chainId == config.chainId
              && sw.filter.txFilter.sender == deps.sender
    ensures switchType == BlockSwitch ==>
              && sw != null && sw.filter.BlockSwitchFilter?
              && sw.filter.blockFilter.deps == deps.blockDeps
  {
    var msgFilter: SwitchFilter;
    if switchType == TxSwitch {
      var f := new TxFilter(center, config.verifySignature, config.chainId, deps.sender);
      msgFilter := TxSwitchFilter(f);
    } else if switchType == BlockSwitch {
      var f := new BlockFilter(center, deps.blockDeps);
      msgFilter := BlockSwitchFilter(f);
    } else {
      return null, Some(UnsupportedSwitchType);
    }
    sw := new GossipSwitch(msgFilter);
    err := None;
  }
}
