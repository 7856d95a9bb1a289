/**
 The network event loop (network/event_loop.rs): seven maps of one-shot reply
 channels, filled by commands and emptied by swarm events. A channel is the
 sending half of a `oneshot`, named by a number; the swarm is an environment
 that issues query and request ids and events.
 */
module EventLoop {
  import opened Options

  type Channel = nat

  /** An entry of one of the seven maps. */
  datatype Slot =
    | Dialing(peer: string)
    | Providing(query: nat)
    | FindingProviders(query: nat)
    | Requesting(request: nat)
    | PuttingKv(query: nat)
    | GettingValue(query: nat)
    | Streaming(id: string)

  predicate IsQuery(s: Slot) { s.Providing? || s.FindingProviders? || s.PuttingKv? || s.GettingValue? }

  datatype Reply =
    | Done
    | Failed
    | Providers(peers: set<string>)
    | Value(bytes: seq<int>)
    | Response(payload: string)

  datatype Command =
    | StartListening(addr: string, sender: Channel)
    | Dial(peer: string, sender: Channel)
    | StartProviding(key: string, sender: Channel)
    | StopProviding(key: string)
    | GetProviders(key: string, sender: Channel)
    | PutKV(key: string, sender: Channel)
    | GetValue(key: string, sender: Channel)
    | Request(peer: string, sender: Channel)
    | Respond
    | SendInStream(peer: string, id: string, replyTo: Option<Channel>)

  /** `id` is what the swarm returns; `ok` whether listening, dialling, storing, answering or writing succeeds. */
  datatype Outcome = Outcome(id: nat, ok: bool)

  datatype Event =
    | GotResponse(request: nat, payload: string)
    | OutboundFailure(request: nat)
    | ConnectionEstablished(peer: string, dialer: bool)
    | OutgoingConnectionError(unreachable: Option<string>)
    | FoundProviders(query: nat, peers: set<string>)
    | GetProvidersError(query: nat)
    | FoundRecord(query: nat, bytes: seq<int>)
    | GetRecordError(query: nat)
    | PutRecordOk(query: nat)
    | PutRecordError(query: nat)
    | StartProvidingOk(query: nat)
    | StartProvidingError(query: nat)
    | StreamResponse(id: string, payload: string)
    | OtherEvent

  datatype Panic = AlreadyDialing | MissingEntry | ConnectionClosed | StoreError

  datatype Answer = Answer(slot: Option<Slot>, channel: Channel, reply: Reply)

  datatype Loop = Loop(pending: map<Slot, Channel>, answers: seq<Answer>, dropped: seq<Channel>, panic: Option<Panic>)

  // ---- The loop as a function of one tagged map ----

  function Sender(c: Command): Option<Channel> {
    match c
    case StopProviding(_) => None
    case Respond => None
    case SendInStream(_, _, replyTo) => replyTo
    case _ => Some(c.sender)
  }

  /** Inserting over an existing entry drops the channel it held. */
  function Register(l: Loop, slot: Slot, channel: Channel): Loop {
    l.(pending := l.pending[slot := channel],
       dropped := if slot in l.pending then l.dropped + [l.pending[slot]] else l.dropped)
  }

  function Resolve(l: Loop, slot: Slot, reply: Reply): Loop {
    if slot in l.pending
    then l.(pending := l.pending - {slot}, answers := l.answers + [Answer(Some(slot), l.pending[slot], reply)])
    else l
  }

  /** The slot a command registers its channel in, when it registers one. */
  function SlotFor(c: Command, o: Outcome): Option<Slot> {
    match c
    case Dial(peer, _) => if o.ok then Some(Dialing(peer)) else None
    case StartProviding(_, _) => if o.ok then Some(Providing(o.id)) else None
    case GetProviders(_, _) => Some(FindingProviders(o.id))
    case PutKV(_, _) => if o.ok then Some(PuttingKv(o.id)) else None
    case GetValue(_, _) => Some(GettingValue(o.id))
    case Request(_, _) => Some(Requesting(o.id))
    case SendInStream(_, id, replyTo) => if o.ok && replyTo.Some? then Some(Streaming(id)) else None
    case _ => None
  }

  function OnCommand(l: Loop, c: Command, o: Outcome): Loop {
    if c.Dial? && Dialing(c.peer) in l.pending then
      l.(panic := Some(AlreadyDialing), dropped := l.dropped + [c.sender])
    else if SlotFor(c, o).Some? then Register(l, SlotFor(c, o).value, Sender(c).value)
    else match c
      case StartListening(_, sender) =>
        l.(answers := l.answers + [Answer(None, sender, if o.ok then Done else Failed)])
      case Dial(_, sender) => l.(answers := l.answers + [Answer(None, sender, Failed)])
      case Respond => if o.ok then l else l.(panic := Some(ConnectionClosed))
      case StartProviding(_, sender) => l.(panic := Some(StoreError), dropped := l.dropped + [sender])
      case PutKV(_, sender) => l.(panic := Some(StoreError), dropped := l.dropped + [sender])
      case SendInStream(_, _, Some(sender)) => l.(dropped := l.dropped + [sender])
      case _ => l
  }

  /** The entry an event resolves, if it resolves any. */
  function EventSlot(e: Event): Option<Slot> {
    match e
    case GotResponse(request, _) => Some(Requesting(request))
    case OutboundFailure(request) => Some(Requesting(request))
    case ConnectionEstablished(peer, dialer) => if dialer then Some(Dialing(peer)) else None
    case OutgoingConnectionError(Some(peer)) => Some(Dialing(peer))
    case FoundProviders(query, _) => Some(FindingProviders(query))
    case GetProvidersError(query) => Some(FindingProviders(query))
    case FoundRecord(query, _) => Some(GettingValue(query))
    case GetRecordError(query) => Some(GettingValue(query))
    case PutRecordOk(query) => Some(PuttingKv(query))
    case PutRecordError(query) => Some(PuttingKv(query))
    case StartProvidingOk(query) => Some(Providing(query))
    case StreamResponse(id, _) => Some(Streaming(id))
    case _ => None
  }

  function EventReply(e: Event): Reply {
    match e
    case GotResponse(_, payload) => Response(payload)
    case StreamResponse(_, payload) => Response(payload)
    case FoundProviders(_, peers) => Providers(peers)
    case GetProvidersError(_) => Providers({})
    case FoundRecord(_, bytes) => Value(bytes)
    case ConnectionEstablished(_, _) => Done
    case PutRecordOk(_) => Done
    case StartProvidingOk(_) => Done
    case _ => Failed
  }

  /** The three events whose entry is `expect`ed to be pending. */
  predicate EntryExpected(e: Event) { e.GotResponse? || e.OutboundFailure? || e.StartProvidingOk? }

  function OnEvent(l: Loop, e: Event): Loop {
    if EventSlot(e).None? then l
    else if EntryExpected(e) && EventSlot(e).value !in l.pending then l.(panic := Some(MissingEntry))
    else Resolve(l, EventSlot(e).value, EventReply(e))
  }

  // ---- The loop as code over seven maps ----

  class NetworkEventLoop {
    var pendingDial: map<string, Channel>
    var pendingStartProviding: map<nat, Channel>
    var pendingGetProviders: map<nat, Channel>
    var pendingRequest: map<nat, Channel>
    var pendingPutKv: map<nat, Channel>
    var pendingGetValue: map<nat, Channel>
    var pendingStreamRequests: map<string, Channel>
    var answers: seq<Answer>
    var dropped: seq<Channel>
    var panic: Option<Panic>
    ghost var pending: map<Slot, Channel>

    constructor ()
      ensures Valid() && State() == Loop(map[], [], [], None)
    {
      pendingDial, pendingStartProviding, pendingGetProviders, pendingRequest := map[], map[], map[], map[];
      pendingPutKv, pendingGetValue, pendingStreamRequests := map[], map[], map[];
      answers, dropped, panic, pending := [], [], None, map[];
    }

    ghost predicate Has(s: Slot)
      reads this
    {
      match s
      case Dialing(peer) => peer in pendingDial
      case Providing(query) => query in pendingStartProviding
      case FindingProviders(query) => query in pendingGetProviders
      case Requesting(request) => request in pendingRequest
      case PuttingKv(query) => query in pendingPutKv
      case GettingValue(query) => query in pendingGetValue
      case Streaming(id) => id in pendingStreamRequests
    }

    ghost function At(s: Slot): Channel
      requires Has(s)
      reads this
    {
      match s
      case Dialing(peer) => pendingDial[peer]
      case Providing(query) => pendingStartProviding[query]
      case FindingProviders(query) => pendingGetProviders[query]
      case Requesting(request) => pendingRequest[request]
      case PuttingKv(query) => pendingPutKv[query]
      case GettingValue(query) => pendingGetValue[query]
      case Streaming(id) => pendingStreamRequests[id]
    }

    /** The seven maps, each entry under its tag. */
    ghost predicate Valid()
      reads this
    {
      && (forall s :: s in pending <==> Has(s))
      && (forall s :: s in pending ==> pending[s] == At(s))
    }

    ghost function State(): Loop
      reads this
    {
      Loop(pending, answers, dropped, panic)
    }

    method Send(slot: Option<Slot>, channel: Channel, reply: Reply)
      requires Valid()
      modifies `answers
      ensures Valid() && answers == old(answers) + [Answer(slot, channel, reply)]
    {
      answers := answers + [Answer(slot, channel, reply)];
    }

    method Drop(channel: Channel)
      requires Valid()
      modifies `dropped
      ensures Valid() && dropped == old(dropped) + [channel]
    {
      dropped := dropped + [channel];
    }

    method Abort(reason: Panic)
      requires Valid()
      modifies `panic
      ensures Valid() && panic == Some(reason)
    {
      panic := Some(reason);
    }

    /** `HashMap::insert` into the map of a Kademlia query; returns what it replaces. */
    method InsertQuery(slot: Slot, channel: Channel) returns (replaced: Option<Channel>)
      requires Valid() && IsQuery(slot)
      modifies this
      ensures Valid() && State() == old(State()).(pending := old(pending)[slot := channel])
      ensures replaced == if slot in old(pending) then Some(old(pending)[slot]) else None
    {
      match slot {
        case Providing(query) =>
          replaced := if query in pendingStartProviding then Some(pendingStartProviding[query]) else None;
          pendingStartProviding := pendingStartProviding[query := channel];
        case FindingProviders(query) =>
          replaced := if query in pendingGetProviders then Some(pendingGetProviders[query]) else None;
          pendingGetProviders := pendingGetProviders[query := channel];
        case PuttingKv(query) =>
          replaced := if query in pendingPutKv then Some(pendingPutKv[query]) else None;
          pendingPutKv := pendingPutKv[query := channel];
        case GettingValue(query) =>
          replaced := if query in pendingGetValue then Some(pendingGetValue[query]) else None;
          pendingGetValue := pendingGetValue[query := channel];
      }
      pending := pending[slot := channel];
    }

    /** The same for dials, requests and stream requests. */
    method InsertOther(slot: Slot, channel: Channel) returns (replaced: Option<Channel>)
      requires Valid() && !IsQuery(slot)
      modifies this
      ensures Valid() && State() == old(State()).(pending := old(pending)[slot := channel])
      ensures replaced == if slot in old(pending) then Some(old(pending)[slot]) else None
    {
      match slot {
        case Dialing(peer) =>
          replaced := if peer in pendingDial then Some(pendingDial[peer]) else None;
          pendingDial := pendingDial[peer := channel];
        case Requesting(request) =>
          replaced := if request in pendingRequest then Some(pendingRequest[request]) else None;
          pendingRequest := pendingRequest[request := channel];
        case Streaming(id) =>
          replaced := if id in pendingStreamRequests then Some(pendingStreamRequests[id]) else None;
          pendingStreamRequests := pendingStreamRequests[id := channel];
      }
      pending := pending[slot := channel];
    }

    /** `HashMap::remove` from the map of a Kademlia query. */
    method RemoveQuery(slot: Slot) returns (taken: Option<Channel>)
      requires Valid() && IsQuery(slot)
      modifies this
      ensures Valid() && State() == old(State()).(pending := old(pending) - {slot})
      ensures taken == if slot in old(pending) then Some(old(pending)[slot]) else None
    {
      match slot {
        case Providing(query) =>
          taken := if query in pendingStartProviding then Some(pendingStartProviding[query]) else None;
          pendingStartProviding := pendingStartProviding - {query};
        case FindingProviders(query) =>
          taken := if query in pendingGetProviders then Some(pendingGetProviders[query]) else None;
          pendingGetProviders := pendingGetProviders - {query};
        case PuttingKv(query) =>
          taken := if query in pendingPutKv then Some(pendingPutKv[query]) else None;
          pendingPutKv := pendingPutKv - {query};
        case GettingValue(query) =>
          taken := if query in pendingGetValue then Some(pendingGetValue[query]) else None;
          pendingGetValue := pendingGetValue - {query};
      }
      pending := pending - {slot};
    }

    method RemoveOther(slot: Slot) returns (taken: Option<Channel>)
      requires Valid() && !IsQuery(slot)
      modifies this
      ensures Valid() && State() == old(State()).(pending := old(pending) - {slot})
      ensures taken == if slot in old(pending) then Some(old(pending)[slot]) else None
    {
      match slot {
        case Dialing(peer) =>
          taken := if peer in pendingDial then Some(pendingDial[peer]) else None;
          pendingDial := pendingDial - {peer};
        case Requesting(request) =>
          taken := if request in pendingRequest then Some(pendingRequest[request]) else None;
          pendingRequest := pendingRequest - {request};
        case Streaming(id) =>
          taken := if id in pendingStreamRequests then Some(pendingStreamRequests[id]) else None;
          pendingStreamRequests := pendingStreamRequests - {id};
      }
      pending := pending - {slot};
    }

    method RegisterSender(slot: Slot, channel: Channel)
      requires Valid()
      modifies this
      ensures Valid() && State() == Register(old(State()), slot, channel)
    {
      var replaced;
      if IsQuery(slot) {
        replaced := InsertQuery(slot, channel);
      } else {
        replaced := InsertOther(slot, channel);
      }
      if replaced.Some? { Drop(replaced.value); }
    }

    /** For the two queries that first write to the local record store and `expect` no error. */
    method RegisterStored(slot: Slot, channel: Channel, stored: bool)
      requires Valid()
      modifies this
      ensures Valid()
      ensures State() == if stored then Register(old(State()), slot, channel)
                         else old(State()).(panic := Some(StoreError), dropped := old(dropped) + [channel])
    {
      if stored {
        RegisterSender(slot, channel);
      } else {
        Drop(channel);
        Abort(StoreError);
      }
    }

    method AnswerPending(slot: Slot, reply: Reply) returns (found: bool)
      requires Valid()
      modifies this
      ensures Valid() && State() == Resolve(old(State()), slot, reply)
      ensures found <==> slot in old(pending)
    {
      var taken;
      if IsQuery(slot) {
        taken := RemoveQuery(slot);
      } else {
        taken := RemoveOther(slot);
      }
      found := taken.Some?;
      if found { Send(Some(slot), taken.value, reply); }
      assert !found ==> pending == old(pending);
    }

    method HandleCommand(c: Command, o: Outcome)
      requires Valid()
      modifies this
      ensures Valid() && State() == OnCommand(old(State()), c, o)
    {
      match c {
        case StartListening(_, sender) => Send(None, sender, if o.ok then Done else Failed);
        case Dial(peer, sender) =>
          if peer in pendingDial {
            assert Has(Dialing(peer));
            Drop(sender);
            Abort(AlreadyDialing);
          } else {
            assert !Has(Dialing(peer));
            if o.ok {
              RegisterSender(Dialing(peer), sender);
            } else {
              Send(None, sender, Failed);
            }
          }
        case StartProviding(_, sender) => RegisterStored(Providing(o.id), sender, o.ok);
        case StopProviding(_) =>
        case GetProviders(_, sender) => RegisterSender(FindingProviders(o.id), sender);
        case PutKV(_, sender) => RegisterStored(PuttingKv(o.id), sender, o.ok);
        case GetValue(_, sender) => RegisterSender(GettingValue(o.id), sender);
        case Request(_, sender) => RegisterSender(Requesting(o.id), sender);
        case Respond => if !o.ok { Abort(ConnectionClosed); }
        case SendInStream(_, id, replyTo) =>
          if replyTo.Some? {
            if o.ok {
              RegisterSender(Streaming(id), replyTo.value);
            } else {
              Drop(replyTo.value);
            }
          }
      }
    }

    method HandleEvent(e: Event)
      requires Valid()
      modifies this
      ensures Valid() && State() == OnEvent(old(State()), e)
    {
      var found := true;
      match e {
        case GotResponse(request, payload) => found := AnswerPending(Requesting(request), Response(payload));
        case OutboundFailure(request) => found := AnswerPending(Requesting(request), Failed);
        case ConnectionEstablished(peer, dialer) => if dialer { var _ := AnswerPending(Dialing(peer), Done); }
        case OutgoingConnectionError(unreachable) =>
          if unreachable.Some? { var _ := AnswerPending(Dialing(unreachable.value), Failed); }
        case FoundProviders(query, peers) => var _ := AnswerPending(FindingProviders(query), Providers(peers));
        case GetProvidersError(query) => var _ := AnswerPending(FindingProviders(query), Providers({}));
        case FoundRecord(query, bytes) => var _ := AnswerPending(GettingValue(query), Value(bytes));
        case GetRecordError(query) => var _ := AnswerPending(GettingValue(query), Failed);
        case PutRecordOk(query) => var _ := AnswerPending(PuttingKv(query), Done);
        case PutRecordError(query) => var _ := AnswerPending(PuttingKv(query), Failed);
        case StartProvidingOk(query) => found := AnswerPending(Providing(query), Done);
        case StartProvidingError(_) =>
        case StreamResponse(id, payload) => var _ := AnswerPending(Streaming(id), Response(payload));
        case OtherEvent =>
      }
      if !found { Abort(MissingEntry); }
    }
  }
}
