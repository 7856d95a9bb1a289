/**
 The custom request/response protocol over one-way streams between any number of
 nodes (`send_stream_request`, `SendInStream`, `handle_stream_req`). Each node's
 network loop does one thing at a time; streams arrive in any order, at most
 once, or never.
 */
module StreamProtocol {
  import opened Options

  type Caller = nat

  datatype Data = Req(request: string) | Resp(response: string)

  datatype Wire = Wire(source: string, target: string, id: string, data: Data)

  /** What a node's loop is doing. */
  datatype Pc =
    | Ready
    | Sending(target: string, id: string, data: Data, caller: Option<Caller>)
    | Registering(id: string, sender: Caller)                 // stream written, reply channel not yet stored
    | Serving(source: string, id: string, request: string)    // waiting for the request handler

  /** One call of `send_stream_request`. */
  datatype Ask = Ask(asker: string, server: string, caller: Caller, request: string)

  /** How far the exchange for one id has got. */
  datatype Stage = AtAsker | ReqOnWire | AtServer | AtReply | RespOnWire | Finished | Gone

  /** Everything that happened under one id; `made` is what the server's handler answered to which request. */
  datatype Exchange = Exchange(ask: Ask, stage: Stage, made: Option<Made>)

  datatype Made = Made(server: string, request: string, response: string)

  datatype Delivery = Delivery(caller: Caller, id: string, response: string)

  datatype Net = Net(
    pcs: map<string, Pc>,                      // nodes not listed are ready
    pending: map<(string, string), Caller>,    // by node and id: `pending_stream_requests`
    wires: set<Wire>,
    log: map<string, Exchange>,                // by id
    answers: seq<Delivery>)

  function PcOf(n: Net, node: string): Pc { if node in n.pcs then n.pcs[node] else Ready }

  function Advance(n: Net, id: string, stage: Stage): map<string, Exchange> {
    if id in n.log then n.log[id := n.log[id].(stage := stage)] else n.log
  }

  datatype Step =
    | Call(node: string, server: string, id: string, request: string, caller: Caller)
    | Write(node: string, ok: bool)
    | Store(node: string)
    | Receive(wire: Wire)
    | Lose(wire: Wire)
    | Handle(node: string, response: string)

  predicate Enabled(n: Net, step: Step) {
    match step
    case Call(node, _, id, _, caller) =>
      PcOf(n, node).Ready? && id !in n.log && forall i :: i in n.log ==> n.log[i].ask.caller != caller
    case Write(node, _) => PcOf(n, node).Sending?
    case Store(node) => PcOf(n, node).Registering?
    case Receive(wire) => wire in n.wires && PcOf(n, wire.target).Ready?
    case Lose(wire) => wire in n.wires
    case Handle(node, _) => PcOf(n, node).Serving?
  }

  function AfterWrite(n: Net, node: string, ok: bool): Net
    requires PcOf(n, node).Sending?
  {
    var Sending(target, id, data, caller) := PcOf(n, node);
    if !ok then n.(pcs := n.pcs[node := Ready], log := Advance(n, id, Gone))
    else n.(wires := n.wires + {Wire(node, target, id, data)},
            pcs := n.pcs[node := if caller.Some? then Registering(id, caller.value) else Ready],
            log := Advance(n, id, if data.Req? then ReqOnWire else RespOnWire))
  }

  function AfterReceive(n: Net, wire: Wire): Net {
    var m := n.(wires := n.wires - {wire});
    match wire.data
    case Req(request) =>
      m.(pcs := n.pcs[wire.target := Serving(wire.source, wire.id, request)], log := Advance(n, wire.id, AtServer))
    case Resp(response) =>
      var key := (wire.target, wire.id);
      if key in n.pending
      then m.(pending := n.pending - {key},
              answers := n.answers + [Delivery(n.pending[key], wire.id, response)],
              log := Advance(n, wire.id, Finished))
      else m.(log := Advance(n, wire.id, Gone))
  }

  function Apply(n: Net, step: Step): Net {
    if !Enabled(n, step) then n else
    match step
    case Call(node, server, id, request, caller) =>
      n.(pcs := n.pcs[node := Sending(server, id, Req(request), Some(caller))],
         log := n.log[id := Exchange(Ask(node, server, caller, request), AtAsker, None)])
    case Write(node, ok) => AfterWrite(n, node, ok)
    case Store(node) =>
      var Registering(id, caller) := PcOf(n, node);
      n.(pending := n.pending[(node, id) := caller], pcs := n.pcs[node := Ready])
    case Receive(wire) => AfterReceive(n, wire)
    case Lose(wire) => n.(wires := n.wires - {wire}, log := Advance(n, wire.id, Gone))
    case Handle(node, response) =>
      var Serving(source, id, request) := PcOf(n, node);
      n.(pcs := n.pcs[node := Sending(source, id, Resp(response), None)],
         log := if id in n.log
                then n.log[id := n.log[id].(stage := AtReply, made := Some(Made(node, request, response)))]
                else n.log)
  }

  function Exec(n: Net, steps: seq<Step>): Net
    decreases |steps|
  {
    if steps == [] then n else Exec(Apply(n, steps[0]), steps[1..])
  }

  const START := Net(map[], map[], {}, map[], [])

  // ---- The invariant ----

  /** What a loop is doing agrees with the exchange it is about. */
  predicate LoopAgrees(node: string, pc: Pc, x: Exchange)
    requires !pc.Ready?
  {
    match pc
    case Sending(target, _, Req(request), caller) =>
      x.stage == AtAsker && caller.Some? && x.ask == Ask(node, target, caller.value, request)
    case Sending(target, _, Resp(response), caller) =>
      && x.stage == AtReply && caller.None?
      && x.ask.asker == target && x.ask.server == node && x.made.Some? && x.made.value.response == response
    case Registering(_, caller) => x.stage != AtAsker && x.ask.asker == node && x.ask.caller == caller
    case Serving(source, _, request) =>
      x.stage == AtServer && x.ask.asker == source && x.ask.server == node && x.ask.request == request
  }

  predicate WireAgrees(w: Wire, x: Exchange) {
    match w.data
    case Req(request) =>
      x.stage == ReqOnWire && x.ask.asker == w.source && x.ask.server == w.target && x.ask.request == request
    case Resp(response) =>
      && x.stage == RespOnWire && x.ask.asker == w.target && x.ask.server == w.source
      && x.made.Some? && x.made.value.response == response
  }

  predicate Travelling(x: Exchange) { x.stage in {ReqOnWire, AtServer, AtReply, RespOnWire} }

  predicate MadeAgrees(x: Exchange) {
    x.made.Some? ==>
      && x.made.value.server == x.ask.server && x.made.value.request == x.ask.request
      && x.stage in {AtReply, RespOnWire, Finished, Gone}
  }

  ghost predicate LoopsAgree(n: Net) {
    forall p :: p in n.pcs && !n.pcs[p].Ready? ==> n.pcs[p].id in n.log && LoopAgrees(p, n.pcs[p], n.log[n.pcs[p].id])
  }

  ghost predicate WiresAgree(n: Net) {
    forall w :: w in n.wires ==> w.id in n.log && WireAgrees(w, n.log[w.id])
  }

  /** From the moment a request is on the wire its id is stored, or about to be before that loop does anything else. */
  ghost predicate IdsAreStored(n: Net) {
    && (forall id :: id in n.log && Travelling(n.log[id]) ==>
          var ask := n.log[id].ask;
          PcOf(n, ask.asker) == Registering(id, ask.caller) || (ask.asker, id) in n.pending)
    && (forall key :: key in n.pending ==>
          key.1 in n.log && n.log[key.1].ask.asker == key.0 && n.log[key.1].ask.caller == n.pending[key])
  }

  ghost predicate LogAgrees(n: Net) {
    && (forall id :: id in n.log ==> MadeAgrees(n.log[id]))
    && (forall i, j :: i in n.log && j in n.log && n.log[i].ask.caller == n.log[j].ask.caller ==> i == j)
  }

  predicate DeliveryAgrees(d: Delivery, x: Exchange) {
    x.stage == Finished && x.made.Some? && d.caller == x.ask.caller && d.response == x.made.value.response
  }

  ghost predicate AnswersAgree(n: Net) {
    && (forall k :: 0 <= k < |n.answers| ==>
          n.answers[k].id in n.log && DeliveryAgrees(n.answers[k], n.log[n.answers[k].id]))
    && (forall k, l :: 0 <= k < l < |n.answers| ==> n.answers[k].id != n.answers[l].id)
  }

  ghost predicate Traffic(n: Net) { LogAgrees(n) && LoopsAgree(n) && WiresAgree(n) }

  ghost predicate Inv(n: Net) {
    Traffic(n) && IdsAreStored(n) && AnswersAgree(n)
  }

  // ---- Every step keeps it ----

  lemma CallKeepsTraffic(n: Net, step: Step)
    requires Inv(n) && step.Call? && Enabled(n, step)
    ensures Traffic(Apply(n, step))
  {}

  lemma CallKeepsStored(n: Net, step: Step)
    requires Inv(n) && step.Call? && Enabled(n, step)
    ensures IdsAreStored(Apply(n, step)) && AnswersAgree(Apply(n, step))
  {}

  lemma FailedWriteKeepsTraffic(n: Net, step: Step)
    requires Inv(n) && step.Write? && Enabled(n, step) && !step.ok
    ensures Traffic(Apply(n, step))
  {}

  lemma FailedWriteKeepsStored(n: Net, step: Step)
    requires Inv(n) && step.Write? && Enabled(n, step) && !step.ok
    ensures IdsAreStored(Apply(n, step)) && AnswersAgree(Apply(n, step))
  {}

  lemma RequestWriteKeepsTraffic(n: Net, step: Step)
    requires Inv(n) && step.Write? && Enabled(n, step) && step.ok && PcOf(n, step.node).data.Req?
    ensures Traffic(Apply(n, step))
  {}

  lemma RequestWriteKeepsStored(n: Net, step: Step)
    requires Inv(n) && step.Write? && Enabled(n, step) && step.ok && PcOf(n, step.node).data.Req?
    ensures IdsAreStored(Apply(n, step)) && AnswersAgree(Apply(n, step))
  {}

  lemma ResponseWriteKeepsTraffic(n: Net, step: Step)
    requires Inv(n) && step.Write? && Enabled(n, step) && step.ok && PcOf(n, step.node).data.Resp?
    ensures Traffic(Apply(n, step))
  {}

  lemma ResponseWriteKeepsStored(n: Net, step: Step)
    requires Inv(n) && step.Write? && Enabled(n, step) && step.ok && PcOf(n, step.node).data.Resp?
    ensures IdsAreStored(Apply(n, step)) && AnswersAgree(Apply(n, step))
  {}

  lemma StoreKeepsInv(n: Net, step: Step)
    requires Inv(n) && step.Store? && Enabled(n, step)
    ensures Inv(Apply(n, step))
  {}

  lemma ReceiveRequestKeepsTraffic(n: Net, step: Step)
    requires Inv(n) && step.Receive? && Enabled(n, step) && step.wire.data.Req?
    ensures Traffic(Apply(n, step))
  {}

  lemma ReceiveRequestKeepsStored(n: Net, step: Step)
    requires Inv(n) && step.Receive? && Enabled(n, step) && step.wire.data.Req?
    ensures IdsAreStored(Apply(n, step)) && AnswersAgree(Apply(n, step))
  {}

  lemma ReceiveResponseKeepsTraffic(n: Net, step: Step)
    requires Inv(n) && step.Receive? && Enabled(n, step) && step.wire.data.Resp?
    ensures Traffic(Apply(n, step))
  {}

  lemma ReceiveResponseKeepsStored(n: Net, step: Step)
    requires Inv(n) && step.Receive? && Enabled(n, step) && step.wire.data.Resp?
    ensures IdsAreStored(Apply(n, step)) && AnswersAgree(Apply(n, step))
  {}

  lemma LoseKeepsTraffic(n: Net, step: Step)
    requires Inv(n) && step.Lose? && Enabled(n, step)
    ensures Traffic(Apply(n, step))
  {}

  lemma LoseKeepsStored(n: Net, step: Step)
    requires Inv(n) && step.Lose? && Enabled(n, step)
    ensures IdsAreStored(Apply(n, step)) && AnswersAgree(Apply(n, step))
  {}

  lemma HandleKeepsTraffic(n: Net, step: Step)
    requires Inv(n) && step.Handle? && Enabled(n, step)
    ensures Traffic(Apply(n, step))
  {}

  lemma HandleKeepsStored(n: Net, step: Step)
    requires Inv(n) && step.Handle? && Enabled(n, step)
    ensures IdsAreStored(Apply(n, step)) && AnswersAgree(Apply(n, step))
  {}

  lemma {:induction false} RunKeepsInv(n: Net, steps: seq<Step>)
    requires Inv(n)
    ensures Inv(Exec(n, steps))
    decreases |steps|
  {
    if steps != [] {
      var step := steps[0];
      if Enabled(n, step) {
        match step {
          case Call(_, _, _, _, _) =>
            CallKeepsTraffic(n, step);
            CallKeepsStored(n, step);
          case Write(node, ok) =>
            if !ok {
              FailedWriteKeepsTraffic(n, step);
              FailedWriteKeepsStored(n, step);
            } else if PcOf(n, node).data.Req? {
              RequestWriteKeepsTraffic(n, step);
              RequestWriteKeepsStored(n, step);
            } else {
              ResponseWriteKeepsTraffic(n, step);
              ResponseWriteKeepsStored(n, step);
            }
          case Store(_) => StoreKeepsInv(n, step);
          case Receive(wire) =>
            if wire.data.Req? {
              ReceiveRequestKeepsTraffic(n, step);
              ReceiveRequestKeepsStored(n, step);
            } else {
              ReceiveResponseKeepsTraffic(n, step);
              ReceiveResponseKeepsStored(n, step);
            }
          case Lose(_) =>
            LoseKeepsTraffic(n, step);
            LoseKeepsStored(n, step);
          case Handle(_, _) =>
            HandleKeepsTraffic(n, step);
            HandleKeepsStored(n, step);
        }
      }
      RunKeepsInv(Apply(n, step), steps[1..]);
    }
  }

  // ---- Main results ----

  /**
   For every interleaving: a delivered response is the one the asked server's
   handler made for that caller's request, and no caller gets two.
   */
  lemma ResponsesAreCorrelated(steps: seq<Step>, k: nat, l: nat)
    ensures var n := Exec(START, steps);
            && (k < |n.answers| ==>
                  && var d := n.answers[k];
                  && d.id in n.log
                  && var x := n.log[d.id];
                  && x.ask.caller == d.caller
                  && x.made == Some(Made(x.ask.server, x.ask.request, d.response)))
            && (k < l < |n.answers| ==> n.answers[k].caller != n.answers[l].caller)
  {
    RunKeepsInv(START, steps);
  }

  /** Whenever a loop is about to process a response, its id is stored, with the right caller. */
  lemma IdIsStoredBeforeItsResponse(steps: seq<Step>, wire: Wire)
    ensures var n := Exec(START, steps);
            Enabled(n, Receive(wire)) && wire.data.Resp? ==>
              && (wire.target, wire.id) in n.pending
              && wire.id in n.log && n.pending[(wire.target, wire.id)] == n.log[wire.id].ask.caller
  {
    RunKeepsInv(START, steps);
  }

  /**
   A response whose id is unknown to the node, or that repeats one already
   processed there, changes no pending entry, no answer and no loop, whatever
   state the network is in and whoever sent it.
   */
  lemma UnknownOrRepeatedIdChangesNothing(n: Net, first: Wire, wire: Wire)
    requires wire.data.Resp? && first.data.Resp?
    requires (wire.target, wire.id) !in n.pending || (first.target == wire.target && first.id == wire.id)
    ensures var m := if (wire.target, wire.id) in n.pending then AfterReceive(n, first) else n;
            var after := AfterReceive(m, wire);
            after.pending == m.pending && after.answers == m.answers && after.pcs == m.pcs
  {}

  /**
   In every run, a response that a loop can process is delivered at once, and exactly
   once, to the caller that asked: nothing else is answered and no other entry goes.
   */
  lemma ReceivedResponseIsDelivered(steps: seq<Step>, wire: Wire)
    ensures var n := Exec(START, steps);
            Enabled(n, Receive(wire)) && wire.data.Resp? ==>
              && wire.id in n.log
              && var after := Apply(n, Receive(wire));
              && after.answers == n.answers + [Delivery(n.log[wire.id].ask.caller, wire.id, wire.data.response)]
              && after.pending == n.pending - {(wire.target, wire.id)}
              && after.wires == n.wires - {wire} && after.pcs == n.pcs
  {
    RunKeepsInv(START, steps);
  }

  /**
   Writing a stream puts exactly that message on the wire and, for a request, leaves
   its id to be stored next; a stream that cannot be written changes nothing but ends
   the exchange, and its id is never stored for it.
   */
  lemma WriteEffect(n: Net, node: string, ok: bool)
    requires Enabled(n, Write(node, ok))
    ensures var after, pc := Apply(n, Write(node, ok)), PcOf(n, node);
            && after.pending == n.pending && after.answers == n.answers
            && (forall p :: p != node ==> PcOf(after, p) == PcOf(n, p))
            && (!ok ==> after.wires == n.wires && PcOf(after, node).Ready?)
            && (ok ==>
                  && after.wires == n.wires + {Wire(node, pc.target, pc.id, pc.data)}
                  && PcOf(after, node) == (if pc.caller.Some? then Registering(pc.id, pc.caller.value) else Ready))
  {}

  // The undisturbed exchange: the request travels, the server's handler answers, the response travels back

  function RequestSteps(node: string, server: string, id: string, request: string, caller: Caller): seq<Step> {
    [Call(node, server, id, request, caller), Write(node, true), Store(node),
     Receive(Wire(node, server, id, Req(request)))]
  }

  function ResponseSteps(node: string, server: string, id: string, response: string): seq<Step> {
    [Handle(server, response), Write(server, true), Receive(Wire(server, node, id, Resp(response)))]
  }

  lemma ExecThree(n: Net, steps: seq<Step>)
    requires |steps| == 3
    ensures Exec(n, steps) == Apply(Apply(Apply(n, steps[0]), steps[1]), steps[2])
  {
    var n1 := Apply(n, steps[0]);
    ExecCons(n, steps);
    ExecCons(n1, steps[1..]);
    ExecCons(Apply(n1, steps[1]), steps[1..][1..]);
  }

  lemma ExecCons(n: Net, steps: seq<Step>)
    requires steps != []
    ensures Exec(n, steps) == Exec(Apply(n, steps[0]), steps[1..])
  {}

  lemma ExecFour(n: Net, steps: seq<Step>)
    requires |steps| == 4
    ensures Exec(n, steps) == Apply(Apply(Apply(Apply(n, steps[0]), steps[1]), steps[2]), steps[3])
  {
    ExecCons(n, steps);
    ExecThree(Apply(n, steps[0]), steps[1..]);
  }

  /** From any state with both loops ready, an undisturbed exchange delivers the server's answer to the caller. */
  lemma ExchangeCompletes(n: Net, node: string, server: string, id: string, request: string, response: string,
                          caller: Caller)
    requires Enabled(n, Call(node, server, id, request, caller)) && PcOf(n, server).Ready?
    requires forall w :: w in n.wires ==> w.id != id
    ensures var asked := Exec(n, RequestSteps(node, server, id, request, caller));
            var end := Exec(asked, ResponseSteps(node, server, id, response));
            && asked.pending == n.pending[(node, id) := caller] && asked.answers == n.answers
            && end.answers == n.answers + [Delivery(caller, id, response)]
            && end.wires == n.wires && end.pending == n.pending - {(node, id)}
            && PcOf(end, node).Ready? && PcOf(end, server).Ready?
  {
    var asked := RequestArrives(n, node, server, id, request, caller);
    var end := ResponseReturns(asked, node, server, id, request, response, caller);
    assert n.pending[(node, id) := caller] - {(node, id)} == n.pending - {(node, id)};
  }

  lemma RequestArrives(n: Net, node: string, server: string, id: string, request: string, caller: Caller)
    returns (after: Net)
    requires Enabled(n, Call(node, server, id, request, caller)) && PcOf(n, server).Ready?
    requires forall w :: w in n.wires ==> w.id != id
    ensures after == Exec(n, RequestSteps(node, server, id, request, caller))
    ensures PcOf(after, server) == Serving(node, id, request) && (node != server ==> PcOf(after, node).Ready?)
    ensures after.pending == n.pending[(node, id) := caller] && after.wires == n.wires && after.answers == n.answers
  {
    var n1 := Apply(n, Call(node, server, id, request, caller));
    var n2 := Apply(n1, Write(node, true));
    assert n2.wires == n.wires + {Wire(node, server, id, Req(request))};
    var n3 := Apply(n2, Store(node));
    after := Apply(n3, Receive(Wire(node, server, id, Req(request))));
    ExecFour(n, RequestSteps(node, server, id, request, caller));
  }

  lemma ResponseReturns(n: Net, node: string, server: string, id: string, request: string, response: string,
                        caller: Caller) returns (end: Net)
    requires PcOf(n, server) == Serving(node, id, request) && (node != server ==> PcOf(n, node).Ready?)
    requires (node, id) in n.pending && n.pending[(node, id)] == caller
    requires forall w :: w in n.wires ==> w.id != id
    ensures end == Exec(n, ResponseSteps(node, server, id, response))
    ensures end.answers == n.answers + [Delivery(caller, id, response)]
    ensures end.wires == n.wires && end.pending == n.pending - {(node, id)}
    ensures PcOf(end, node).Ready? && PcOf(end, server).Ready?
  {
    var n1 := Apply(n, Handle(server, response));
    var n2 := Apply(n1, Write(server, true));
    assert n2.wires == n.wires + {Wire(server, node, id, Resp(response))};
    end := Apply(n2, Receive(Wire(server, node, id, Resp(response))));
    ExecThree(n, ResponseSteps(node, server, id, response));
  }
}
