/**
 The network loop and the request handler loop of one node wait on each other
 through two rendezvous channels (both `mpsc::channel(0)`): the network loop
 offers events and, for stream requests, waits for the answer; some handler arms
 offer commands, and those that provide a key also wait for the reply channel of
 their query. The pending maps behind that channel are those of `ReplyChannels`,
 which all other callers of the node use at the same time.
 */
module LoopWaits {
  import EventLoop
  import Net = ReplyChannels

  datatype Mode = Provider | Client

  /** The events the handler loop takes; `stored` is whether the table insert succeeded. */
  datatype Event =
    | Request(n: nat)
    | StreamRequest(n: nat)
    | ProvideFile(stored: bool)
    | StopProvidingFile
    | StartProxy(mode: Mode, running: bool)
    | StopProxy(mode: Mode)

  /** What the arm of an event asks of the network loop: nothing, a command, or a query whose end it awaits. */
  datatype Call = NoCall | Command | ProvideQuery

  /** (`respond`, `start_providing`, `stop_providing`) */
  function CallOf(e: Event): Call {
    match e
    case Request(_) => Command
    case StreamRequest(_) => NoCall
    case ProvideFile(stored) => if stored then ProvideQuery else NoCall
    case StopProvidingFile => Command
    case StartProxy(mode, running) => if mode == Provider && !running then ProvideQuery else NoCall
    case StopProxy(mode) => if mode == Provider then Command else NoCall
  }

  /** Arms that call the network client. */
  predicate CallsNetwork(e: Event) { !CallOf(e).NoCall? }

  datatype Loop =
    | Ready
    | Offering(event: Event)     // `event_sender.send(..).await`
    | Awaiting(n: nat)           // `receiver.await` for the answer to stream request n
    | Replying(n: nat)           // sending that answer back in a stream

  datatype Handler =
    | Idle
    | Calling(event: Event)                               // `sender.send(..).await`
    | Querying(event: Event, channel: nat, query: nat)    // `receiver.await` for the end of the query
    | Finishing(event: Event)

  datatype Node = Node(
    loop: Loop, handler: Handler,
    net: Net.World,              // pending maps, answers and queued commands of all callers
    forwarded: seq<nat>,         // stream requests handed to the handler
    responded: seq<nat>,         // answers the network loop got back
    next: nat)                   // number of the next incoming request

  datatype Step =
    | Arrive(stream: bool)       // an incoming request reaches the network loop
    | TakeOffered                // the handler takes the event the network loop offers
    | TakeLocal(event: Event)    // the handler takes an event from an endpoint or the command line
    | Serve(channel: nat, query: nat)   // the network loop takes the command of the arm
    | Finish                     // the arm ends
    | SendReply                  // the network loop finishes a stream reply
    | Network(act: Net.Step)    // another caller submits a command, or the network loop serves one or an event

  function Provided(w: Net.World, channel: nat, query: nat): Net.World {
    Net.Apply(Net.Apply(w, Net.Submit(EventLoop.StartProviding("", channel))),
              Net.Process(|w.queue|, EventLoop.Outcome(query, true)))
  }

  /** A network loop that has aborted serves nobody; the node ends there. */
  predicate Enabled(s: Node, step: Step) {
    s.net.loop.panic.None? &&
    match step
    case Arrive(_) => s.loop.Ready?
    case TakeOffered => s.loop.Offering? && s.handler.Idle?
    case TakeLocal(event) => s.handler.Idle? && !event.Request? && !event.StreamRequest?
    case Serve(channel, query) =>
      && s.loop.Ready? && s.handler.Calling?
      && (CallOf(s.handler.event).ProvideQuery? ==>
            channel !in s.net.created && Net.FreshSlot(s.net, EventLoop.Providing(query)))
    case Finish => s.handler.Finishing? || (s.handler.Querying? && Net.HasAnswer(s.net.loop, s.handler.channel))
    case SendReply => s.loop.Replying?
    case Network(act) => act.Submit? || s.loop.Ready?
  }

  function Apply(s: Node, step: Step): Node {
    if !Enabled(s, step) then s else
    match step
    case Arrive(stream) =>
      s.(loop := Offering(if stream then StreamRequest(s.next) else Request(s.next)), next := s.next + 1)
    case TakeOffered =>
      var event := s.loop.event;
      s.(loop := if event.StreamRequest? then Awaiting(event.n) else Ready,
         handler := if CallsNetwork(event) then Calling(event) else Finishing(event),
         forwarded := if event.StreamRequest? then s.forwarded + [event.n] else s.forwarded)
    case TakeLocal(event) => s.(handler := if CallsNetwork(event) then Calling(event) else Finishing(event))
    case Serve(channel, query) =>
      if CallOf(s.handler.event).ProvideQuery?
      then s.(handler := Querying(s.handler.event, channel, query), net := Provided(s.net, channel, query))
      else s.(handler := Finishing(s.handler.event))
    case Finish =>
      var event := s.handler.event;
      if event.StreamRequest? && s.loop == Awaiting(event.n)
      then s.(handler := Idle, loop := Replying(event.n), responded := s.responded + [event.n])
      else s.(handler := Idle)
    case SendReply => s.(loop := Ready)
    case Network(act) => s.(net := Net.Apply(s.net, act))
  }

  function Exec(s: Node, steps: seq<Step>): Node
    decreases |steps|
  {
    if steps == [] then s else Exec(Apply(s, steps[0]), steps[1..])
  }

  const START := Node(Ready, Idle, Net.START, [], [], 0)

  // ---- Waiting ----

  /** The network loop cannot go on before the handler does something. */
  predicate LoopWaitsOnHandler(s: Node) { s.loop.Offering? || s.loop.Awaiting? }

  /** The handler cannot go on before the network loop does something. */
  predicate HandlerWaitsOnLoop(s: Node) {
    s.handler.Calling? || (s.handler.Querying? && !Net.HasAnswer(s.net.loop, s.handler.channel))
  }

  predicate MutualWait(s: Node) { LoopWaitsOnHandler(s) && HandlerWaitsOnLoop(s) }

  // ---- The invariant ----

  /** Stream requests: the handler works on exactly the one the network loop waits for. */
  ghost predicate Streams(s: Node) {
    && (s.handler.Finishing? && s.handler.event.StreamRequest? ==> s.loop == Awaiting(s.handler.event.n))
    && (s.loop.Awaiting? ==> s.handler == Finishing(StreamRequest(s.loop.n)))
    && s.forwarded == s.responded + (if s.loop.Awaiting? then [s.loop.n] else [])
    && (forall i :: 0 <= i < |s.forwarded| ==> s.forwarded[i] < s.next)
    && (forall i, j :: 0 <= i < j < |s.forwarded| ==> s.forwarded[i] < s.forwarded[j])
    && (s.loop.Offering? && s.loop.event.StreamRequest? ==>
          s.loop.event.n < s.next && forall i :: 0 <= i < |s.forwarded| ==> s.forwarded[i] < s.loop.event.n)
    && (s.loop.Offering? ==> s.loop.event.StreamRequest? || s.loop.event.Request?)
  }

  /** A call is made by an arm that makes one; an awaited channel is pending for its query or answered. */
  ghost predicate Calls(s: Node) {
    && (s.handler.Calling? ==> CallsNetwork(s.handler.event))
    && (s.handler.Querying? ==>
          && CallOf(s.handler.event).ProvideQuery?
          && (|| Net.HasAnswer(s.net.loop, s.handler.channel)
              || IsPending(s.net, s.handler.query, s.handler.channel)))
  }

  predicate IsPending(w: Net.World, query: nat, channel: nat) {
    EventLoop.Providing(query) in w.loop.pending && w.loop.pending[EventLoop.Providing(query)] == channel
  }

  ghost predicate Inv(s: Node) { Net.Inv(s.net) && Streams(s) && Calls(s) }

  lemma NetworkStepKeepsInv(s: Node, step: Net.Step)
    requires Inv(s)
    ensures Net.Inv(Net.Apply(s.net, step)) && Calls(s.(net := Net.Apply(s.net, step)))
  {
    Net.StepKeepsInv(s.net, step);
    if s.handler.Querying? {
      var c := s.handler.channel;
      if Net.HasAnswer(s.net.loop, c) {
        Net.AnswersStay(s.net, [step], c);
        assert Net.Exec(s.net, [step]) == Net.Apply(s.net, step);
      } else {
        Net.StepAnswersIff(s.net, step, EventLoop.Providing(s.handler.query), c);
      }
    }
  }

  lemma ServeKeepsInv(s: Node, step: Step)
    requires Inv(s) && step.Serve? && Enabled(s, step)
    ensures Inv(Apply(s, step))
  {
    if CallOf(s.handler.event).ProvideQuery? {
      var after := Net.NewQueryIsPending(s.net, "", step.channel, step.query);
    }
  }

  lemma StepKeepsInv(s: Node, step: Step)
    requires Inv(s)
    ensures Inv(Apply(s, step))
  {
    match step {
      case Network(net) => NetworkStepKeepsInv(s, net);
      case Serve(_, _) =>
        if Enabled(s, step) {
          ServeKeepsInv(s, step);
        }
      case _ =>
    }
  }

  lemma {:induction false} RunKeepsInv(s: Node, steps: seq<Step>)
    requires Inv(s)
    ensures Inv(Exec(s, steps))
    decreases |steps|
  {
    if steps != [] {
      StepKeepsInv(s, steps[0]);
      RunKeepsInv(Apply(s, steps[0]), steps[1..]);
    }
  }

  // ---- Stream requests ----

  /** No event but stream requests reaches the handler; other callers may use the network as they like. */
  predicate StreamsOnly(steps: seq<Step>) {
    forall i :: 0 <= i < |steps| ==> !steps[i].TakeLocal? && (steps[i].Arrive? ==> steps[i].stream)
  }

  predicate OnlyStreamsSeen(s: Node) {
    && (s.loop.Offering? ==> s.loop.event.StreamRequest?)
    && (s.handler.Idle? || (s.handler.Finishing? && s.handler.event.StreamRequest?))
  }

  lemma {:induction false} StreamRunsSeeOnlyStreams(s: Node, steps: seq<Step>)
    requires OnlyStreamsSeen(s) && StreamsOnly(steps)
    ensures OnlyStreamsSeen(Exec(s, steps))
    decreases |steps|
  {
    if steps != [] {
      StreamRunsSeeOnlyStreams(Apply(s, steps[0]), steps[1..]);
    }
  }

  /**
   In every run the forwarded stream requests are answered in order, each exactly
   once, at most the last one still being worked on.
   */
  lemma ForwardedRequestsAreAnsweredOnce(steps: seq<Step>)
    ensures var s := Exec(START, steps);
            && s.forwarded == s.responded + (if s.loop.Awaiting? then [s.loop.n] else [])
            && forall i, j :: 0 <= i < j < |s.forwarded| ==> s.forwarded[i] != s.forwarded[j]
  {
    RunKeepsInv(START, steps);
  }

  /** Serving only stream requests, the two loops never wait on each other. */
  lemma StreamRunsNeverDeadlock(steps: seq<Step>)
    requires StreamsOnly(steps)
    ensures !MutualWait(Exec(START, steps))
  {
    StreamRunsSeeOnlyStreams(START, steps);
  }

  /** ... and the network loop is ready again after at most three more steps, with everything answered. */
  lemma StreamRunsComplete(steps: seq<Step>)
    requires StreamsOnly(steps)
    ensures var s := Exec(START, steps);
            var done := Apply(Apply(Apply(s, TakeOffered), Finish), SendReply);
            s.net.loop.panic.None? ==> done.loop.Ready? && done.handler.Idle? && done.forwarded == done.responded
  {
    RunKeepsInv(START, steps);
    StreamRunsSeeOnlyStreams(START, steps);
    if Exec(START, steps).net.loop.panic.None? {
      Settles(Exec(START, steps));
    }
  }

  lemma Settles(s: Node)
    requires Inv(s) && OnlyStreamsSeen(s) && s.net.loop.panic.None?
    ensures var done := Apply(Apply(Apply(s, TakeOffered), Finish), SendReply);
            done.loop.Ready? && done.handler.Idle? && done.forwarded == done.responded
  {
    var taken := Apply(s, TakeOffered);
    StepKeepsInv(s, TakeOffered);
    assert taken.loop.Ready? || taken.loop.Awaiting? || taken.loop.Replying?;
    var answered := Apply(taken, Finish);
    assert answered.handler.Idle? && answered.forwarded == answered.responded;
  }

  // ---- Mutual waits ----

  /** A mutual wait always has the handler in an arm that itself waits on the network loop. */
  lemma MutualWaitNeedsANetworkArm(steps: seq<Step>)
    ensures var s := Exec(START, steps);
            MutualWait(s) ==> s.loop.Offering? && CallsNetwork(s.handler.event) && !s.handler.event.StreamRequest?
  {
    RunKeepsInv(START, steps);
  }

  /**
   The two ways into a mutual wait, both decided before the step: a request arrives
   while the handler waits on the network loop, or the handler takes an event whose
   arm calls the network while a request is on offer.
   */
  predicate Locks(s: Node, step: Step) {
    && Enabled(s, step)
    && (|| (step.Arrive? && HandlerWaitsOnLoop(s))
        || (step.TakeLocal? && CallsNetwork(step.event) && s.loop.Offering?))
  }

  predicate SomeLock(s: Node, steps: seq<Step>)
    decreases |steps|
  {
    steps != [] && (Locks(s, steps[0]) || SomeLock(Apply(s, steps[0]), steps[1..]))
  }

  lemma StepLocksIff(s: Node, step: Step)
    requires Inv(s)
    ensures MutualWait(Apply(s, step)) <==> MutualWait(s) || Locks(s, step)
  {
    if step.Serve? && Enabled(s, step) {
      assert Apply(s, step).loop.Ready?;
    }
  }

  /** The loops wait on each other at the end of a run if and only if one of those two things happened in it. */
  lemma {:induction false} MutualWaitIff(s: Node, steps: seq<Step>)
    requires Inv(s)
    ensures MutualWait(Exec(s, steps)) <==> MutualWait(s) || SomeLock(s, steps)
    decreases |steps|
  {
    if steps != [] {
      StepLocksIff(s, steps[0]);
      StepKeepsInv(s, steps[0]);
      MutualWaitIff(Apply(s, steps[0]), steps[1..]);
      if MutualWait(s) {
        MutualWaitIsForever(s, steps);
      }
    }
  }

  /** Once both wait they do so for ever: neither moves, and no request is forwarded or answered any more. */
  lemma {:induction false} MutualWaitIsForever(s: Node, steps: seq<Step>)
    requires MutualWait(s)
    ensures var end := Exec(s, steps);
            && MutualWait(end) && end.loop == s.loop && end.handler == s.handler && end.net.loop == s.net.loop
            && end.forwarded == s.forwarded && end.responded == s.responded && end.next == s.next
    decreases |steps|
  {
    if steps != [] {
      MutualWaitIsForever(Apply(s, steps[0]), steps[1..]);
    }
  }

  /** While an arm waits on the network loop, any incoming request, of either kind, locks both loops for good. */
  lemma IncomingRequestLocksNetworkArm(s: Node, stream: bool, steps: seq<Step>)
    requires Enabled(s, Arrive(stream)) && HandlerWaitsOnLoop(s)
    ensures var locked := Exec(Apply(s, Arrive(stream)), steps);
            MutualWait(locked) && locked.responded == s.responded
  {
    MutualWaitIsForever(Apply(s, Arrive(stream)), steps);
  }

  /** While a request is on offer, any local event whose arm calls the network does the same. */
  lemma LocalEventLocksOfferedRequest(s: Node, event: Event, steps: seq<Step>)
    requires Enabled(s, TakeLocal(event)) && CallsNetwork(event) && s.loop.Offering?
    ensures var locked := Exec(Apply(s, TakeLocal(event)), steps);
            MutualWait(locked) && locked.responded == s.responded
  {
    MutualWaitIsForever(Apply(s, TakeLocal(event)), steps);
  }

  /** Exactly these local events lock a request on offer, and exactly these are locked by the next request. */
  lemma LockingEvents(s: Node, e: Event, stream: bool)
    requires Enabled(s, TakeLocal(e))
    ensures var locking := e == ProvideFile(true) || e == StopProvidingFile
                           || e == StartProxy(Provider, false) || e == StopProxy(Provider);
            && (s.loop.Offering? ==> (MutualWait(Apply(s, TakeLocal(e))) <==> locking))
            && (s.loop.Ready? ==> (MutualWait(Apply(Apply(s, TakeLocal(e)), Arrive(stream))) <==> locking))
  {}

  /**
   An offered plain request has its arm wait on the network loop, so that the next
   request locks both; an offered stream request does not, and is answered by the
   arm's end.
   */
  lemma OfferedRequests(s: Node, stream: bool)
    requires Enabled(s, TakeOffered)
    ensures s.loop.event.Request? ==> MutualWait(Apply(Apply(s, TakeOffered), Arrive(stream)))
    ensures s.loop.event.StreamRequest? ==>
              && !HandlerWaitsOnLoop(Apply(s, TakeOffered))
              && Apply(Apply(s, TakeOffered), Finish)
                   == s.(loop := Replying(s.loop.event.n), forwarded := s.forwarded + [s.loop.event.n],
                         responded := s.responded + [s.loop.event.n])
  {}

  /** Once its command is taken, exactly the arms that provide a key wait on. */
  lemma ServedArms(s: Node, channel: nat, query: nat)
    requires Inv(s) && Enabled(s, Serve(channel, query))
    ensures HandlerWaitsOnLoop(Apply(s, Serve(channel, query)))
            <==> s.handler.event == ProvideFile(true) || s.handler.event == StartProxy(Provider, false)
  {
    if CallOf(s.handler.event).ProvideQuery? {
      var asked := ServedQueryWaits(s, channel, query);
    }
  }

  lemma ExecTwo(s: Node, a: Step, b: Step)
    ensures Exec(s, [a, b]) == Apply(Apply(s, a), b)
  {
    assert [a, b][1..] == [b];
    assert Exec(Apply(s, a), [b]) == Exec(Apply(Apply(s, a), b), []);
  }

  lemma ExecThree(s: Node, a: Step, b: Step, c: Step)
    ensures Exec(s, [a, b, c]) == Apply(Apply(Apply(s, a), b), c)
  {
    assert [a, b, c][1..] == [b, c];
    ExecTwo(Apply(s, a), b, c);
  }

  /** Two plain requests in quick succession are enough, and so are one request and one local event. */
  lemma TwoRequestsDeadlock()
    ensures MutualWait(Exec(START, [Arrive(false), TakeOffered, Arrive(false)]))
    ensures MutualWait(Exec(START, [Arrive(false), TakeLocal(ProvideFile(true))]))
  {
    ExecThree(START, Arrive(false), TakeOffered, Arrive(false));
    ExecTwo(START, Arrive(false), TakeLocal(ProvideFile(true)));
  }

  // ---- Queries that never end ----

  /** The swarm reports the success of the provide query `query`. */
  predicate Succeeds(s: Node, step: Step, query: nat) {
    Enabled(s, step) && step.Network? && Net.Reports(s.net, step.act, EventLoop.Providing(query))
  }

  predicate SomeSuccess(s: Node, steps: seq<Step>, query: nat)
    decreases |steps|
  {
    steps != [] && (Succeeds(s, steps[0], query) || SomeSuccess(Apply(s, steps[0]), steps[1..], query))
  }

  /** An arm waiting for its query is released in a run exactly when the swarm reports the query's success in it. */
  lemma {:induction false} QueryReturnsIff(s: Node, steps: seq<Step>)
    requires Inv(s) && s.handler.Querying? && HandlerWaitsOnLoop(s)
    ensures var end := Exec(s, steps);
            && (Net.HasAnswer(end.net.loop, s.handler.channel) <==> SomeSuccess(s, steps, s.handler.query))
            && (!SomeSuccess(s, steps, s.handler.query) ==> end.handler == s.handler && HandlerWaitsOnLoop(end))
    decreases |steps|
  {
    if steps != [] {
      var c, after := s.handler.channel, Apply(s, steps[0]);
      StepKeepsInv(s, steps[0]);
      if Enabled(s, steps[0]) && steps[0].Network? {
        Net.StepAnswersIff(s.net, steps[0].act, EventLoop.Providing(s.handler.query), c);
      }
      if Succeeds(s, steps[0], s.handler.query) {
        ReleaseStays(after, steps[1..], c);
      } else {
        QueryReturnsIff(after, steps[1..]);
      }
    }
  }

  lemma {:induction false} ReleaseStays(s: Node, steps: seq<Step>, c: nat)
    requires Net.HasAnswer(s.net.loop, c)
    ensures Net.HasAnswer(Exec(s, steps).net.loop, c)
    decreases |steps|
  {
    if steps != [] {
      StepKeepsAnswer(s, steps[0], c);
      ReleaseStays(Apply(s, steps[0]), steps[1..], c);
    }
  }

  lemma StepKeepsAnswer(s: Node, step: Step, c: nat)
    requires Net.HasAnswer(s.net.loop, c)
    ensures Net.HasAnswer(Apply(s, step).net.loop, c)
  {
    if Enabled(s, step) && step.Network? {
      Net.AnswersStay(s.net, [step.act], c);
      assert Net.Exec(s.net, [step.act]) == Net.Apply(s.net, step.act);
    } else if Enabled(s, step) && step.Serve? {
      var submit := Net.Submit(EventLoop.StartProviding("", step.channel));
      var process := Net.Process(|s.net.queue|, EventLoop.Outcome(step.query, true));
      Net.AnswersStay(s.net, [submit, process], c);
      assert Net.Exec(s.net, [submit, process]) == Net.Exec(Net.Apply(s.net, submit), [process]);
      assert Net.Exec(Net.Apply(s.net, submit), [process]) == Provided(s.net, step.channel, step.query);
    }
  }

  /** The arm waits for a query that has already had its terminal event: it failed. */
  predicate Stranded(s: Node) {
    s.handler.Querying? && HandlerWaitsOnLoop(s) && s.handler.query !in s.net.openProvides
  }

  /**
   After a failed provide query the handler waits for ever, in every run of every
   other caller and the swarm: it takes no event and answers no request any more.
   The network loop goes on until the next request arrives; then it waits for the
   handler, and both are locked.
   */
  lemma {:induction false} FailedProvideStrandsHandler(s: Node, steps: seq<Step>)
    requires Inv(s) && Stranded(s)
    ensures var end := Exec(s, steps);
            && Stranded(end) && end.handler == s.handler
            && end.forwarded == s.forwarded && end.responded == s.responded
            && (MutualWait(end) <==> end.loop.Offering?)
    decreases |steps|
  {
    RunKeepsInv(s, steps);
    if steps != [] {
      var after, q := Apply(s, steps[0]), s.handler.query;
      StepKeepsInv(s, steps[0]);
      if Enabled(s, steps[0]) && steps[0].Network? {
        Net.StepKeepsEnded(s.net, steps[0].act, q);
        Net.StepAnswersIff(s.net, steps[0].act, EventLoop.Providing(q), s.handler.channel);
      }
      FailedProvideStrandsHandler(after, steps[1..]);
    }
  }

  predicate Fails(s: Node, step: Step, query: nat) {
    && Enabled(s, step) && step == Network(Net.Occur(EventLoop.StartProvidingError(query)))
    && query in s.net.openProvides
  }

  predicate SomeFailure(s: Node, steps: seq<Step>, query: nat)
    decreases |steps|
  {
    steps != [] && (Fails(s, steps[0], query) || SomeFailure(Apply(s, steps[0]), steps[1..], query))
  }

  /** One step of an arm that waits for an open query: it is released, stranded, or waits on. */
  lemma WaitingStep(s: Node, step: Step)
    requires Inv(s) && s.handler.Querying? && HandlerWaitsOnLoop(s) && s.handler.query in s.net.openProvides
    ensures var after, c, q := Apply(s, step), s.handler.channel, s.handler.query;
            && after.handler == s.handler
            && (Net.HasAnswer(after.net.loop, c) <==> Succeeds(s, step, q))
            && (q !in after.net.openProvides <==> Fails(s, step, q) || Succeeds(s, step, q))
            && !(Fails(s, step, q) && Succeeds(s, step, q))
  {
    if Enabled(s, step) && step.Network? {
      Net.StepAnswersIff(s.net, step.act, EventLoop.Providing(s.handler.query), s.handler.channel);
    }
  }

  /** A query that is over fails no more. */
  lemma {:induction false} ClosedQueryDoesNotFail(s: Node, steps: seq<Step>, q: nat)
    requires Inv(s) && EventLoop.Providing(q) in s.net.askedFor.Values && q !in s.net.openProvides
    ensures !SomeFailure(s, steps, q)
    decreases |steps|
  {
    if steps != [] {
      StepKeepsInv(s, steps[0]);
      StepKeepsClosed(s, steps[0], q);
      ClosedQueryDoesNotFail(Apply(s, steps[0]), steps[1..], q);
    }
  }

  lemma StepKeepsClosed(s: Node, step: Step, q: nat)
    requires Inv(s) && EventLoop.Providing(q) in s.net.askedFor.Values && q !in s.net.openProvides
    ensures EventLoop.Providing(q) in Apply(s, step).net.askedFor.Values && q !in Apply(s, step).net.openProvides
  {
    if Enabled(s, step) && step.Network? {
      Net.StepKeepsClosed(s.net, step.act, q);
    } else if Enabled(s, step) && step.Serve? {
      var submit := Net.Submit(EventLoop.StartProviding("", step.channel));
      Net.StepKeepsClosed(s.net, submit, q);
      Net.StepKeepsInv(s.net, submit);
      Net.StepKeepsClosed(Net.Apply(s.net, submit), Net.Process(|s.net.queue|, EventLoop.Outcome(step.query, true)), q);
    }
  }

  /** An arm that waits for its query ends a run stranded in it if and only if the query failed during the run. */
  lemma {:induction false} StrandedIffQueryFailed(s: Node, steps: seq<Step>)
    requires Inv(s) && s.handler.Querying? && HandlerWaitsOnLoop(s) && s.handler.query in s.net.openProvides
    ensures Stranded(Exec(s, steps)) && Exec(s, steps).handler == s.handler <==> SomeFailure(s, steps, s.handler.query)
    decreases |steps|
  {
    if steps != [] {
      var after, q := Apply(s, steps[0]), s.handler.query;
      StepKeepsInv(s, steps[0]);
      WaitingStep(s, steps[0]);
      if Fails(s, steps[0], q) {
        FailedProvideStrandsHandler(after, steps[1..]);
      } else if Succeeds(s, steps[0], q) {
        ReleaseStays(after, steps[1..], s.handler.channel);
        assert s.net.loop.pending[EventLoop.Providing(q)] in s.net.askedFor;
        ClosedQueryDoesNotFail(after, steps[1..], q);
      } else {
        StrandedIffQueryFailed(after, steps[1..]);
      }
    }
  }

  /** Only the arms that provide a key can be stranded: storing a file, or starting the proxy as a provider. */
  lemma OnlyProvidingStrands(s: Node)
    requires Inv(s) && Stranded(s)
    ensures s.handler.event == ProvideFile(true) || s.handler.event == StartProxy(Provider, false)
  {
    assert CallOf(s.handler.event).ProvideQuery?;
  }

  lemma ServedQueryWaits(s: Node, channel: nat, query: nat) returns (asked: Node)
    requires Inv(s) && Enabled(s, Serve(channel, query)) && CallOf(s.handler.event).ProvideQuery?
    ensures asked == Apply(s, Serve(channel, query)) && Inv(asked)
    ensures asked.loop.Ready? && asked.net.loop.panic.None? && query in asked.net.openProvides
    ensures asked.handler == Querying(s.handler.event, channel, query) && HandlerWaitsOnLoop(asked)
  {
    var net := Net.NewQueryIsPending(s.net, "", channel, query);
    asked := Apply(s, Serve(channel, query));
    ServeKeepsInv(s, Serve(channel, query));
  }

  /** And they can, from any state with both loops free: a file is provided and its query fails. */
  lemma ProvidingCanStrand(s: Node, channel: nat, query: nat)
    requires Inv(s) && s.loop.Ready? && s.handler.Idle? && s.net.loop.panic.None?
    requires channel !in s.net.created && Net.FreshSlot(s.net, EventLoop.Providing(query))
    ensures Stranded(Exec(s, [TakeLocal(ProvideFile(true)), Serve(channel, query),
                              Network(Net.Occur(EventLoop.StartProvidingError(query)))]))
  {
    var fail := Network(Net.Occur(EventLoop.StartProvidingError(query)));
    ExecThree(s, TakeLocal(ProvideFile(true)), Serve(channel, query), fail);
    var taken := Apply(s, TakeLocal(ProvideFile(true)));
    StepKeepsInv(s, TakeLocal(ProvideFile(true)));
    var asked := ServedQueryWaits(taken, channel, query);
    WaitingStep(asked, fail);
  }
}
