/**
 Reply channels are linear: over every run of callers, loop and swarm, each
 channel is in exactly one place, is answered at most once and for the query it
 was registered for, and the `expect`s on pending entries never fail.
 */
module ReplyChannels {
  import opened EventLoop
  import opened Options

  // ---- Callers, loop and swarm ----

  datatype World = World(
    queue: seq<Command>,             // sent by callers, not yet taken by the loop
    loop: Loop,
    created: set<Channel>,           // every channel a caller has made
    askedFor: map<Channel, Slot>,    // where each channel was registered
    openRequests: set<nat>,          // outbound requests without a terminal event yet
    openProvides: set<nat>)          // provide queries without a terminal event yet

  datatype Step =
    | Submit(command: Command)
    | Process(i: nat, outcome: Outcome)
    | Occur(event: Event)

  /** The swarm's ids and the callers' uuids are new; dials are keyed by peer and may recur. */
  predicate FreshSlot(w: World, slot: Slot) {
    slot.Dialing? || slot !in w.askedFor.Values
  }

  predicate Enabled(w: World, step: Step) {
    w.loop.panic.None? &&
    match step
    case Submit(command) => Sender(command).Some? ==> Sender(command).value !in w.created
    case Process(i, outcome) =>
      i < |w.queue| &&
      (SlotFor(w.queue[i], outcome).Some? ==> FreshSlot(w, SlotFor(w.queue[i], outcome).value))
    case Occur(GotResponse(request, _)) => request in w.openRequests
    case Occur(OutboundFailure(request)) => request in w.openRequests
    case Occur(StartProvidingOk(query)) => query in w.openProvides
    case Occur(StartProvidingError(query)) => query in w.openProvides
    case Occur(_) => true
  }

  function AfterProcess(w: World, i: nat, outcome: Outcome): World
    requires i < |w.queue|
  {
    var command := w.queue[i];
    var slot := SlotFor(command, outcome);
    var registers := slot.Some? && !(command.Dial? && Dialing(command.peer) in w.loop.pending);
    w.(queue := w.queue[..i] + w.queue[i + 1..],
       loop := OnCommand(w.loop, command, outcome),
       askedFor := if registers then w.askedFor[Sender(command).value := slot.value] else w.askedFor,
       openRequests := if command.Request? then w.openRequests + {outcome.id} else w.openRequests,
       openProvides := if command.StartProviding? && outcome.ok then w.openProvides + {outcome.id} else w.openProvides)
  }

  function Apply(w: World, step: Step): World {
    if !Enabled(w, step) then w else
    match step
    case Submit(command) =>
      w.(queue := w.queue + [command],
         created := if Sender(command).Some? then w.created + {Sender(command).value} else w.created)
    case Process(i, outcome) => AfterProcess(w, i, outcome)
    case Occur(event) =>
      w.(loop := OnEvent(w.loop, event),
         openRequests := if event.GotResponse? || event.OutboundFailure? then w.openRequests - {event.request}
                         else w.openRequests,
         openProvides := if event.StartProvidingOk? || event.StartProvidingError? then w.openProvides - {event.query}
                         else w.openProvides)
  }

  function Exec(w: World, steps: seq<Step>): World
    decreases |steps|
  {
    if steps == [] then w else Exec(Apply(w, steps[0]), steps[1..])
  }

  const START := World([], Loop(map[], [], [], None), {}, map[], {}, {})

  // ---- Counting channels ----

  function One(b: bool): nat { if b then 1 else 0 }

  /** How often `c` occurs in the queued commands, the answers, the dropped senders, the pending maps. */
  function Carried(queue: seq<Command>, c: Channel): nat {
    if queue == [] then 0
    else Carried(queue[..|queue| - 1], c) + One(Sender(queue[|queue| - 1]) == Some(c))
  }

  function Answered(answers: seq<Answer>, c: Channel): nat {
    if answers == [] then 0
    else Answered(answers[..|answers| - 1], c) + One(answers[|answers| - 1].channel == c)
  }

  function Dropped(dropped: seq<Channel>, c: Channel): nat {
    if dropped == [] then 0
    else Dropped(dropped[..|dropped| - 1], c) + One(dropped[|dropped| - 1] == c)
  }

  ghost function Held(pending: map<Slot, Channel>, c: Channel): nat
    decreases |pending|
  {
    if pending == map[] then 0
    else
      var s :| s in pending;
      One(pending[s] == c) + Held(pending - {s}, c)
  }

  ghost function InLoop(l: Loop, c: Channel): nat {
    Held(l.pending, c) + Answered(l.answers, c) + Dropped(l.dropped, c)
  }

  lemma {:induction false} HeldRemove(pending: map<Slot, Channel>, s: Slot, c: Channel)
    requires s in pending
    ensures Held(pending, c) == One(pending[s] == c) + Held(pending - {s}, c)
    decreases |pending|
  {
    var t :| t in pending && Held(pending, c) == One(pending[t] == c) + Held(pending - {t}, c);
    if t != s {
      HeldRemove(pending - {t}, s, c);
      HeldRemove(pending - {s}, t, c);
      assert pending - {t} - {s} == pending - {s} - {t};
    }
  }

  lemma HeldInsert(pending: map<Slot, Channel>, s: Slot, x: Channel, c: Channel)
    ensures Held(pending[s := x], c) + One(s in pending && pending[s] == c) == Held(pending, c) + One(x == c)
  {
    HeldRemove(pending[s := x], s, c);
    assert pending[s := x] - {s} == pending - {s};
    if s in pending {
      HeldRemove(pending, s, c);
    } else {
      assert pending - {s} == pending;
    }
  }

  lemma AnsweredAppend(answers: seq<Answer>, a: Answer, c: Channel)
    ensures Answered(answers + [a], c) == Answered(answers, c) + One(a.channel == c)
  {
    assert (answers + [a])[..|answers|] == answers;
  }

  lemma DroppedAppend(dropped: seq<Channel>, x: Channel, c: Channel)
    ensures Dropped(dropped + [x], c) == Dropped(dropped, c) + One(x == c)
  {
    assert (dropped + [x])[..|dropped|] == dropped;
  }

  lemma CarriedAppend(queue: seq<Command>, command: Command, c: Channel)
    ensures Carried(queue + [command], c) == Carried(queue, c) + One(Sender(command) == Some(c))
  {
    assert (queue + [command])[..|queue|] == queue;
  }

  lemma RemoveSplits(queue: seq<Command>, i: nat)
    requires i + 1 < |queue|
    ensures var n := |queue| - 1;
            queue[..i] + queue[i + 1..] == queue[..n][..i] + queue[..n][i + 1..] + [queue[n]]
  {}

  lemma {:induction false} CarriedRemove(queue: seq<Command>, i: nat, c: Channel)
    requires i < |queue|
    ensures Carried(queue, c) == Carried(queue[..i] + queue[i + 1..], c) + One(Sender(queue[i]) == Some(c))
  {
    var n := |queue| - 1;
    if i == n {
      assert queue[..i] + queue[i + 1..] == queue[..n];
    } else {
      CarriedRemove(queue[..n], i, c);
      RemoveSplits(queue, i);
      CarriedAppend(queue[..n][..i] + queue[..n][i + 1..], queue[n], c);
    }
  }

  /** An event only moves channels from pending to answered. */
  lemma EventMoves(l: Loop, e: Event, c: Channel)
    ensures InLoop(OnEvent(l, e), c) == InLoop(l, c)
  {
    if EventSlot(e).Some? && EventSlot(e).value in l.pending {
      var slot := EventSlot(e).value;
      HeldRemove(l.pending, slot, c);
      AnsweredAppend(l.answers, Answer(Some(slot), l.pending[slot], EventReply(e)), c);
    }
  }

  /** A command puts its channel into exactly one place and loses none. */
  lemma CommandPlaces(l: Loop, command: Command, o: Outcome, c: Channel)
    ensures InLoop(OnCommand(l, command, o), c) == InLoop(l, c) + One(Sender(command) == Some(c))
  {
    if command.Dial? && Dialing(command.peer) in l.pending {
      DroppedAppend(l.dropped, command.sender, c);
    } else if SlotFor(command, o).Some? {
      var slot := SlotFor(command, o).value;
      HeldInsert(l.pending, slot, Sender(command).value, c);
      if slot in l.pending {
        DroppedAppend(l.dropped, l.pending[slot], c);
      }
    } else if command.StartListening? || command.Dial? {
      var reply := if command.StartListening? && o.ok then Done else Failed;
      AnsweredAppend(l.answers, Answer(None, command.sender, reply), c);
    } else if command.StartProviding? || command.PutKV? || (command.SendInStream? && command.replyTo.Some?) {
      DroppedAppend(l.dropped, Sender(command).value, c);
    }
  }

  // ---- The invariants ----

  ghost predicate Linear(w: World, c: Channel) {
    Carried(w.queue, c) + InLoop(w.loop, c) == One(c in w.created)
  }

  lemma ProcessKeepsLinear(w: World, i: nat, outcome: Outcome, c: Channel)
    requires Linear(w, c) && i < |w.queue|
    ensures Linear(AfterProcess(w, i, outcome), c)
  {
    var after := AfterProcess(w, i, outcome);
    assert after.queue == w.queue[..i] + w.queue[i + 1..] && after.loop == OnCommand(w.loop, w.queue[i], outcome);
    CarriedRemove(w.queue, i, c);
    CommandPlaces(w.loop, w.queue[i], outcome, c);
  }

  lemma SubmitKeepsLinear(w: World, command: Command, c: Channel)
    requires Linear(w, c) && Enabled(w, Submit(command))
    ensures Linear(Apply(w, Submit(command)), c)
  {
    CarriedAppend(w.queue, command, c);
  }

  lemma OccurKeepsLinear(w: World, event: Event, c: Channel)
    requires Linear(w, c)
    ensures Linear(Apply(w, Occur(event)), c)
  {
    EventMoves(w.loop, event, c);
  }

  lemma StepKeepsLinear(w: World, step: Step, c: Channel)
    requires Linear(w, c)
    ensures Linear(Apply(w, step), c)
  {
    if Enabled(w, step) {
      match step {
        case Submit(command) => SubmitKeepsLinear(w, command, c);
        case Process(i, outcome) => ProcessKeepsLinear(w, i, outcome, c);
        case Occur(event) => OccurKeepsLinear(w, event, c);
      }
    }
  }

  /** Channels sit where they were registered. */
  ghost predicate Attributed(w: World) {
    && (forall s :: s in w.loop.pending ==> w.loop.pending[s] in w.askedFor && w.askedFor[w.loop.pending[s]] == s)
    && (forall i :: 0 <= i < |w.loop.answers| && w.loop.answers[i].slot.Some? ==>
          && w.loop.answers[i].channel in w.askedFor
          && w.askedFor[w.loop.answers[i].channel] == w.loop.answers[i].slot.value)
  }

  /** A slot other than a dial belongs to one channel. */
  ghost predicate OneOwner(w: World) {
    forall c, d | c in w.askedFor && d in w.askedFor ::
      w.askedFor[c] == w.askedFor[d] && !w.askedFor[c].Dialing? ==> c == d
  }

  /** Queued channels are distinct, known and not registered yet. */
  ghost predicate QueueIsNew(w: World) {
    && w.askedFor.Keys <= w.created
    && (forall i :: 0 <= i < |w.queue| && Sender(w.queue[i]).Some? ==>
          Sender(w.queue[i]).value !in w.askedFor && Sender(w.queue[i]).value in w.created)
    && (forall i, j :: 0 <= i < j < |w.queue| && Sender(w.queue[i]).Some? ==> Sender(w.queue[i]) != Sender(w.queue[j]))
  }

  ghost predicate Expected(w: World) {
    && (forall r :: r in w.openRequests ==> Requesting(r) in w.loop.pending)
    && (forall q :: q in w.openProvides ==> Providing(q) in w.loop.pending)
    && w.loop.panic != Some(MissingEntry)
  }

  ghost predicate AnswersAreKnown(w: World) {
    forall i :: 0 <= i < |w.loop.answers| ==> w.loop.answers[i].channel in w.created
  }

  ghost predicate Inv(w: World) {
    Attributed(w) && OneOwner(w) && QueueIsNew(w) && Expected(w) && AnswersAreKnown(w)
  }

  lemma SubmitKeepsInv(w: World, step: Step)
    requires Inv(w) && step.Submit? && Enabled(w, step)
    ensures Inv(Apply(w, step))
  {}

  lemma OccurKeepsInv(w: World, step: Step)
    requires Inv(w) && step.Occur? && Enabled(w, step)
    ensures Inv(Apply(w, step))
  {}

  lemma ProcessKeepsQueue(w: World, i: nat, outcome: Outcome)
    requires QueueIsNew(w) && i < |w.queue|
    ensures QueueIsNew(AfterProcess(w, i, outcome))
  {
    var after := AfterProcess(w, i, outcome);
    assert forall k :: 0 <= k < |after.queue| ==> after.queue[k] == w.queue[if k < i then k else k + 1];
  }

  lemma ProcessKeepsAttributed(w: World, i: nat, outcome: Outcome)
    requires Inv(w) && Enabled(w, Process(i, outcome))
    ensures Attributed(AfterProcess(w, i, outcome))
  {}

  lemma ProcessKeepsOneOwner(w: World, i: nat, outcome: Outcome)
    requires Inv(w) && Enabled(w, Process(i, outcome))
    ensures OneOwner(AfterProcess(w, i, outcome))
  {}

  lemma ProcessKeepsExpected(w: World, i: nat, outcome: Outcome)
    requires Inv(w) && Enabled(w, Process(i, outcome))
    ensures Expected(AfterProcess(w, i, outcome))
  {}

  lemma ProcessKeepsKnown(w: World, i: nat, outcome: Outcome)
    requires Inv(w) && Enabled(w, Process(i, outcome))
    ensures AnswersAreKnown(AfterProcess(w, i, outcome))
  {}

  lemma ProcessKeepsInv(w: World, i: nat, outcome: Outcome)
    requires Inv(w) && Enabled(w, Process(i, outcome))
    ensures Inv(AfterProcess(w, i, outcome))
  {
    ProcessKeepsQueue(w, i, outcome);
    ProcessKeepsAttributed(w, i, outcome);
    ProcessKeepsOneOwner(w, i, outcome);
    ProcessKeepsExpected(w, i, outcome);
    ProcessKeepsKnown(w, i, outcome);
  }

  lemma StepKeepsInv(w: World, step: Step)
    requires Inv(w)
    ensures Inv(Apply(w, step))
  {
    if Enabled(w, step) {
      match step {
        case Submit(_) => SubmitKeepsInv(w, step);
        case Process(i, outcome) => ProcessKeepsInv(w, i, outcome);
        case Occur(_) => OccurKeepsInv(w, step);
      }
    }
  }

  lemma {:induction false} RunKeepsInv(w: World, steps: seq<Step>)
    requires Inv(w)
    ensures Inv(Exec(w, steps))
    decreases |steps|
  {
    if steps != [] {
      StepKeepsInv(w, steps[0]);
      RunKeepsInv(Apply(w, steps[0]), steps[1..]);
    }
  }

  lemma {:induction false} RunKeepsLinear(w: World, steps: seq<Step>, c: Channel)
    requires Linear(w, c)
    ensures Linear(Exec(w, steps), c)
    decreases |steps|
  {
    if steps != [] {
      StepKeepsLinear(w, steps[0], c);
      RunKeepsLinear(Apply(w, steps[0]), steps[1..], c);
    }
  }

  // ---- Main results ----

  /**
   In every reachable state each channel is in exactly one place: in a queued
   command, in one entry of one pending map, answered once, or dropped.
   */
  lemma ChannelsAreLinear(steps: seq<Step>, c: Channel)
    ensures var w := Exec(START, steps);
            Carried(w.queue, c) + Held(w.loop.pending, c) + Answered(w.loop.answers, c) + Dropped(w.loop.dropped, c)
              == One(c in w.created)
  {
    RunKeepsLinear(START, steps, c);
  }

  lemma {:induction false} AnsweredTwice(answers: seq<Answer>, i: nat, j: nat)
    requires i < j < |answers| && answers[i].channel == answers[j].channel
    ensures Answered(answers, answers[i].channel) >= 2
  {
    var n := |answers| - 1;
    if j < n {
      AnsweredTwice(answers[..n], i, j);
    } else {
      AnsweredOnce(answers[..n], i);
    }
  }

  lemma {:induction false} AnsweredOnce(answers: seq<Answer>, i: nat)
    requires i < |answers|
    ensures Answered(answers, answers[i].channel) >= 1
  {
    var n := |answers| - 1;
    if i < n {
      AnsweredOnce(answers[..n], i);
    }
  }

  /**
   However many progress events arrive for a query, it is answered at most once,
   and to the caller whose command registered it.
   */
  lemma OneAnswerPerQuery(steps: seq<Step>, i: nat, j: nat)
    ensures var w := Exec(START, steps);
            var answers := w.loop.answers;
            && (i < |answers| && answers[i].slot.Some? ==>
                  && answers[i].channel in w.askedFor
                  && w.askedFor[answers[i].channel] == answers[i].slot.value)
            && (i < j < |answers| ==> answers[i].channel != answers[j].channel)
            && (i < j < |answers| && answers[i].slot.Some? && !answers[i].slot.value.Dialing? ==>
                  answers[i].slot != answers[j].slot)
  {
    RunKeepsInv(START, steps);
    var answers := Exec(START, steps).loop.answers;
    if i < j < |answers| {
      ChannelsAreLinear(steps, answers[i].channel);
      if answers[i].channel == answers[j].channel {
        AnsweredTwice(answers, i, j);
        assert false;
      }
    }
  }

  /**
   With fresh ids and one terminal event per outbound request or provide query,
   the pending maps contain every outstanding id, so no `expect` on a pending
   entry fails in any run.
   */
  lemma ExpectedEntriesArePresent(steps: seq<Step>)
    ensures var w := Exec(START, steps);
            && (forall r :: r in w.openRequests ==> Requesting(r) in w.loop.pending)
            && (forall q :: q in w.openProvides ==> Providing(q) in w.loop.pending)
            && w.loop.panic != Some(MissingEntry)
  {
    RunKeepsInv(START, steps);
  }

  // ---- Which channels are answered at all ----

  predicate HasAnswer(l: Loop, c: Channel) {
    exists i :: 0 <= i < |l.answers| && l.answers[i].channel == c
  }

  /** The swarm reports on the entry `slot`. */
  predicate Reports(w: World, step: Step, slot: Slot) {
    Enabled(w, step) && step.Occur? && EventSlot(step.event) == Some(slot)
  }

  predicate SomeReport(w: World, steps: seq<Step>, slot: Slot)
    decreases |steps|
  {
    steps != [] && (Reports(w, steps[0], slot) || SomeReport(Apply(w, steps[0]), steps[1..], slot))
  }

  lemma StepAnswersIff(w: World, step: Step, slot: Slot, c: Channel)
    requires Inv(w) && slot in w.loop.pending && w.loop.pending[slot] == c && !HasAnswer(w.loop, c)
    ensures var after := Apply(w, step);
            && (HasAnswer(after.loop, c) <==> Reports(w, step, slot))
            && (!Reports(w, step, slot) ==> slot in after.loop.pending && after.loop.pending[slot] == c)
  {
    if Enabled(w, step) {
      match step {
        case Submit(_) =>
        case Process(i, outcome) => ProcessAnswersOthers(w, i, outcome, slot, c);
        case Occur(event) => EventAnswersIff(w, event, slot, c);
      }
    }
  }

  lemma ProcessAnswersOthers(w: World, i: nat, outcome: Outcome, slot: Slot, c: Channel)
    requires Inv(w) && Enabled(w, Process(i, outcome))
    requires slot in w.loop.pending && w.loop.pending[slot] == c && !HasAnswer(w.loop, c)
    ensures var after := AfterProcess(w, i, outcome);
            !HasAnswer(after.loop, c) && slot in after.loop.pending && after.loop.pending[slot] == c
  {
    assert c in w.askedFor && w.askedFor[c] == slot;
    assert Sender(w.queue[i]) != Some(c);
  }

  lemma EventAnswersIff(w: World, event: Event, slot: Slot, c: Channel)
    requires Inv(w) && Enabled(w, Occur(event))
    requires slot in w.loop.pending && w.loop.pending[slot] == c && !HasAnswer(w.loop, c)
    ensures var after := Apply(w, Occur(event));
            && (HasAnswer(after.loop, c) <==> EventSlot(event) == Some(slot))
            && (EventSlot(event) != Some(slot) ==> slot in after.loop.pending && after.loop.pending[slot] == c)
  {
    var after := OnEvent(w.loop, event);
    if EventSlot(event) == Some(slot) {
      assert after.answers[|w.loop.answers|].channel == c;
    } else if EventSlot(event).Some? && EventSlot(event).value in w.loop.pending {
      var other := EventSlot(event).value;
      assert w.askedFor[w.loop.pending[other]] == other && w.askedFor[c] == slot;
    }
  }

  /**
   A registered channel is answered in a run exactly when the swarm reports on its
   entry during the run, whatever else is asked, answered or dropped.
   */
  lemma {:induction false} AnsweredIffReported(w: World, steps: seq<Step>, slot: Slot, c: Channel)
    requires Inv(w) && slot in w.loop.pending && w.loop.pending[slot] == c && !HasAnswer(w.loop, c)
    ensures HasAnswer(Exec(w, steps).loop, c) <==> SomeReport(w, steps, slot)
    ensures !SomeReport(w, steps, slot) ==>
              slot in Exec(w, steps).loop.pending && Exec(w, steps).loop.pending[slot] == c
    decreases |steps|
  {
    if steps != [] {
      StepKeepsInv(w, steps[0]);
      StepAnswersIff(w, steps[0], slot, c);
      if Reports(w, steps[0], slot) {
        AnswersStay(Apply(w, steps[0]), steps[1..], c);
      } else {
        AnsweredIffReported(Apply(w, steps[0]), steps[1..], slot, c);
      }
    }
  }

  lemma {:induction false} AnswersStay(w: World, steps: seq<Step>, c: Channel)
    requires HasAnswer(w.loop, c)
    ensures HasAnswer(Exec(w, steps).loop, c)
    decreases |steps|
  {
    if steps != [] {
      var i :| 0 <= i < |w.loop.answers| && w.loop.answers[i].channel == c;
      assert Apply(w, steps[0]).loop.answers[i].channel == c;
      AnswersStay(Apply(w, steps[0]), steps[1..], c);
    }
  }

  /** A new provide query: its channel is pending, unanswered, and its terminal event is still to come. */
  lemma NewQueryIsPending(w: World, key: string, c: Channel, q: nat) returns (after: World)
    requires Inv(w) && w.loop.panic.None? && c !in w.created && FreshSlot(w, Providing(q))
    ensures after == Apply(Apply(w, Submit(StartProviding(key, c))), Process(|w.queue|, Outcome(q, true)))
    ensures Inv(after) && after.loop.panic.None? && q in after.openProvides
    ensures Providing(q) in after.loop.pending && after.loop.pending[Providing(q)] == c && !HasAnswer(after.loop, c)
  {
    var mid := Apply(w, Submit(StartProviding(key, c)));
    StepKeepsInv(w, Submit(StartProviding(key, c)));
    after := Apply(mid, Process(|w.queue|, Outcome(q, true)));
    StepKeepsInv(mid, Process(|w.queue|, Outcome(q, true)));
  }

  /** A provide query that has had its terminal event gets no other. */
  lemma {:induction false} EndedQueryIsNotReported(w: World, steps: seq<Step>, q: nat)
    requires Inv(w) && Providing(q) in w.loop.pending && q !in w.openProvides
    ensures !SomeReport(w, steps, Providing(q))
    decreases |steps|
  {
    if steps != [] {
      StepKeepsInv(w, steps[0]);
      StepKeepsEnded(w, steps[0], q);
      EndedQueryIsNotReported(Apply(w, steps[0]), steps[1..], q);
    }
  }

  /** A query that is over, whichever way, is never opened again. */
  lemma StepKeepsClosed(w: World, step: Step, q: nat)
    requires Inv(w) && Providing(q) in w.askedFor.Values && q !in w.openProvides
    ensures Providing(q) in Apply(w, step).askedFor.Values && q !in Apply(w, step).openProvides
  {
    var c :| c in w.askedFor && w.askedFor[c] == Providing(q);
    assert c in Apply(w, step).askedFor && Apply(w, step).askedFor[c] == Providing(q);
  }

  lemma StepKeepsEnded(w: World, step: Step, q: nat)
    requires Inv(w) && Providing(q) in w.loop.pending && q !in w.openProvides
    ensures var after := Apply(w, step);
            Providing(q) in after.loop.pending && q !in after.openProvides && !Reports(w, step, Providing(q))
  {
    assert w.loop.pending[Providing(q)] in w.askedFor;
    assert Providing(q) in w.askedFor.Values;
  }

  /** In every reachable state a pending channel has not been answered. */
  lemma PendingIsUnanswered(steps: seq<Step>, slot: Slot)
    ensures var l := Exec(START, steps).loop;
            slot in l.pending ==> !HasAnswer(l, l.pending[slot])
  {
    var l := Exec(START, steps).loop;
    if slot in l.pending {
      var c := l.pending[slot];
      ChannelsAreLinear(steps, c);
      HeldRemove(l.pending, slot, c);
      if HasAnswer(l, c) {
        var i :| 0 <= i < |l.answers| && l.answers[i].channel == c;
        AnsweredOnce(l.answers, i);
        assert false;
      }
    }
  }

  /**
   The failure of a provide query is only logged: whatever happened before and
   whatever happens from then on, its caller's channel stays in the pending map,
   neither answered nor dropped.
   */
  lemma FailedProvideIsNeverAnswered(before: seq<Step>, q: nat, after: seq<Step>)
    ensures var w := Exec(START, before);
            Enabled(w, Occur(StartProvidingError(q))) ==>
              && Providing(q) in w.loop.pending
              && var c := w.loop.pending[Providing(q)];
                 var end := Exec(Apply(w, Occur(StartProvidingError(q))), after);
                 && Providing(q) in end.loop.pending && end.loop.pending[Providing(q)] == c
                 && !HasAnswer(end.loop, c)
  {
    var w := Exec(START, before);
    RunKeepsInv(START, before);
    if Enabled(w, Occur(StartProvidingError(q))) {
      PendingIsUnanswered(before, Providing(q));
      var failed := Apply(w, Occur(StartProvidingError(q)));
      StepKeepsInv(w, Occur(StartProvidingError(q)));
      EndedQueryIsNotReported(failed, after, q);
      AnsweredIffReported(failed, after, Providing(q), w.loop.pending[Providing(q)]);
    }
  }

  // ---- Which event answers which command ----

  /** The reply a caller is due when `e` follows its command, read off the client's methods alone. */
  function DueReply(c: Command, o: Outcome, e: Event): Option<Reply> {
    match c
    case Dial(peer, _) =>
      if e == ConnectionEstablished(peer, true) then Some(Done)
      else if e == OutgoingConnectionError(Some(peer)) then Some(Failed) else None
    case StartProviding(_, _) => if e == StartProvidingOk(o.id) then Some(Done) else None
    case GetProviders(_, _) =>
      if e.FoundProviders? && e.query == o.id then Some(Providers(e.peers))
      else if e == GetProvidersError(o.id) then Some(Providers({})) else None
    case PutKV(_, _) =>
      if e == PutRecordOk(o.id) then Some(Done) else if e == PutRecordError(o.id) then Some(Failed) else None
    case GetValue(_, _) =>
      if e.FoundRecord? && e.query == o.id then Some(Value(e.bytes))
      else if e == GetRecordError(o.id) then Some(Failed) else None
    case Request(_, _) =>
      if e.GotResponse? && e.request == o.id then Some(Response(e.payload))
      else if e == OutboundFailure(o.id) then Some(Failed) else None
    case SendInStream(_, id, _) =>
      if e.StreamResponse? && e.id == id then Some(Response(e.payload)) else None
    case _ => None
  }

  /**
   For every command that registered a new entry and every next event: the caller
   is answered, with exactly the reply due, if and only if one is due; then the
   pending maps are back to what they were before the command.
   */
  lemma EventAnswersItsCommand(l: Loop, c: Command, o: Outcome, e: Event)
    requires l.panic.None? && SlotFor(c, o).Some? && SlotFor(c, o).value !in l.pending
    requires forall s :: s in l.pending ==> l.pending[s] != Sender(c).value
    ensures var after := OnEvent(OnCommand(l, c, o), e);
            var due := DueReply(c, o, e);
            && (due.Some? ==>
                  && after.pending == l.pending && after.dropped == l.dropped && after.panic.None?
                  && |after.answers| == |l.answers| + 1
                  && after.answers[|l.answers|].channel == Sender(c).value
                  && after.answers[|l.answers|].reply == due.value)
            && (due.None? && |after.answers| > |l.answers| ==>
                  after.answers[|l.answers|].channel != Sender(c).value)
  {
    var slot := SlotFor(c, o).value;
    var mid := OnCommand(l, c, o);
    assert mid.pending == l.pending[slot := Sender(c).value];
    assert mid.pending - {slot} == l.pending;
    assert DueReply(c, o, e).Some? <==> EventSlot(e) == Some(slot);
  }

  /**
   What a command does at once: it is answered only if listening is asked for or a
   dial is refused; it aborts the loop where the code insists on success, losing its
   channel; a stream that cannot be written loses it silently; any other command
   waits in the map of its kind, under the id it was given.
   */
  lemma CommandEffect(l: Loop, c: Command, o: Outcome)
    requires l.panic.None? && (SlotFor(c, o).Some? ==> SlotFor(c, o).value !in l.pending || c.Dial?)
    ensures var after := OnCommand(l, c, o);
            match c
            case StartListening(_, ch) =>
              after == l.(answers := l.answers + [Answer(None, ch, if o.ok then Done else Failed)])
            case Dial(peer, ch) =>
              if Dialing(peer) in l.pending then after == l.(panic := Some(AlreadyDialing), dropped := l.dropped + [ch])
              else if o.ok then after == l.(pending := l.pending[Dialing(peer) := ch])
              else after == l.(answers := l.answers + [Answer(None, ch, Failed)])
            case StartProviding(_, ch) =>
              if o.ok then after == l.(pending := l.pending[Providing(o.id) := ch])
              else after == l.(panic := Some(StoreError), dropped := l.dropped + [ch])
            case StopProviding(_) => after == l
            case GetProviders(_, ch) => after == l.(pending := l.pending[FindingProviders(o.id) := ch])
            case PutKV(_, ch) =>
              if o.ok then after == l.(pending := l.pending[PuttingKv(o.id) := ch])
              else after == l.(panic := Some(StoreError), dropped := l.dropped + [ch])
            case GetValue(_, ch) => after == l.(pending := l.pending[GettingValue(o.id) := ch])
            case Request(_, ch) => after == l.(pending := l.pending[Requesting(o.id) := ch])
            case Respond => after == if o.ok then l else l.(panic := Some(ConnectionClosed))
            case SendInStream(_, _, None) => after == l
            case SendInStream(_, id, Some(ch)) =>
              if o.ok then after == l.(pending := l.pending[Streaming(id) := ch])
              else after == l.(dropped := l.dropped + [ch])
  {}

  /** An event whose entry is missing aborts the loop exactly for the three kinds the code insists on. */
  lemma MissingEntryAbortsIff(l: Loop, e: Event)
    requires l.panic.None?
    ensures OnEvent(l, e).panic == Some(MissingEntry) <==>
              || (e.GotResponse? && Requesting(e.request) !in l.pending)
              || (e.OutboundFailure? && Requesting(e.request) !in l.pending)
              || (e.StartProvidingOk? && Providing(e.query) !in l.pending)
    ensures EventSlot(e).None? || (EventSlot(e).value !in l.pending && !EntryExpected(e)) ==> OnEvent(l, e) == l
  {}

  /** Without that discipline one does: after any event for a request, another terminal event for it aborts the loop. */
  lemma SecondTerminalEventAborts(l: Loop, request: nat, payload: string)
    requires l.panic.None?
    ensures OnEvent(OnEvent(l, OutboundFailure(request)), GotResponse(request, payload)).panic == Some(MissingEntry)
  {}
}
