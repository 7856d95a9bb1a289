/**
 Client, provider, chain and network as one step system. A run is any list of
 steps: statements may fail, messages may be lost, refused or arrive late, other
 clients of the same provider act in between. A step that is not enabled leaves
 the system as it is, so every list of steps is a run.

 Each transfer the client makes opens an attempt whose stage follows it through
 the five places that hold money: the chain, the client's payment rows, the
 session total, the notification and the provider's client row.
 */
module PaymentProtocol {
  import opened Amounts
  import opened Options
  import opened Tables
  import opened PaymentHandler
  import opened PaymentLoop

  /** What stays fixed during a session. */
  datatype Session = Session(
    sessionId: string, clientId: string, token: string,
    clientPeer: string, senderAddress: string, limits: Limits)

  datatype Stage = Transferred | Recorded | Counted | InFlight | Lost | Refused | Credited

  datatype Attempt = Attempt(note: PaymentNotification, stage: Stage)

  datatype System = System(
    client: Client,
    provider: Provider,
    requests: map<nat, Request>,  // pre-payment requests on their way, by request id
    awaited: nat,                 // id of the last one the client sent
    reply: Option<Response>,      // answer to that one, on its way back
    attempts: seq<Attempt>,
    basis: real)                  // usage charge when the provider last answered the awaited request

  datatype Step =
    | MeterAtClient(kb: real, db: bool)
    | MeterAtProvider(kb: real, db: bool)
    | StartRound(db: bool)
    | DeliverPre(id: nat, env: HandlerEnv, replyKept: bool)
    | LosePre(id: nat)
    | TakeReply
    | FailPre
    | PayOnChain(txId: Option<string>)
    | InsertRow(paymentId: string, db: bool)
    | CountRow(db: bool)
    | SendNotice
    | TakeAnswer                  // the answer to the notification arrives
    | GiveUp                      // the notification request fails or times out at the client
    | DeliverNotice(i: nat, env: HandlerEnv)
    | LoseNotice(i: nat)
    | OtherRequest(request: Request, peer: string, env: HandlerEnv)
    | OtherClient(info: ProxyClientInfo, db: bool)

  /** The provider has handled the last notification, one way or the other. */
  predicate LastIsAnswered(attempts: seq<Attempt>) {
    attempts != [] && attempts[|attempts| - 1].stage in {Refused, Credited}
  }

  ghost predicate Enabled(cfg: Session, s: System, step: Step) {
    match step
    case MeterAtClient(kb, _) => kb >= 0.0
    case MeterAtProvider(kb, _) => kb >= 0.0
    case StartRound(_) => s.client.phase.Idle?
    case DeliverPre(id, _, _) => id in s.requests
    case LosePre(id) => id in s.requests
    case TakeReply => s.client.phase.AwaitingPre? && s.reply.Some?
    case FailPre => s.client.phase.AwaitingPre?
    case PayOnChain(_) => s.client.phase.Paying?
    case InsertRow(_, _) => s.client.phase.Recording?
    case CountRow(_) => s.client.phase.Counting?
    case SendNotice => s.client.phase.Notifying?
    case TakeAnswer => s.client.phase.AwaitingPost? && LastIsAnswered(s.attempts)
    case GiveUp => s.client.phase.AwaitingPost?
    case DeliverNotice(i, _) => i < |s.attempts| && s.attempts[i].stage == InFlight
    case LoseNotice(i) => i < |s.attempts| && s.attempts[i].stage == InFlight
    case OtherRequest(request, _, _) => request.authToken != cfg.token
    case OtherClient(_, _) => true
  }

  function SetStage(attempts: seq<Attempt>, i: nat, stage: Stage): seq<Attempt>
    requires i < |attempts|
  {
    attempts[i := attempts[i].(stage := stage)]
  }

  function SetLast(attempts: seq<Attempt>, stage: Stage): seq<Attempt> {
    if attempts == [] then attempts else SetStage(attempts, |attempts| - 1, stage)
  }

  function Charge(c: ProxyClientInfo): real { UsageCharge(c.dataTransferredKb, c.feeRatePerKb) }

  function ChargeOf(cfg: Session, p: Provider): real {
    if cfg.clientId in p.clients then Charge(p.clients[cfg.clientId]) else 0.0
  }

  ghost function AfterDeliverPre(cfg: Session, s: System, id: nat, env: HandlerEnv, kept: bool): System
    requires id in s.requests
  {
    var (provider, response) := HandlePayment(s.provider, s.requests[id], cfg.clientPeer, env, cfg.limits);
    var s1 := s.(provider := provider, requests := s.requests - {id});
    if kept && id == s.awaited && s.client.phase.AwaitingPre? && s.reply.None?
    then s1.(reply := Some(response), basis := ChargeOf(cfg, s.provider)) else s1
  }

  function AfterPayOnChain(cfg: Session, s: System, txId: Option<string>): System
    requires s.client.phase.Paying?
  {
    var request := s.client.phase.request;
    s.(client := Pay(s.client, txId),
       attempts := if txId.None? then s.attempts
                   else s.attempts + [Attempt(Note(request, txId.value, cfg.senderAddress), Transferred)])
  }

  ghost function AfterDeliverNotice(cfg: Session, s: System, i: nat, env: HandlerEnv): System
    requires i < |s.attempts|
  {
    var (provider, response) := HandlePostPayment(s.provider, cfg.token, s.attempts[i].note, env);
    s.(provider := provider,
       attempts := SetStage(s.attempts, i, if response == NullResponse then Credited else Refused))
  }

  ghost function Apply(cfg: Session, s: System, step: Step): System {
    if !Enabled(cfg, s, step) then s else
    match step
    case MeterAtClient(kb, db) =>
      if db then s.(client := s.client.(sessions := MeterSession(s.client.sessions, cfg.sessionId, kb))) else s
    case MeterAtProvider(kb, db) =>
      if db then s.(provider := s.provider.(clients := MeterClient(s.provider.clients, cfg.clientId, kb))) else s
    case StartRound(db) =>
      var client := Tick(s.client, cfg.sessionId, db);
      if client.phase.Idle? then s
      else s.(client := client, awaited := s.awaited + 1,
              requests := s.requests[s.awaited + 1 := PreRequest(client.phase.session)])
    case DeliverPre(id, env, kept) => AfterDeliverPre(cfg, s, id, env, kept)
    case LosePre(id) => s.(requests := s.requests - {id})
    case TakeReply => s.(client := OnPreReply(s.client, s.reply), reply := None)
    case FailPre => s.(client := OnPreReply(s.client, None), reply := None)
    case PayOnChain(txId) => AfterPayOnChain(cfg, s, txId)
    case InsertRow(paymentId, db) =>
      var client := Record(s.client, paymentId, db);
      s.(client := client, attempts := if client.phase.Counting? then SetLast(s.attempts, Recorded) else s.attempts)
    case CountRow(db) =>
      var client := Count(s.client, cfg.sessionId, db);
      s.(client := client, attempts := if client.phase.Notifying? then SetLast(s.attempts, Counted) else s.attempts)
    case SendNotice =>
      s.(client := s.client.(phase := AwaitingPost), attempts := SetLast(s.attempts, InFlight))
    case TakeAnswer => s.(client := s.client.(phase := Idle))
    case GiveUp => s.(client := s.client.(phase := Idle))
    case DeliverNotice(i, env) => AfterDeliverNotice(cfg, s, i, env)
    case LoseNotice(i) => s.(attempts := SetStage(s.attempts, i, Lost))
    case OtherRequest(request, peer, env) =>
      s.(provider := HandlePayment(s.provider, request, peer, env, cfg.limits).0)
    case OtherClient(info, db) =>
      if db then s.(provider := s.provider.(clients := RunOp(s.provider.clients, AddRow(info)))) else s
  }

  ghost function Exec(cfg: Session, s: System, steps: seq<Step>): System
    decreases |steps|
  {
    if steps == [] then s else Exec(cfg, Apply(cfg, s, steps[0]), steps[1..])
  }

  lemma ExecCons(cfg: Session, s: System, steps: seq<Step>)
    requires steps != []
    ensures Exec(cfg, s, steps) == Exec(cfg, Apply(cfg, s, steps[0]), steps[1..])
  {}

  lemma ExecThree(cfg: Session, s: System, steps: seq<Step>)
    requires |steps| == 3
    ensures Exec(cfg, s, steps) == Apply(cfg, Apply(cfg, Apply(cfg, s, steps[0]), steps[1]), steps[2])
  {
    ExecCons(cfg, s, steps);
    ExecCons(cfg, Apply(cfg, s, steps[0]), steps[1..]);
    ExecCons(cfg, Apply(cfg, Apply(cfg, s, steps[0]), steps[1]), steps[1..][1..]);
  }

  lemma {:induction false} ExecConcat(cfg: Session, s: System, xs: seq<Step>, ys: seq<Step>)
    ensures Exec(cfg, s, xs + ys) == Exec(cfg, Exec(cfg, s, xs), ys)
    decreases |xs|
  {
    if xs == [] {
      assert xs + ys == ys;
    } else {
      ExecCons(cfg, s, xs + ys);
      assert (xs + ys)[1..] == xs[1..] + ys;
      ExecConcat(cfg, Apply(cfg, s, xs[0]), xs[1..], ys);
    }
  }

  lemma ExecConcat3(cfg: Session, s: System, xs: seq<Step>, ys: seq<Step>, zs: seq<Step>)
    ensures Exec(cfg, s, xs + ys + zs) == Exec(cfg, Exec(cfg, Exec(cfg, s, xs), ys), zs)
  {
    ExecConcat(cfg, s, xs, ys);
    ExecConcat(cfg, s, xs + ys, zs);
  }

  /** Just after the provide response: both rows are fresh, nothing is on its way. */
  ghost predicate Initial(cfg: Session, s: System) {
    && ValidProvider(s.provider)
    && cfg.clientId in s.provider.clients
    && cfg.sessionId in s.client.sessions
    && var row := s.provider.clients[cfg.clientId];
       var session := s.client.sessions[cfg.sessionId];
    && row.authToken == session.authToken == cfg.token
    && row.totalFeeReceived == row.totalFeeReceivedUnconfirmed == row.dataTransferredKb == 0.0
    && session.totalFeeSent == session.totalFeeSentUnconfirmed == session.dataTransferredKb == 0.0
    && s.client.phase == Idle && s.client.chain == [] && s.attempts == []
    && s.requests == map[] && s.reply == None
  }

  // ---- Sums over attempts ----

  function Part(a: Attempt, stages: set<Stage>): real {
    if a.stage in stages then a.note.amountTransferred else 0.0
  }

  function Total(attempts: seq<Attempt>, stages: set<Stage>): real {
    if attempts == [] then 0.0
    else Total(attempts[..|attempts| - 1], stages) + Part(attempts[|attempts| - 1], stages)
  }

  function ChainTotal(chain: seq<Transfer>): real {
    if chain == [] then 0.0 else ChainTotal(chain[..|chain| - 1]) + chain[|chain| - 1].amount
  }

  function SentAmount(row: PaymentInfo): real {
    if row.category == Send && row.amountBtc.Some? then row.amountBtc.value else 0.0
  }

  // Stages at which the amount is in the client's payment rows, in the session total, unsettled by the provider
  const ON_CHAIN: set<Stage> := {Transferred, Recorded, Counted, InFlight, Lost, Refused, Credited}
  const IN_ROWS: set<Stage> := {Recorded, Counted, InFlight, Lost, Refused, Credited}
  const IN_SESSION: set<Stage> := {Counted, InFlight, Lost, Refused, Credited}
  const UNSETTLED: set<Stage> := {Counted, InFlight, Lost, Refused}

  lemma {:induction false} TotalUpdate(attempts: seq<Attempt>, i: nat, a: Attempt, stages: set<Stage>)
    requires i < |attempts|
    ensures Total(attempts[i := a], stages) == Total(attempts, stages) - Part(attempts[i], stages) + Part(a, stages)
  {
    var n := |attempts| - 1;
    var init := attempts[..n];
    if i == n {
      assert attempts[i := a][..n] == init;
    } else {
      TotalUpdate(init, i, a, stages);
      assert attempts[i := a][..n] == init[i := a];
    }
  }

  lemma TotalAppend(attempts: seq<Attempt>, a: Attempt, stages: set<Stage>)
    ensures Total(attempts + [a], stages) == Total(attempts, stages) + Part(a, stages)
  {
    assert (attempts + [a])[..|attempts|] == attempts;
  }

  lemma ChainAppend(chain: seq<Transfer>, t: Transfer)
    ensures ChainTotal(chain + [t]) == ChainTotal(chain) + t.amount
  {
    assert (chain + [t])[..|chain|] == chain;
  }

  /** Totals of non-negative amounts: monotone in the stages, additive on disjoint ones. */
  lemma {:induction false} TotalSplit(attempts: seq<Attempt>, small: set<Stage>, rest: set<Stage>)
    requires forall i :: 0 <= i < |attempts| ==> attempts[i].note.amountTransferred >= 0.0
    requires small !! rest
    ensures Total(attempts, small + rest) == Total(attempts, small) + Total(attempts, rest)
    ensures Total(attempts, rest) >= 0.0
  {
    if attempts != [] {
      TotalSplit(attempts[..|attempts| - 1], small, rest);
    }
  }

  // ---- The invariant ----

  ghost predicate Identities(cfg: Session, s: System) {
    && ValidProvider(s.provider)
    && cfg.clientId in s.provider.clients
    && s.provider.clients[cfg.clientId].authToken == cfg.token
    && cfg.sessionId in s.client.sessions
    && s.client.sessions[cfg.sessionId].authToken == cfg.token
    && (s.client.phase.AwaitingPre? ==> s.client.phase.session.authToken == cfg.token)
    && (forall id :: id in s.requests ==> s.requests[id].PrePaymentRequest? && s.requests[id].authToken == cfg.token)
  }

  predicate Implemented(reply: Option<Response>) {
    reply.Some? && reply.value.PrePaymentReply? ==> !Unimplemented(reply.value.decision)
  }

  ghost predicate Phases(cfg: Session, s: System) {
    && var n := |s.attempts|;
       var phase := s.client.phase;
    && (s.reply.Some? ==> phase.AwaitingPre?)
    && (s.reply.Some? && s.reply.value.PrePaymentReply? && s.reply.value.decision.Accepted? ==>
          WholeAmount(s.reply.value.decision.request.amountToSend))
    && (phase.Paying? ==> WholeAmount(phase.request.amountToSend))
    && (phase.Recording? || phase.Counting? || phase.Notifying? ==>
          && n > 0
          && s.attempts[n - 1].note == Note(phase.request, phase.txId, cfg.senderAddress))
    && (phase.Recording? ==> s.attempts[n - 1].stage == Transferred)
    && (phase.Counting? ==> s.attempts[n - 1].stage == Recorded)
    && (phase.Notifying? ==> s.attempts[n - 1].stage == Counted)
    && (forall i :: 0 <= i < n ==> WholeAmount(s.attempts[i].note.amountTransferred))
    && (AllowancesCoverTermination(cfg.limits) ==> Implemented(s.reply) && !phase.Panicked?)
  }

  /** The five places that hold money, each as a sum over the attempts. */
  ghost predicate Ledgers(cfg: Session, sentBefore: real, s: System)
    requires cfg.clientId in s.provider.clients && cfg.sessionId in s.client.sessions
  {
    && ChainTotal(s.client.chain) == Total(s.attempts, ON_CHAIN)
    && SumBy(s.client.payments, SentAmount) - sentBefore == Total(s.attempts, IN_ROWS)
    && s.client.sessions[cfg.sessionId].totalFeeSentUnconfirmed == Total(s.attempts, IN_SESSION)
    && s.provider.clients[cfg.clientId].totalFeeReceivedUnconfirmed == Total(s.attempts, {Credited})
    && s.provider.clients[cfg.clientId].totalFeeReceived == 0.0
  }

  ghost predicate Inv(cfg: Session, sentBefore: real, s: System) {
    Identities(cfg, s) && Phases(cfg, s) && Ledgers(cfg, sentBefore, s)
  }

  // ---- Every step keeps it ----

  /** A provider whose row of this client keeps its totals. */
  lemma RowKeepsInv(cfg: Session, sentBefore: real, s: System, after: System)
    requires Inv(cfg, sentBefore, s) && after == s.(provider := after.provider) && ValidProvider(after.provider)
    requires cfg.clientId in after.provider.clients
    requires var row, now := s.provider.clients[cfg.clientId], after.provider.clients[cfg.clientId];
             now == row.(dataTransferredKb := now.dataTransferredKb)
    ensures Inv(cfg, sentBefore, after)
  {}

  lemma ProviderStepKeepsInv(cfg: Session, sentBefore: real, s: System, step: Step)
    requires Inv(cfg, sentBefore, s)
    requires step.OtherRequest? || step.OtherClient? || step.MeterAtProvider?
    ensures Inv(cfg, sentBefore, Apply(cfg, s, step))
    ensures Apply(cfg, s, step) == s.(provider := Apply(cfg, s, step).provider)
    ensures !step.MeterAtProvider? ==>
              Apply(cfg, s, step).provider.clients[cfg.clientId] == s.provider.clients[cfg.clientId]
  {
    if step.OtherRequest? && Enabled(cfg, s, step) {
      OtherRequestKeepsRow(cfg, s.provider, step.request, step.peer, step.env);
    }
    RowKeepsInv(cfg, sentBefore, s, Apply(cfg, s, step));
  }

  lemma OtherRequestKeepsRow(cfg: Session, p: Provider, request: Request, peer: string, env: HandlerEnv)
    requires ValidProvider(p) && cfg.clientId in p.clients && p.clients[cfg.clientId].authToken == cfg.token
    requires request.authToken != cfg.token
    ensures var after := HandlePayment(p, request, peer, env, cfg.limits).0;
            && ValidProvider(after) && cfg.clientId in after.clients
            && after.clients[cfg.clientId] == p.clients[cfg.clientId]
  {
    match request {
      case PrePaymentRequest(_, token, dataKb, feeOwed) =>
        PrePaymentEffect(p, token, dataKb, feeOwed, peer, env, cfg.limits);
      case PostPaymentNotification(_, token, note) =>
        PostPaymentEffect(p, token, note, env);
        if TokenTaken(p.clients, token) {
          FoundRow(p.clients, cfg.clientId);
          CreditThroughToken(p.clients, token, note.amountTransferred);
        }
    }
  }

  lemma DeliverPreKeepsInv(cfg: Session, sentBefore: real, s: System, step: Step)
    requires Inv(cfg, sentBefore, s) && step.DeliverPre?
    ensures Inv(cfg, sentBefore, Apply(cfg, s, step))
  {
    if Enabled(cfg, s, step) {
      var r := s.requests[step.id];
      PrePaymentEffect(s.provider, r.authToken, r.dataTransferredKb, r.feeOwed, cfg.clientPeer, step.env, cfg.limits);
      FoundRow(s.provider.clients, cfg.clientId);
    }
  }

  lemma StageTotals(attempts: seq<Attempt>, i: nat, stage: Stage)
    requires i < |attempts|
    ensures var a := attempts[i];
            forall stages :: stages in {ON_CHAIN, IN_ROWS, IN_SESSION, {Credited}} ==>
              Total(SetStage(attempts, i, stage), stages)
                == Total(attempts, stages) - Part(a, stages) + Part(a.(stage := stage), stages)
  {
    var a := attempts[i].(stage := stage);
    TotalUpdate(attempts, i, a, ON_CHAIN);
    TotalUpdate(attempts, i, a, IN_ROWS);
    TotalUpdate(attempts, i, a, IN_SESSION);
    TotalUpdate(attempts, i, a, {Credited});
  }

  lemma LoseNoticeKeepsInv(cfg: Session, sentBefore: real, s: System, step: Step)
    requires Inv(cfg, sentBefore, s) && step.LoseNotice?
    ensures Inv(cfg, sentBefore, Apply(cfg, s, step))
  {
    if Enabled(cfg, s, step) {
      StageTotals(s.attempts, step.i, Lost);
      assert Ledgers(cfg, sentBefore, Apply(cfg, s, step));
    }
  }

  /** A delivered notification credits our row by its amount, or is refused and credits nobody. */
  lemma NoticeOutcome(cfg: Session, s: System, i: nat, env: HandlerEnv) returns (after: System)
    requires Identities(cfg, s) && i < |s.attempts|
    ensures after == AfterDeliverNotice(cfg, s, i, env) && Identities(cfg, after)
    ensures after == s.(provider := after.provider, attempts := SetStage(s.attempts, i, after.attempts[i].stage))
    ensures after.attempts[i].stage in {Credited, Refused}
    ensures after.provider.clients == if after.attempts[i].stage == Credited
            then CreditClient(s.provider.clients, cfg.clientId, s.attempts[i].note.amountTransferred)
            else s.provider.clients
  {
    PostPaymentEffect(s.provider, cfg.token, s.attempts[i].note, env);
    FoundRow(s.provider.clients, cfg.clientId);
    after := AfterDeliverNotice(cfg, s, i, env);
  }

  lemma DeliverNoticeKeepsInv(cfg: Session, sentBefore: real, s: System, step: Step)
    requires Inv(cfg, sentBefore, s) && step.DeliverNotice?
    ensures Inv(cfg, sentBefore, Apply(cfg, s, step))
  {
    if Enabled(cfg, s, step) {
      var after := NoticeOutcome(cfg, s, step.i, step.env);
      SettledLedgers(cfg, sentBefore, s, after, step.i);
    }
  }

  lemma SettledLedgers(cfg: Session, sentBefore: real, s: System, after: System, i: nat)
    requires Identities(cfg, s) && Ledgers(cfg, sentBefore, s)
    requires i < |s.attempts| && s.attempts[i].stage == InFlight
    requires |after.attempts| == |s.attempts| && after.attempts[i].stage in {Credited, Refused}
    requires after == s.(provider := after.provider, attempts := SetStage(s.attempts, i, after.attempts[i].stage))
    requires after.provider.clients == if after.attempts[i].stage == Credited
             then CreditClient(s.provider.clients, cfg.clientId, s.attempts[i].note.amountTransferred)
             else s.provider.clients
    ensures Ledgers(cfg, sentBefore, after)
  {
    StageTotals(s.attempts, i, after.attempts[i].stage);
  }

  /** A new attempt at stage Transferred counts on the chain only. */
  lemma NewAttemptTotals(attempts: seq<Attempt>, note: PaymentNotification)
    ensures var more := attempts + [Attempt(note, Transferred)];
            && Total(more, ON_CHAIN) == Total(attempts, ON_CHAIN) + note.amountTransferred
            && Total(more, IN_ROWS) == Total(attempts, IN_ROWS)
            && Total(more, IN_SESSION) == Total(attempts, IN_SESSION)
            && Total(more, {Credited}) == Total(attempts, {Credited})
  {
    var a := Attempt(note, Transferred);
    TotalAppend(attempts, a, ON_CHAIN);
    TotalAppend(attempts, a, IN_ROWS);
    TotalAppend(attempts, a, IN_SESSION);
    TotalAppend(attempts, a, {Credited});
  }

  lemma TransferredLedgers(cfg: Session, sentBefore: real, s: System, after: System, t: Transfer,
                           note: PaymentNotification)
    requires Identities(cfg, s) && Ledgers(cfg, sentBefore, s) && t.amount == note.amountTransferred
    requires after.provider == s.provider && after.client.sessions == s.client.sessions
    requires after.client.payments == s.client.payments && after.client.chain == s.client.chain + [t]
    requires after.attempts == s.attempts + [Attempt(note, Transferred)]
    ensures Ledgers(cfg, sentBefore, after)
  {
    ChainAppend(s.client.chain, t);
    NewAttemptTotals(s.attempts, note);
  }

  lemma TransferredPhases(cfg: Session, s: System, after: System, txId: string)
    requires Phases(cfg, s) && s.client.phase.Paying? && after.reply == s.reply
    requires after.client.phase == Recording(s.client.phase.session, s.client.phase.request, txId)
    requires after.attempts
             == s.attempts + [Attempt(Note(s.client.phase.request, txId, cfg.senderAddress), Transferred)]
    ensures Phases(cfg, after)
  {}

  lemma TransferKeepsInv(cfg: Session, sentBefore: real, s: System, step: Step)
    requires Inv(cfg, sentBefore, s) && step.PayOnChain?
    ensures Inv(cfg, sentBefore, Apply(cfg, s, step))
  {
    if Enabled(cfg, s, step) && step.txId.Some? {
      var request := s.client.phase.request;
      TransferredPhases(cfg, s, Apply(cfg, s, step), step.txId.value);
      TransferredLedgers(cfg, sentBefore, s, Apply(cfg, s, step),
                         Transfer(step.txId.value, request.recipientAddress, request.amountToSend),
                         Note(request, step.txId.value, cfg.senderAddress));
    }
  }

  lemma InsertedRowTotal(c: Client, paymentId: string, db: bool)
    requires c.phase.Recording? && Record(c, paymentId, db).phase.Counting?
    ensures SumBy(Record(c, paymentId, db).payments, SentAmount)
              == SumBy(c.payments, SentAmount) + c.phase.request.amountToSend
  {
    var Recording(session, request, txId) := c.phase;
    SumByUpdate(c.payments, paymentId, SentPayment(paymentId, session, request, txId), SentAmount);
  }

  lemma RecordedLedgers(cfg: Session, sentBefore: real, s: System, after: System)
    requires Identities(cfg, s) && Ledgers(cfg, sentBefore, s) && |s.attempts| > 0
    requires s.attempts[|s.attempts| - 1].stage == Transferred
    requires after.provider == s.provider && after.client.sessions == s.client.sessions
    requires after.client.chain == s.client.chain && after.attempts == SetLast(s.attempts, Recorded)
    requires SumBy(after.client.payments, SentAmount)
             == SumBy(s.client.payments, SentAmount) + s.attempts[|s.attempts| - 1].note.amountTransferred
    ensures Ledgers(cfg, sentBefore, after)
  {
    StageTotals(s.attempts, |s.attempts| - 1, Recorded);
  }

  lemma InsertRowKeepsInv(cfg: Session, sentBefore: real, s: System, step: Step)
    requires Inv(cfg, sentBefore, s) && step.InsertRow?
    ensures Inv(cfg, sentBefore, Apply(cfg, s, step))
  {
    if Enabled(cfg, s, step) && Record(s.client, step.paymentId, step.db).phase.Counting? {
      InsertedRowTotal(s.client, step.paymentId, step.db);
      RecordedLedgers(cfg, sentBefore, s, Apply(cfg, s, step));
    }
  }

  lemma CountRowKeepsInv(cfg: Session, sentBefore: real, s: System, step: Step)
    requires Inv(cfg, sentBefore, s) && step.CountRow?
    ensures Inv(cfg, sentBefore, Apply(cfg, s, step))
  {
    if Enabled(cfg, s, step) && step.db {
      StageTotals(s.attempts, |s.attempts| - 1, Counted);
      assert Ledgers(cfg, sentBefore, Apply(cfg, s, step));
    }
  }

  lemma SendNoticeKeepsInv(cfg: Session, sentBefore: real, s: System, step: Step)
    requires Inv(cfg, sentBefore, s) && step.SendNotice?
    ensures Inv(cfg, sentBefore, Apply(cfg, s, step))
  {
    if Enabled(cfg, s, step) {
      StageTotals(s.attempts, |s.attempts| - 1, InFlight);
      assert Ledgers(cfg, sentBefore, Apply(cfg, s, step));
    }
  }

  lemma LocalStepKeepsInv(cfg: Session, sentBefore: real, s: System, step: Step)
    requires Inv(cfg, sentBefore, s)
    requires step.MeterAtClient? || step.StartRound? || step.LosePre? || step.TakeAnswer? || step.GiveUp?
    ensures Inv(cfg, sentBefore, Apply(cfg, s, step))
  {}

  lemma ReplyStepKeepsInv(cfg: Session, sentBefore: real, s: System, step: Step)
    requires Inv(cfg, sentBefore, s) && (step.TakeReply? || step.FailPre?)
    ensures Inv(cfg, sentBefore, Apply(cfg, s, step))
  {}

  lemma StepKeepsInv(cfg: Session, sentBefore: real, s: System, step: Step)
    requires Inv(cfg, sentBefore, s)
    ensures Inv(cfg, sentBefore, Apply(cfg, s, step))
  {
    match step
    case OtherRequest(_, _, _) => ProviderStepKeepsInv(cfg, sentBefore, s, step);
    case OtherClient(_, _) => ProviderStepKeepsInv(cfg, sentBefore, s, step);
    case MeterAtProvider(_, _) => ProviderStepKeepsInv(cfg, sentBefore, s, step);
    case DeliverPre(_, _, _) => DeliverPreKeepsInv(cfg, sentBefore, s, step);
    case DeliverNotice(_, _) => DeliverNoticeKeepsInv(cfg, sentBefore, s, step);
    case LoseNotice(_) => LoseNoticeKeepsInv(cfg, sentBefore, s, step);
    case PayOnChain(_) => TransferKeepsInv(cfg, sentBefore, s, step);
    case InsertRow(_, _) => InsertRowKeepsInv(cfg, sentBefore, s, step);
    case CountRow(_) => CountRowKeepsInv(cfg, sentBefore, s, step);
    case SendNotice => SendNoticeKeepsInv(cfg, sentBefore, s, step);
    case TakeReply => ReplyStepKeepsInv(cfg, sentBefore, s, step);
    case FailPre => ReplyStepKeepsInv(cfg, sentBefore, s, step);
    case _ => LocalStepKeepsInv(cfg, sentBefore, s, step);
  }

  lemma {:induction false} RunKeepsInv(cfg: Session, sentBefore: real, s: System, steps: seq<Step>)
    requires Inv(cfg, sentBefore, s)
    ensures Inv(cfg, sentBefore, Exec(cfg, s, steps))
    decreases |steps|
  {
    if steps != [] {
      StepKeepsInv(cfg, sentBefore, s, steps[0]);
      RunKeepsInv(cfg, sentBefore, Apply(cfg, s, steps[0]), steps[1..]);
    }
  }

  // ---- Main results ----

  /**
   Conservation, at the end of every run of a session that starts at a provide
   response: chain >= Send rows >= session total >= provider total, and the last
   gap is exactly the notifications unsent, in flight, lost or refused.
   */
  lemma Conservation(cfg: Session, s0: System, steps: seq<Step>)
    requires Initial(cfg, s0)
    ensures var s := Exec(cfg, s0, steps);
            && cfg.sessionId in s.client.sessions && cfg.clientId in s.provider.clients
            && var onChain := ChainTotal(s.client.chain);
               var inRows := SumBy(s.client.payments, SentAmount) - SumBy(s0.client.payments, SentAmount);
               var inSession := s.client.sessions[cfg.sessionId].totalFeeSentUnconfirmed;
               var atProvider := s.provider.clients[cfg.clientId].totalFeeReceivedUnconfirmed;
            && onChain >= inRows >= inSession >= atProvider >= 0.0
            && onChain - inRows == Total(s.attempts, {Transferred})
            && inRows - inSession == Total(s.attempts, {Recorded})
            && inSession - atProvider == Total(s.attempts, UNSETTLED)
  {
    var sentBefore := SumBy(s0.client.payments, SentAmount);
    assert Inv(cfg, sentBefore, s0);
    RunKeepsInv(cfg, sentBefore, s0, steps);
    var s := Exec(cfg, s0, steps);
    TotalSplit(s.attempts, IN_ROWS, {Transferred});
    assert IN_ROWS + {Transferred} == ON_CHAIN;
    TotalSplit(s.attempts, IN_SESSION, {Recorded});
    assert IN_SESSION + {Recorded} == IN_ROWS;
    TotalSplit(s.attempts, {Credited}, UNSETTLED);
    assert {Credited} + UNSETTLED == IN_SESSION;
    TotalSplit(s.attempts, {}, {Credited});
  }

  /** With allowances at least the termination threshold, no run reaches a `todo!()` arm. */
  lemma NoRunReachesUnimplementedArms(cfg: Session, s0: System, steps: seq<Step>)
    requires Initial(cfg, s0) && AllowancesCoverTermination(cfg.limits)
    ensures !Exec(cfg, s0, steps).client.phase.Panicked?
  {
    var sentBefore := SumBy(s0.client.payments, SentAmount);
    RunKeepsInv(cfg, sentBefore, s0, steps);
  }

  // ---- The loop's code is a run of the system ----

  function AskStep(c: Client, sessionId: string, env: RoundEnv): Client
    requires c.phase.Idle?
  {
    var c1 := Tick(c, sessionId, env.sessionDb);
    if c1.phase.Idle? then c1 else OnPreReply(c1, env.preReply)
  }

  function PayStep(c: Client, sessionId: string, env: RoundEnv): Client {
    if !c.phase.Paying? then c else
    var c3 := Pay(c, env.txId);
    if c3.phase.Idle? then c3 else
    var c4 := Record(c3, env.paymentId, env.insertDb);
    if c4.phase.Idle? then c4 else Count(c4, sessionId, env.countDb)
  }

  /** One round is its question followed by its payment. */
  lemma RoundInParts(c: Client, sessionId: string, senderAddress: string, env: RoundEnv)
    requires c.phase.Idle?
    ensures var (client, result) := PaymentRound(c, sessionId, senderAddress, env);
            var asked := AskStep(c, sessionId, env);
            var paid := PayStep(asked, sessionId, env);
            && (result.Paid? <==> paid.phase.Notifying?)
            && client == (if result.Paid? then paid.(phase := Idle) else paid)
            && (result.Paid? ==>
                  && asked.phase.Paying? && env.txId.Some?
                  && result.notified == PostRequest(asked.phase.session,
                                                    Note(asked.phase.request, env.txId.value, senderAddress)))
            && (paid.phase.Idle? || paid.phase.Panicked? || paid.phase.Notifying?)
            && (asked.phase.Idle? || asked.phase.Panicked? || asked.phase.Paying?)
  {}

  /** With no reply, the request is lost or `delivered` and its answer lost. */
  function AskSteps(awaited: nat, henv: HandlerEnv, env: RoundEnv, delivered: bool): seq<Step> {
    var sent := StartRound(env.sessionDb);
    if env.preReply.Some? then [sent, DeliverPre(awaited + 1, henv, true), TakeReply]
    else [sent, if delivered then DeliverPre(awaited + 1, henv, false) else LosePre(awaited + 1), FailPre]
  }

  function MoneySteps(env: RoundEnv): seq<Step> {
    [PayOnChain(env.txId), InsertRow(env.paymentId, env.insertDb), CountRow(env.countDb)]
  }

  /** The notification is handled and answered, or the client gives up on it. */
  function EndSteps(i: nat, henv: HandlerEnv, answered: bool): seq<Step> {
    if answered then [DeliverNotice(i, henv), TakeAnswer] else [GiveUp]
  }

  lemma AnsweredAskIsARun(cfg: Session, s: System, henv: HandlerEnv, env: RoundEnv, delivered: bool)
    requires s.client.phase.Idle? && s.reply.None? && s.awaited + 1 !in s.requests
    requires cfg.sessionId in s.client.sessions && env.preReply.Some?
    requires env.preReply.value == HandlePayment(s.provider, PreRequest(s.client.sessions[cfg.sessionId]),
                                                 cfg.clientPeer, henv, cfg.limits).1
    ensures var t := Exec(cfg, s, AskSteps(s.awaited, henv, env, delivered));
            t.client == AskStep(s.client, cfg.sessionId, env) && t.attempts == s.attempts
  {
    ExecThree(cfg, s, AskSteps(s.awaited, henv, env, delivered));
  }

  lemma FailedAskIsARun(cfg: Session, s: System, henv: HandlerEnv, env: RoundEnv, delivered: bool)
    requires s.client.phase.Idle? && s.reply.None? && s.awaited + 1 !in s.requests
    requires cfg.sessionId in s.client.sessions && env.preReply.None?
    ensures var t := Exec(cfg, s, AskSteps(s.awaited, henv, env, delivered));
            t.client == AskStep(s.client, cfg.sessionId, env) && t.attempts == s.attempts
  {
    ExecThree(cfg, s, AskSteps(s.awaited, henv, env, delivered));
  }

  lemma AskIsARun(cfg: Session, s: System, henv: HandlerEnv, env: RoundEnv, delivered: bool)
    requires s.client.phase.Idle? && s.reply.None? && s.awaited + 1 !in s.requests
    requires cfg.sessionId in s.client.sessions
    requires env.preReply.Some? ==>
               env.preReply.value == HandlePayment(s.provider, PreRequest(s.client.sessions[cfg.sessionId]),
                                                   cfg.clientPeer, henv, cfg.limits).1
    ensures var t := Exec(cfg, s, AskSteps(s.awaited, henv, env, delivered));
            t.client == AskStep(s.client, cfg.sessionId, env) && t.attempts == s.attempts
  {
    if env.preReply.Some? {
      AnsweredAskIsARun(cfg, s, henv, env, delivered);
    } else {
      FailedAskIsARun(cfg, s, henv, env, delivered);
    }
  }

  lemma MoneyIsARun(cfg: Session, s: System, env: RoundEnv)
    requires s.client.phase.Idle? || s.client.phase.Paying? || s.client.phase.Panicked?
    ensures var u := Exec(cfg, s, MoneySteps(env));
            && u.client == PayStep(s.client, cfg.sessionId, env)
            && (u.client.phase.Notifying? ==>
                  && s.client.phase.Paying? && env.txId.Some?
                  && var note := Note(s.client.phase.request, env.txId.value, cfg.senderAddress);
                     u.attempts == s.attempts + [Attempt(note, Counted)])
  {
    ExecThree(cfg, s, MoneySteps(env));
  }

  lemma EndIsARun(cfg: Session, s: System, i: nat, henv: HandlerEnv, answered: bool)
    requires s.client.phase.Idle? || s.client.phase.Panicked? || s.client.phase.AwaitingPost?
    requires s.client.phase.AwaitingPost? ==> |s.attempts| == i + 1 && s.attempts[i].stage == InFlight
    ensures Exec(cfg, s, EndSteps(i, henv, answered)).client
            == if s.client.phase.AwaitingPost? then s.client.(phase := Idle) else s.client
  {
    var steps := EndSteps(i, henv, answered);
    ExecCons(cfg, s, steps);
    if answered {
      ExecCons(cfg, Apply(cfg, s, steps[0]), steps[1..]);
    }
  }

  /**
   One whole call of `process_payment`, with the provider's actual reply or none,
   is a run of these steps: a failing call stops where the remaining steps are no
   longer enabled. The call has sent a notification exactly when the run has put
   one in flight, and it is that one, whether or not it is answered.
   */
  lemma ProcessPaymentIsARun(cfg: Session, s: System, henv: HandlerEnv, env: RoundEnv, delivered: bool,
                             noticeEnv: HandlerEnv, answered: bool)
    requires s.client.phase.Idle? && s.reply.None? && s.awaited + 1 !in s.requests
    requires cfg.sessionId in s.client.sessions
    requires env.preReply.Some? ==>
               env.preReply.value == HandlePayment(s.provider, PreRequest(s.client.sessions[cfg.sessionId]),
                                                   cfg.clientPeer, henv, cfg.limits).1
    ensures var (client, result) := PaymentRound(s.client, cfg.sessionId, cfg.senderAddress, env);
            var sent := Exec(cfg, s, AskSteps(s.awaited, henv, env, delivered) + MoneySteps(env) + [SendNotice]);
            && (result.Paid? <==> sent.client.phase.AwaitingPost?)
            && (result.Paid? ==>
                  && result.notified.PostPaymentNotification?
                  && sent.attempts == s.attempts + [Attempt(result.notified.notification, InFlight)])
            && Exec(cfg, sent, EndSteps(|s.attempts|, noticeEnv, answered)).client == client
  {
    var t := Exec(cfg, s, AskSteps(s.awaited, henv, env, delivered));
    var u := Exec(cfg, t, MoneySteps(env));
    RoundInParts(s.client, cfg.sessionId, cfg.senderAddress, env);
    AskIsARun(cfg, s, henv, env, delivered);
    MoneyIsARun(cfg, t, env);
    var sent := NoticeIsSent(cfg, u);
    ExecConcat3(cfg, s, AskSteps(s.awaited, henv, env, delivered), MoneySteps(env), [SendNotice]);
    EndIsARun(cfg, sent, |s.attempts|, noticeEnv, answered);
  }

  lemma NoticeIsSent(cfg: Session, u: System) returns (sent: System)
    requires u.client.phase.Notifying? ==> |u.attempts| > 0
    ensures sent == Exec(cfg, u, [SendNotice])
    ensures u.client.phase.Notifying? ==>
              sent == u.(client := u.client.(phase := AwaitingPost), attempts := SetLast(u.attempts, InFlight))
    ensures !u.client.phase.Notifying? ==> sent == u
  {
    ExecCons(cfg, u, [SendNotice]);
    sent := Apply(cfg, u, SendNotice);
  }
}
