/**
 The SQLite tables of a node (db/schema.rs, db/db_client.rs) as keyed rows that
 the table objects update in place. Whether SQLite executes a statement is an
 input (`db`); primary keys and the unique index on auth tokens are enforced.
 */
module Tables {
  import opened Amounts
  import opened Options

  /** Diesel's `QueryResult`; for updates the value is the number of rows changed. */
  datatype QueryResult<+T> = Ok(value: T) | Err

  // ---- Rows ----

  datatype ProxyClientInfo = ProxyClientInfo(
    clientId: string, authToken: string,
    dataTransferredKb: real, totalFeeReceived: real, totalFeeReceivedUnconfirmed: real,
    feeRatePerKb: real, clientPeerId: string, status: int)
  {
    function GetFeeOwed(): real {
      FeeOwed(dataTransferredKb, feeRatePerKb, totalFeeReceived, totalFeeReceivedUnconfirmed)
    }

    static function WithDefaults(clientId: string, authToken: string, clientPeerId: string, configRate: real)
      : ProxyClientInfo
    {
      ProxyClientInfo(clientId, authToken, 0.0, 0.0, 0.0, configRate, clientPeerId, 1)
    }
  }

  datatype ProxySessionInfo = ProxySessionInfo(
    sessionId: string, clientId: string, authToken: string, proxyAddress: string,
    dataTransferredKb: real, totalFeeSent: real, totalFeeSentUnconfirmed: real,
    feeRatePerKb: real, providerPeerId: string, recipientAddress: string, status: int)
  {
    function GetFeeOwed(): real {
      FeeOwed(dataTransferredKb, feeRatePerKb, totalFeeSent, totalFeeSentUnconfirmed)
    }
  }

  datatype PaymentStatus = AwaitingClientConfirmation | TransactionPending | TransactionConfirmed

  datatype PaymentCategory = Receive | Send

  datatype PaymentInfo = PaymentInfo(
    paymentId: string, txId: Option<string>, fromAddress: Option<string>, toAddress: string,
    expectedAmountBtc: Option<real>, amountBtc: Option<real>,
    category: PaymentCategory, status: PaymentStatus,
    paymentReference: Option<string>, fromPeer: Option<string>, toPeer: Option<string>)

  function Or<T>(change: Option<T>, stored: Option<T>): Option<T> {
    if change.Some? then change else stored
  }

  /** `AsChangeset`: an update leaves the key alone and skips fields that are None. */
  function Changeset(row: PaymentInfo, change: PaymentInfo): PaymentInfo {
    PaymentInfo(
      row.paymentId, Or(change.txId, row.txId), Or(change.fromAddress, row.fromAddress), change.toAddress,
      Or(change.expectedAmountBtc, row.expectedAmountBtc), Or(change.amountBtc, row.amountBtc),
      change.category, change.status,
      Or(change.paymentReference, row.paymentReference),
      Or(change.fromPeer, row.fromPeer), Or(change.toPeer, row.toPeer))
  }

  /** Every optional field keeps its value unless the change has one; the others are overwritten, the key never. */
  lemma ChangesetFields(row: PaymentInfo, change: PaymentInfo)
    ensures var after := Changeset(row, change);
            && after.paymentId == row.paymentId
            && after.toAddress == change.toAddress && after.category == change.category
            && after.status == change.status
            && (change.txId.Some? ==> after.txId == change.txId)
            && (change.txId.None? ==> after.txId == row.txId)
            && (change.fromAddress.Some? ==> after.fromAddress == change.fromAddress)
            && (change.fromAddress.None? ==> after.fromAddress == row.fromAddress)
            && (change.expectedAmountBtc.Some? ==> after.expectedAmountBtc == change.expectedAmountBtc)
            && (change.expectedAmountBtc.None? ==> after.expectedAmountBtc == row.expectedAmountBtc)
            && (change.amountBtc.Some? ==> after.amountBtc == change.amountBtc)
            && (change.amountBtc.None? ==> after.amountBtc == row.amountBtc)
            && (change.paymentReference.Some? ==> after.paymentReference == change.paymentReference)
            && (change.paymentReference.None? ==> after.paymentReference == row.paymentReference)
            && (change.fromPeer.Some? ==> after.fromPeer == change.fromPeer)
            && (change.fromPeer.None? ==> after.fromPeer == row.fromPeer)
            && (change.toPeer.Some? ==> after.toPeer == change.toPeer)
            && (change.toPeer.None? ==> after.toPeer == row.toPeer)
  {}

  /** `fee` is what a ledger still owes of `due`: whole, zero below half a satoshi, else within half a satoshi. */
  predicate SettlesDue(fee: real, due: real) {
    && WholeAmount(fee)
    && (fee == 0.0 <==> due < HALF_SATOSHI)
    && (due >= -HALF_SATOSHI ==> Abs(fee - due) <= HALF_SATOSHI)
  }

  /** Both rows compute the fee from their own usage, rate and totals. */
  lemma RowFees(client: ProxyClientInfo, session: ProxySessionInfo)
    ensures SettlesDue(client.GetFeeOwed(),
                       client.dataTransferredKb * client.feeRatePerKb
                         - client.totalFeeReceived - client.totalFeeReceivedUnconfirmed)
    ensures SettlesDue(session.GetFeeOwed(),
                       session.dataTransferredKb * session.feeRatePerKb
                         - session.totalFeeSent - session.totalFeeSentUnconfirmed)
  {
    FeeOwedFacts(client.dataTransferredKb, client.feeRatePerKb, client.totalFeeReceived,
                 client.totalFeeReceivedUnconfirmed);
    FeeOwedFacts(session.dataTransferredKb, session.feeRatePerKb, session.totalFeeSent,
                 session.totalFeeSentUnconfirmed);
  }

  type Clients = map<string, ProxyClientInfo>
  type Sessions = map<string, ProxySessionInfo>
  type Payments = map<string, PaymentInfo>

  // ---- proxy_clients as a value ----

  predicate TokenTaken(rows: Clients, token: string) {
    exists k :: k in rows && rows[k].authToken == token
  }

  ghost predicate ValidClients(rows: Clients) {
    && (forall k :: k in rows ==> rows[k].clientId == k)
    && (forall j, k :: j in rows && k in rows && rows[j].authToken == rows[k].authToken ==> j == k)
  }

  /** The row a full scan for `token` finds. */
  ghost function FindByToken(rows: Clients, token: string): QueryResult<ProxyClientInfo> {
    if TokenTaken(rows, token) then
      var k :| k in rows && rows[k].authToken == token;
      Ok(rows[k])
    else Err
  }

  function MeterClient(rows: Clients, id: string, kb: real): Clients {
    if id in rows then rows[id := rows[id].(dataTransferredKb := rows[id].dataTransferredKb + kb)] else rows
  }

  function CreditClient(rows: Clients, id: string, amount: real): Clients {
    if id in rows
    then rows[id := rows[id].(totalFeeReceivedUnconfirmed := rows[id].totalFeeReceivedUnconfirmed + amount)]
    else rows
  }

  function ConfirmClient(rows: Clients, id: string, amount: real): Clients {
    if id in rows
    then rows[id := rows[id].(totalFeeReceived := rows[id].totalFeeReceived + amount)]
    else rows
  }

  function MeterSession(rows: Sessions, id: string, kb: real): Sessions {
    if id in rows then rows[id := rows[id].(dataTransferredKb := rows[id].dataTransferredKb + kb)] else rows
  }

  function CountSent(rows: Sessions, id: string, amount: real): Sessions {
    if id in rows
    then rows[id := rows[id].(totalFeeSentUnconfirmed := rows[id].totalFeeSentUnconfirmed + amount)]
    else rows
  }

  /** The column updates by id: exactly the addressed row, exactly the named column, by exactly the amount. */
  lemma SessionColumns(rows: Sessions, id: string, amount: real)
    ensures id !in rows ==> MeterSession(rows, id, amount) == rows && CountSent(rows, id, amount) == rows
    ensures id in rows ==>
              && MeterSession(rows, id, amount)
                   == rows[id := rows[id].(dataTransferredKb := rows[id].dataTransferredKb + amount)]
              && CountSent(rows, id, amount)
                   == rows[id := rows[id].(totalFeeSentUnconfirmed := rows[id].totalFeeSentUnconfirmed + amount)]
  {}

  lemma ClientColumns(rows: Clients, id: string, amount: real)
    ensures id !in rows ==>
              MeterClient(rows, id, amount) == CreditClient(rows, id, amount) == ConfirmClient(rows, id, amount) == rows
    ensures id in rows ==>
              && MeterClient(rows, id, amount)
                   == rows[id := rows[id].(dataTransferredKb := rows[id].dataTransferredKb + amount)]
              && CreditClient(rows, id, amount)
                   == rows[id := rows[id].(
                        totalFeeReceivedUnconfirmed := rows[id].totalFeeReceivedUnconfirmed + amount)]
              && ConfirmClient(rows, id, amount)
                   == rows[id := rows[id].(totalFeeReceived := rows[id].totalFeeReceived + amount)]
  {}

  // ---- The table objects ----

  class ProxyClientsTable {
    var rows: Clients

    constructor ()
      ensures rows == map[]
    {
      rows := map[];
    }

    /** SELECT ... WHERE auth_token = ? LIMIT 1, as a scan in any order. */
    method GetClientByAuthToken(token: string, db: bool) returns (r: QueryResult<ProxyClientInfo>)
      ensures r.Ok? <==> db && TokenTaken(rows, token)
      ensures r.Ok? ==> exists k :: k in rows && rows[k] == r.value && rows[k].authToken == token
      ensures db && ValidClients(rows) ==> r == FindByToken(rows, token)
    {
      r := Err;
      if !db { return; }
      var todo := rows.Keys;
      while todo != {}
        invariant todo <= rows.Keys
        invariant forall k :: k in rows && k !in todo ==> rows[k].authToken != token
        decreases |todo|
      {
        var k :| k in todo;
        if rows[k].authToken == token {
          return Ok(rows[k]);
        }
        todo := todo - {k};
      }
    }

    method AddClient(info: ProxyClientInfo, db: bool) returns (r: QueryResult<nat>)
      modifies this
      ensures r == if db && info.clientId !in old(rows) && !TokenTaken(old(rows), info.authToken) then Ok(1) else Err
      ensures rows == if r.Ok? then old(rows)[info.clientId := info] else old(rows)
      ensures old(ValidClients(rows)) ==> ValidClients(rows)
    {
      if !db || info.clientId in rows || TokenTaken(rows, info.authToken) {
        return Err;
      }
      rows := rows[info.clientId := info];
      r := Ok(1);
    }

    method UpdateDataTransferInfo(id: string, kb: real, db: bool) returns (r: QueryResult<nat>)
      modifies this
      ensures r == if db then Ok(if id in old(rows) then 1 else 0) else Err
      ensures rows == if db then MeterClient(old(rows), id, kb) else old(rows)
    {
      if !db { return Err; }
      r := Ok(if id in rows then 1 else 0);
      if id in rows {
        rows := rows[id := rows[id].(dataTransferredKb := rows[id].dataTransferredKb + kb)];
      }
    }

    method UpdateTotalFeeReceivedUnconfirmed(id: string, amount: real, db: bool) returns (r: QueryResult<nat>)
      modifies this
      ensures r == if db then Ok(if id in old(rows) then 1 else 0) else Err
      ensures rows == if db then CreditClient(old(rows), id, amount) else old(rows)
    {
      if !db { return Err; }
      r := Ok(if id in rows then 1 else 0);
      if id in rows {
        var row := rows[id];
        rows := rows[id := row.(totalFeeReceivedUnconfirmed := row.totalFeeReceivedUnconfirmed + amount)];
      }
    }
  }

  class ProxySessionsTable {
    var rows: Sessions

    constructor (rows: Sessions)
      ensures this.rows == rows
    {
      this.rows := rows;
    }

    method GetSessionInfo(id: string, db: bool) returns (r: QueryResult<ProxySessionInfo>)
      ensures r == if db && id in rows then Ok(rows[id]) else Err
    {
      r := if db && id in rows then Ok(rows[id]) else Err;
    }

    method UpdateDataTransferInfo(id: string, kb: real, db: bool) returns (r: QueryResult<nat>)
      modifies this
      ensures r == if db then Ok(if id in old(rows) then 1 else 0) else Err
      ensures rows == if db then MeterSession(old(rows), id, kb) else old(rows)
    {
      if !db { return Err; }
      r := Ok(if id in rows then 1 else 0);
      if id in rows {
        rows := rows[id := rows[id].(dataTransferredKb := rows[id].dataTransferredKb + kb)];
      }
    }

    method UpdateTotalFeeSentUnconfirmed(id: string, amount: real, db: bool) returns (r: QueryResult<nat>)
      modifies this
      ensures r == if db then Ok(if id in old(rows) then 1 else 0) else Err
      ensures rows == if db then CountSent(old(rows), id, amount) else old(rows)
    {
      if !db { return Err; }
      r := Ok(if id in rows then 1 else 0);
      if id in rows {
        var row := rows[id];
        rows := rows[id := row.(totalFeeSentUnconfirmed := row.totalFeeSentUnconfirmed + amount)];
      }
    }
  }

  class PaymentsTable {
    var rows: Payments

    constructor ()
      ensures rows == map[]
    {
      rows := map[];
    }

    method GetPaymentInfo(id: string, db: bool) returns (r: QueryResult<PaymentInfo>)
      ensures r == if db && id in rows then Ok(rows[id]) else Err
    {
      r := if db && id in rows then Ok(rows[id]) else Err;
    }

    method InsertPaymentInfo(info: PaymentInfo, db: bool) returns (r: QueryResult<nat>)
      modifies this
      ensures r == if db && info.paymentId !in old(rows) then Ok(1) else Err
      ensures rows == if r.Ok? then old(rows)[info.paymentId := info] else old(rows)
    {
      if !db || info.paymentId in rows { return Err; }
      rows := rows[info.paymentId := info];
      r := Ok(1);
    }

    method UpdatePaymentInfo(info: PaymentInfo, db: bool) returns (r: QueryResult<nat>)
      modifies this
      ensures r == if db then Ok(if info.paymentId in old(rows) then 1 else 0) else Err
      ensures rows == if db && info.paymentId in old(rows)
                      then old(rows)[info.paymentId := Changeset(old(rows)[info.paymentId], info)] else old(rows)
    {
      if !db { return Err; }
      r := Ok(if info.paymentId in rows then 1 else 0);
      if info.paymentId in rows {
        rows := rows[info.paymentId := Changeset(rows[info.paymentId], info)];
      }
    }
  }

  // ---- Totals over a table ----

  ghost function SumBy<T>(rows: map<string, T>, f: T -> real): real
    decreases |rows|
  {
    if rows == map[] then 0.0
    else
      var k :| k in rows;
      f(rows[k]) + SumBy(rows - {k}, f)
  }

  lemma {:induction false} SumByRemove<T>(rows: map<string, T>, k: string, f: T -> real)
    requires k in rows
    ensures SumBy(rows, f) == f(rows[k]) + SumBy(rows - {k}, f)
    decreases |rows|
  {
    var j :| j in rows && SumBy(rows, f) == f(rows[j]) + SumBy(rows - {j}, f);
    if j != k {
      SumByRemove(rows - {j}, k, f);
      SumByRemove(rows - {k}, j, f);
      assert rows - {j} - {k} == rows - {k} - {j};
    }
  }

  /** Writing one row changes the total by exactly the difference of that row. */
  lemma SumByUpdate<T>(rows: map<string, T>, k: string, v: T, f: T -> real)
    ensures SumBy(rows[k := v], f) == SumBy(rows, f) - (if k in rows then f(rows[k]) else 0.0) + f(v)
  {
    SumByRemove(rows[k := v], k, f);
    assert rows[k := v] - {k} == rows - {k};
    if k in rows {
      SumByRemove(rows, k, f);
    } else {
      assert rows - {k} == rows;
    }
  }

  function Received(c: ProxyClientInfo): real { c.totalFeeReceivedUnconfirmed }
  function Usage(c: ProxyClientInfo): real { c.dataTransferredKb }

  // ---- Token lookup and update agree ----

  lemma FoundRow(rows: Clients, id: string)
    requires ValidClients(rows) && id in rows
    ensures FindByToken(rows, rows[id].authToken) == Ok(rows[id])
  {
    assert TokenTaken(rows, rows[id].authToken);
  }

  /**
   Crediting through the id of the row found by token changes exactly that row by
   exactly that amount: every other lookup is unaffected and the table-wide total
   grows by the amount.
   */
  lemma CreditThroughToken(rows: Clients, token: string, amount: real)
    requires ValidClients(rows) && TokenTaken(rows, token)
    ensures var c := FindByToken(rows, token).value;
            var after := CreditClient(rows, c.clientId, amount);
            && ValidClients(after) && after.Keys == rows.Keys
            && FindByToken(after, token)
                 == Ok(c.(totalFeeReceivedUnconfirmed := c.totalFeeReceivedUnconfirmed + amount))
            && (forall t :: t != token ==> FindByToken(after, t) == FindByToken(rows, t))
            && SumBy(after, Received) == SumBy(rows, Received) + amount
            && SumBy(after, Usage) == SumBy(rows, Usage)
  {
    var c := FindByToken(rows, token).value;
    var id := c.clientId;
    var after := CreditClient(rows, id, amount);
    FoundRow(after, id);
    OtherTokens(rows, id, after[id]);
    SumByUpdate(rows, id, after[id], Received);
    SumByUpdate(rows, id, after[id], Usage);
  }

  /** Metering through the found id, likewise. */
  lemma MeterThroughToken(rows: Clients, token: string, kb: real)
    requires ValidClients(rows) && TokenTaken(rows, token)
    ensures var c := FindByToken(rows, token).value;
            var after := MeterClient(rows, c.clientId, kb);
            && ValidClients(after) && after.Keys == rows.Keys
            && FindByToken(after, token) == Ok(c.(dataTransferredKb := c.dataTransferredKb + kb))
            && (forall t :: t != token ==> FindByToken(after, t) == FindByToken(rows, t))
            && SumBy(after, Usage) == SumBy(rows, Usage) + kb
            && SumBy(after, Received) == SumBy(rows, Received)
  {
    var c := FindByToken(rows, token).value;
    var id := c.clientId;
    var after := MeterClient(rows, id, kb);
    FoundRow(after, id);
    OtherTokens(rows, id, after[id]);
    SumByUpdate(rows, id, after[id], Received);
    SumByUpdate(rows, id, after[id], Usage);
  }

  lemma OtherTokens(rows: Clients, id: string, row: ProxyClientInfo)
    requires ValidClients(rows) && id in rows
    requires row.clientId == id && row.authToken == rows[id].authToken
    ensures ValidClients(rows[id := row])
    ensures forall t :: t != row.authToken ==> FindByToken(rows[id := row], t) == FindByToken(rows, t)
  {
    var after := rows[id := row];
    forall t | t != row.authToken
      ensures FindByToken(after, t) == FindByToken(rows, t)
    {
      if TokenTaken(rows, t) {
        var k :| k in rows && rows[k].authToken == t;
        assert after[k] == rows[k];
        FoundRow(rows, k);
        FoundRow(after, k);
      }
    }
  }

  /** Every statement the node issues against the clients table. */
  datatype ClientsOp =
    | AddRow(info: ProxyClientInfo)
    | Meter(id: string, kb: real)
    | Credit(id: string, amount: real)
    | Confirm(id: string, amount: real)

  function RunOp(rows: Clients, op: ClientsOp): Clients {
    match op
    case AddRow(info) =>
      if info.clientId in rows || TokenTaken(rows, info.authToken) then rows else rows[info.clientId := info]
    case Meter(id, kb) => MeterClient(rows, id, kb)
    case Credit(id, amount) => CreditClient(rows, id, amount)
    case Confirm(id, amount) => ConfirmClient(rows, id, amount)
  }

  function RunOps(rows: Clients, ops: seq<ClientsOp>): Clients
    decreases |ops|
  {
    if ops == [] then rows else RunOps(RunOp(rows, ops[0]), ops[1..])
  }

  /** Tokens are unique in every client table the node can reach. */
  lemma {:induction false} ReachableClientsAreValid(rows: Clients, ops: seq<ClientsOp>)
    requires ValidClients(rows)
    ensures ValidClients(RunOps(rows, ops))
    decreases |ops|
  {
    if ops != [] {
      ReachableClientsAreValid(RunOp(rows, ops[0]), ops[1..]);
    }
  }
}
