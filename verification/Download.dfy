/**
 Downloading a file from its providers and paying for it
 (network/network_client.rs `download_file`, common/utils.rs
 `handle_file_content_response`). What the network, the wallet and the database
 answer is an input.
 */
module Download {
  import opened Amounts
  import opened Options

  datatype FileMetadata = FileMetadata(fileId: string, fileName: string, feeRatePerKb: real, recipientAddress: string)

  datatype Response =
    | FileContent(metadata: FileMetadata, length: nat)
    | ErrorResponse
    | OtherResponse

  /**
   What a stream request yields: the peer cannot be dialled, which is an error; the
   stream cannot be opened or written, which drops the reply channel and panics
   the caller; or a response.
   */
  datatype Reply = Unreachable | ChannelDropped | Answered(response: Response)

  /** A provider, what its stream request yields and how paying and recording would go. */
  datatype Attempt = Attempt(peer: string, reply: Reply, txId: Option<string>, rowDb: bool)

  datatype Payment = Payment(txId: string, toAddress: string, amount: real)

  datatype DownloadRow = DownloadRow(
    fileId: string, fileSizeKb: real, feeRatePerKb: real, price: real, paymentTxId: Option<string>, peer: string)

  /** `Handled`: a provider answered, with the file or without. */
  datatype Result = Handled | NoProvider | NoneAnswered | Panicked

  predicate GotFile(a: Attempt) { a.reply.Answered? && a.reply.response.FileContent? }

  function SizeKb(length: nat): real { length as real / 1000.0 }

  function Charge(rate: real, sizeKb: real): real { rate * sizeKb }

  function Price(metadata: FileMetadata, length: nat): real {
    Round(Charge(metadata.feeRatePerKb, SizeKb(length)), BTC_PRECISION)
  }

  /** What one answered request leads to. */
  function PaymentFor(a: Attempt): seq<Payment> {
    if GotFile(a) && a.txId.Some? then
      var FileContent(metadata, length) := a.reply.response;
      [Payment(a.txId.value, metadata.recipientAddress, Price(metadata, length))]
    else []
  }

  function RowFor(a: Attempt): seq<DownloadRow> {
    if GotFile(a) && a.rowDb then
      var FileContent(metadata, length) := a.reply.response;
      [DownloadRow(metadata.fileId, SizeKb(length), metadata.feeRatePerKb, Price(metadata, length), a.txId, a.peer)]
    else []
  }

  class Downloader {
    var payments: seq<Payment>
    var rows: seq<DownloadRow>

    constructor ()
      ensures payments == [] && rows == []
    {
      payments, rows := [], [];
    }

    method HandleFileContentResponse(a: Attempt)
      requires a.reply.Answered?
      modifies this
      ensures payments == old(payments) + PaymentFor(a)
      ensures rows == old(rows) + RowFor(a)
    {
      if a.reply.response.FileContent? {
        var FileContent(metadata, length) := a.reply.response;
        var sizeKb := SizeKb(length);
        var cost := Round(Charge(metadata.feeRatePerKb, sizeKb), BTC_PRECISION);
        if a.txId.Some? {
          payments := payments + [Payment(a.txId.value, metadata.recipientAddress, cost)];
        }
        if a.rowDb {
          rows := rows + [DownloadRow(metadata.fileId, sizeKb, metadata.feeRatePerKb, cost, a.txId, a.peer)];
        }
      }
    }

    /** `None`: the caller panics. */
    method DownloadFileFromPeer(a: Attempt) returns (ok: Option<bool>)
      modifies this
      ensures ok == if a.reply.ChannelDropped? then None else Some(a.reply.Answered?)
      ensures payments == old(payments) + PaymentFor(a)
      ensures rows == old(rows) + RowFor(a)
    {
      match a.reply {
        case Unreachable => ok := Some(false);
        case ChannelDropped => ok := None;
        case Answered(_) =>
          HandleFileContentResponse(a);
          ok := Some(true);
      }
    }

    /**
     For every provider list and every pattern of outcomes: the providers before
     the first that can be dialled are neither paid nor recorded; that one is
     handled once if it answers, and panics the caller unpaid if its stream fails;
     no provider after it is touched. Hence at most one transaction and one row
     per call, and none for a request that failed.
     */
    method DownloadFile(providers: seq<Attempt>) returns (r: Result, ghost reached: nat)
      modifies this
      ensures reached <= |providers|
      ensures forall i :: 0 <= i < reached ==> providers[i].reply.Unreachable?
      ensures reached < |providers| ==> !providers[reached].reply.Unreachable?
      ensures r.Handled? <==> reached < |providers| && providers[reached].reply.Answered?
      ensures r.Panicked? <==> reached < |providers| && providers[reached].reply.ChannelDropped?
      ensures r.NoProvider? <==> providers == []
      ensures r.Handled? ==>
                && payments == old(payments) + PaymentFor(providers[reached])
                && rows == old(rows) + RowFor(providers[reached])
      ensures !r.Handled? ==> payments == old(payments) && rows == old(rows)
      ensures |payments| <= |old(payments)| + 1 && |rows| <= |old(rows)| + 1
    {
      reached := 0;
      if providers == [] { return NoProvider, 0; }
      for k := 0 to |providers|
        invariant reached == k
        invariant forall i :: 0 <= i < k ==> providers[i].reply.Unreachable?
        invariant payments == old(payments) && rows == old(rows)
      {
        var ok := DownloadFileFromPeer(providers[k]);
        if ok.None? { return Panicked, k; }
        if ok.value { return Handled, k; }
        reached := k + 1;
      }
      r := NoneAnswered;
    }
  }

  /** `price` is a whole number of satoshis within half a satoshi of rate times size. */
  predicate IsPriceOf(price: real, rate: real, length: nat) {
    IsWhole(price) && Abs(price - rate * (length as real / 1000.0)) <= HALF_SATOSHI
  }

  lemma PriceFacts(metadata: FileMetadata, length: nat)
    ensures IsPriceOf(Price(metadata, length), metadata.feeRatePerKb, length)
  {
    var due := Charge(metadata.feeRatePerKb, SizeKb(length));
    assert due == metadata.feeRatePerKb * (length as real / 1000.0);
    NearestWhole(due);
  }

  lemma NearestWhole(due: real)
    ensures IsWhole(Round(due, BTC_PRECISION)) && Abs(Round(due, BTC_PRECISION) - due) <= HALF_SATOSHI
  {
    RoundIsNearest(due, 0.0);
  }

  /**
   What one provider's answer costs. Money goes out exactly for a file and only once,
   to the address in the file's metadata, within half a satoshi of rate times size,
   a kilobyte being a thousand bytes. The row, if it is written, records that very
   price, transaction, size, rate and peer, and no transaction if none was made.
   */
  lemma PriceIsExactToHalfASatoshi(a: Attempt)
    ensures |PaymentFor(a)| <= 1 && |RowFor(a)| <= 1
    ensures var file := a.reply.Answered? && a.reply.response.FileContent?;
            && (PaymentFor(a) != [] <==> file && a.txId.Some?)
            && (RowFor(a) != [] <==> file && a.rowDb)
            && (file ==>
                  && var FileContent(metadata, length) := a.reply.response;
                  && (PaymentFor(a) != [] ==>
                        && var paid := PaymentFor(a)[0];
                        && IsPriceOf(paid.amount, metadata.feeRatePerKb, length)
                        && paid.toAddress == metadata.recipientAddress && Some(paid.txId) == a.txId)
                  && (RowFor(a) != [] ==>
                        && var row := RowFor(a)[0];
                        && IsPriceOf(row.price, metadata.feeRatePerKb, length)
                        && (PaymentFor(a) != [] ==> row.price == PaymentFor(a)[0].amount)
                        && row.fileId == metadata.fileId && row.fileSizeKb == length as real / 1000.0
                        && row.feeRatePerKb == metadata.feeRatePerKb && row.peer == a.peer
                        && row.paymentTxId == a.txId))
  {
    if GotFile(a) {
      PriceFacts(a.reply.response.metadata, a.reply.response.length);
    }
  }
}
