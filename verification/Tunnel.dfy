/**
 Byte streams: the reader of the CONNECT reply (common/utils.rs,
 `read_stream_to_end`) and the bidirectional copy loop of the tunnel
 (proxy/proxy_handlers.rs, `custom_copy_bidirectional`). When reads complete and
 how much they return is an input, so every schedule is covered.
 */
module Tunnel {

  newtype Byte = x: int | 0 <= x < 256

  const BUFFER: nat := 1024

  /** One end of a connection: what the peer sends that is still unread, and what was written to it. */
  class TcpStream {
    var incoming: seq<Byte>
    var outgoing: seq<Byte>

    constructor (incoming: seq<Byte>)
      ensures this.incoming == incoming && outgoing == []
    {
      this.incoming, outgoing := incoming, [];
    }

    /** Reads `want` bytes, cut to what the buffer and the stream allow; nothing only at the end of the stream. */
    method Read(want: nat) returns (bytes: seq<Byte>)
      modifies `incoming
      ensures |bytes| == ReadSize(want, |old(incoming)|)
      ensures bytes == old(incoming)[..|bytes|] && incoming == old(incoming)[|bytes|..]
    {
      var n := ReadSize(want, |incoming|);
      bytes := incoming[..n];
      incoming := incoming[n..];
    }
  }

  function Min(a: nat, b: nat): nat { if a < b then a else b }

  function ReadSize(want: nat, available: nat): (n: nat)
    ensures n <= available && n <= BUFFER
    ensures n == 0 <==> available == 0
  {
    if available == 0 then 0 else if want == 0 then 1 else Min(want, Min(BUFFER, available))
  }

  // ---- Reading up to a blank line ----

  const DELIMITER: seq<Byte> := [13, 10, 13, 10]

  predicate DelimiterAt(data: seq<Byte>, i: nat) {
    i + 4 <= |data| && data[i..i + 4] == DELIMITER
  }

  ghost predicate HasDelimiter(data: seq<Byte>) {
    exists i: nat :: DelimiterAt(data, i)
  }

  /** `data.windows(4).any(..)` */
  method ContainsDelimiter(data: seq<Byte>) returns (found: bool)
    ensures found <==> HasDelimiter(data)
  {
    var i := 0;
    while i + 4 <= |data|
      invariant forall j :: 0 <= j < i ==> !DelimiterAt(data, j)
    {
      if data[i..i + 4] == DELIMITER {
        assert DelimiterAt(data, i);
        return true;
      }
      i := i + 1;
    }
    found := false;
  }

  lemma DelimiterInPrefix(data: seq<Byte>, n: nat)
    requires n <= |data| && HasDelimiter(data[..n])
    ensures HasDelimiter(data)
  {
    var i: nat :| DelimiterAt(data[..n], i);
    assert data[i..i + 4] == data[..n][i..i + 4];
    assert DelimiterAt(data, i);
  }

  /** One `read` of the loop: how much it asks for, or an error, which panics. */
  datatype HeaderIo = Reads(want: nat) | ReadError

  datatype HeaderStatus = Reading | Finished | Panicked

  datatype HeaderRead = HeaderRead(data: seq<Byte>, unread: seq<Byte>, status: HeaderStatus)

  ghost function AfterRead(h: HeaderRead, io: HeaderIo): HeaderRead {
    if !h.status.Reading? then h
    else if io.ReadError? then h.(status := Panicked)
    else
      var n := ReadSize(io.want, |h.unread|);
      var data := h.data + h.unread[..n];
      HeaderRead(data, h.unread[n..], if HasDelimiter(data) then Finished else Reading)
  }

  ghost function ReadAll(h: HeaderRead, ios: seq<HeaderIo>): HeaderRead
    decreases |ios|
  {
    if ios == [] then h else ReadAll(AfterRead(h, ios[0]), ios[1..])
  }

  lemma {:induction false} ReadSettled(h: HeaderRead, ios: seq<HeaderIo>)
    requires !h.status.Reading?
    ensures ReadAll(h, ios) == h
    decreases |ios|
  {
    if ios != [] {
      ReadSettled(h, ios[1..]);
    }
  }

  /**
   If the `ios` run out the loop is still going. A stream that ends without a
   blank line is read forever: it never finishes, whatever the reads. One that
   contains a blank line is finished by any reads without an error that are at
   least as many as its bytes. What is returned is exactly what was consumed; it
   stops at the first read that completes the delimiter, and at most 1023 bytes
   after it are taken. Of the reads that are `made`, only the last can fail, and it
   panics then.
   */
  method ReadStreamToEnd(stream: TcpStream, ios: seq<HeaderIo>)
    returns (data: seq<Byte>, status: HeaderStatus, ghost last: nat, ghost made: nat)
    modifies stream`incoming
    ensures HeaderRead(data, stream.incoming, status) == ReadAll(HeaderRead([], old(stream.incoming), Reading), ios)
    ensures |data| <= |old(stream.incoming)|
    ensures data == old(stream.incoming)[..|data|]
    ensures stream.incoming == old(stream.incoming)[|data|..]
    ensures status.Finished? <==> HasDelimiter(data)
    ensures status.Finished? ==> 1 <= last <= BUFFER && last <= |data| && !HasDelimiter(data[..|data| - last])
    ensures status.Finished? ==> forall i: nat :: DelimiterAt(data, i) ==> |data| - (i + 4) <= BUFFER - 1
    ensures status.Finished? ==> HasDelimiter(old(stream.incoming))
    ensures made <= |ios| && (status.Reading? ==> made == |ios|)
    ensures status.Panicked? <==> made > 0 && ios[made - 1].ReadError?
    ensures forall i :: 0 <= i < made - 1 ==> ios[i].Reads?
    ensures HasDelimiter(old(stream.incoming)) && |ios| >= |old(stream.incoming)| && ReadError !in ios ==>
              status.Finished?
  {
    ghost var whole := stream.incoming;
    data, status, last, made := [], Reading, 0, 0;
    for k := 0 to |ios|
      invariant |data| <= |whole| && data == whole[..|data|] && stream.incoming == whole[|data|..]
      invariant |data| >= Min(k, |whole|)
      invariant status.Reading? && !HasDelimiter(data)
      invariant made == k && forall i :: 0 <= i < k ==> ios[i].Reads?
      invariant ReadAll(HeaderRead([], whole, Reading), ios)
                == ReadAll(HeaderRead(data, stream.incoming, Reading), ios[k..])
    {
      ghost var next := AfterRead(HeaderRead(data, stream.incoming, Reading), ios[k]);
      assert ios[k..][0] == ios[k] && ios[k..][1..] == ios[k + 1..];
      if !next.status.Reading? { ReadSettled(next, ios[k + 1..]); }

      made := k + 1;
      if ios[k].ReadError? { return data, Panicked, 0, made; }
      ghost var before := data;
      var bytes := stream.Read(ios[k].want);
      data := data + bytes;
      last := |bytes|;
      assert data == whole[..|data|];
      assert data[..|data| - last] == before;
      var found := ContainsDelimiter(data);
      if found {
        assert last == 0 ==> data == before;
        DelimiterInPrefix(whole, |data|);
        OverReadIsShort(data, last);
        return data, Finished, last, made;
      }
    }
    assert |ios| >= |whole| ==> data == whole;
  }

  /** The delimiter ends inside the last read, so less than a whole buffer follows it. */
  lemma OverReadIsShort(data: seq<Byte>, last: nat)
    requires last <= |data| && last <= BUFFER && !HasDelimiter(data[..|data| - last])
    ensures forall i: nat :: DelimiterAt(data, i) ==> |data| - (i + 4) <= BUFFER - 1
  {
    forall i: nat | DelimiterAt(data, i)
      ensures |data| - (i + 4) <= BUFFER - 1
    {
      var n := |data| - last;
      if i + 4 <= n {
        assert data[..n][i..i + 4] == data[i..i + 4];
        assert DelimiterAt(data[..n], i);
      }
    }
  }

  // ---- Copying both ways ----

  datatype Side = A | B

  datatype Io = Works | ReadFails | WriteFails(written: nat)

  /** `select!` picks the side whose read completes. */
  datatype Turn = Turn(side: Side, want: nat, io: Io)

  datatype Status = Copying | Closed(closer: Side) | Broken

  /** A running copy loop: unread input and output so far of both ends, and the two counters. */
  datatype Hop = Hop(
    aIn: seq<Byte>, aOut: seq<Byte>, bIn: seq<Byte>, bOut: seq<Byte>, aToB: nat, bToA: nat, status: Status)

  /** One direction of one turn: the bytes read and, of them, those that reach the other side. */
  function Delivered(turn: Turn, input: seq<Byte>): seq<Byte> {
    var n := ReadSize(turn.want, |input|);
    match turn.io
    case Works => input[..n]
    case ReadFails => []
    case WriteFails(written) => input[..Min(written, n)]
  }

  function Unread(turn: Turn, input: seq<Byte>): seq<Byte> {
    if turn.io.ReadFails? then input else input[ReadSize(turn.want, |input|)..]
  }

  function AfterTurn(h: Hop, turn: Turn): Hop {
    if !h.status.Copying? then h else
    var input := if turn.side == A then h.aIn else h.bIn;
    var out := Delivered(turn, input);
    var status := if turn.io.ReadFails? then Broken
                  else if input == [] then Closed(turn.side)
                  else if turn.io.WriteFails? then Broken else Copying;
    if turn.side == A
    then h.(aIn := Unread(turn, input), bOut := h.bOut + out, status := status,
            aToB := if status.Copying? then h.aToB + |out| else h.aToB)
    else h.(bIn := Unread(turn, input), aOut := h.aOut + out, status := status,
            bToA := if status.Copying? then h.bToA + |out| else h.bToA)
  }

  function Run(h: Hop, turns: seq<Turn>): Hop
    decreases |turns|
  {
    if turns == [] then h else Run(AfterTurn(h, turns[0]), turns[1..])
  }

  // ---- When a tunnel ends, by bytes alone ----

  /** What is left of `available` bytes on `side` after the reads of `turns`. */
  function Left(available: nat, side: Side, turns: seq<Turn>): (left: nat)
    ensures left <= available
    decreases |turns|
  {
    if turns == [] then available
    else Left(if turns[0].side == side then available - ReadSize(turns[0].want, available) else available,
              side, turns[1..])
  }

  function LeftAt(a: nat, b: nat, turns: seq<Turn>, k: nat): nat
    requires k < |turns|
  {
    Left(if turns[k].side == A then a else b, turns[k].side, turns[..k])
  }

  /** Turn `k` reads the end of a side all of whose bytes have been taken. */
  predicate EndsAt(a: nat, b: nat, turns: seq<Turn>, k: nat) {
    k < |turns| && !turns[k].io.ReadFails? && LeftAt(a, b, turns, k) == 0
  }

  /** Turn `k` fails to read, or to write what it has read. */
  predicate FailsAt(a: nat, b: nat, turns: seq<Turn>, k: nat) {
    k < |turns| && (turns[k].io.ReadFails? || (turns[k].io.WriteFails? && LeftAt(a, b, turns, k) > 0))
  }

  predicate GoesOnUntil(a: nat, b: nat, turns: seq<Turn>, k: nat) {
    forall j :: 0 <= j < k ==> !EndsAt(a, b, turns, j) && !FailsAt(a, b, turns, j)
  }

  /** With `a` and `b` bytes to come from the two sides, turn `k` is the first to end the tunnel. */
  predicate EndsFirst(a: nat, b: nat, turns: seq<Turn>, k: nat) {
    EndsAt(a, b, turns, k) && GoesOnUntil(a, b, turns, k)
  }

  predicate FailsFirst(a: nat, b: nat, turns: seq<Turn>, k: nat) {
    FailsAt(a, b, turns, k) && GoesOnUntil(a, b, turns, k)
  }

  /** The bytes still to come after `turn` has read. */
  predicate Advanced(a: nat, b: nat, turn: Turn, a': nat, b': nat) {
    if turn.side == A then a' == a - ReadSize(turn.want, a) && b' == b
    else a' == a && b' == b - ReadSize(turn.want, b)
  }

  lemma LaterTurn(a: nat, b: nat, turns: seq<Turn>, a': nat, b': nat, k: nat)
    requires turns != [] && Advanced(a, b, turns[0], a', b')
    ensures EndsAt(a, b, turns, k + 1) <==> EndsAt(a', b', turns[1..], k)
    ensures FailsAt(a, b, turns, k + 1) <==> FailsAt(a', b', turns[1..], k)
  {
    if k + 1 < |turns| {
      assert turns[..k + 1][1..] == turns[1..][..k];
    }
  }

  lemma LaterGoesOn(a: nat, b: nat, turns: seq<Turn>, a': nat, b': nat, k: nat)
    requires turns != [] && Advanced(a, b, turns[0], a', b')
    requires !EndsAt(a, b, turns, 0) && !FailsAt(a, b, turns, 0)
    ensures GoesOnUntil(a, b, turns, k + 1) <==> GoesOnUntil(a', b', turns[1..], k)
  {
    forall j: nat
      ensures EndsAt(a, b, turns, j + 1) <==> EndsAt(a', b', turns[1..], j)
      ensures FailsAt(a, b, turns, j + 1) <==> FailsAt(a', b', turns[1..], j)
    {
      LaterTurn(a, b, turns, a', b', j);
    }
    if GoesOnUntil(a', b', turns[1..], k) {
      forall j | 0 <= j < k + 1
        ensures !EndsAt(a, b, turns, j) && !FailsAt(a, b, turns, j)
      {
        if j > 0 {
          LaterTurn(a, b, turns, a', b', j - 1);
        }
      }
    }
  }

  /** What stops the remaining turns stops all of them, one turn later, and nothing else does. */
  lemma LaterStops(a: nat, b: nat, turns: seq<Turn>, a': nat, b': nat, k: nat)
    requires turns != [] && Advanced(a, b, turns[0], a', b')
    requires !EndsAt(a, b, turns, 0) && !FailsAt(a, b, turns, 0)
    ensures EndsFirst(a, b, turns, k) <==> k > 0 && EndsFirst(a', b', turns[1..], k - 1)
    ensures FailsFirst(a, b, turns, k) <==> k > 0 && FailsFirst(a', b', turns[1..], k - 1)
  {
    if k > 0 {
      LaterTurn(a, b, turns, a', b', k - 1);
      LaterGoesOn(a, b, turns, a', b', k - 1);
    }
  }

  /** A turn that stops the loop is the only first one. */
  lemma StopsOnce(a: nat, b: nat, turns: seq<Turn>, k: nat)
    requires EndsAt(a, b, turns, 0) || FailsAt(a, b, turns, 0)
    ensures EndsFirst(a, b, turns, k) <==> k == 0 && EndsAt(a, b, turns, 0)
    ensures FailsFirst(a, b, turns, k) <==> k == 0 && FailsAt(a, b, turns, 0)
  {}

  /** A copy loop is closed or broken exactly by the first turn that ends or fails it. */
  lemma {:induction false} RunStops(h: Hop, turns: seq<Turn>)
    requires h.status.Copying?
    ensures var status, a, b := Run(h, turns).status, |h.aIn|, |h.bIn|;
            && (status.Closed? <==> exists k: nat :: EndsFirst(a, b, turns, k))
            && (status.Broken? <==> exists k: nat :: FailsFirst(a, b, turns, k))
            && (forall k: nat :: EndsFirst(a, b, turns, k) ==> status == Closed(turns[k].side))
    decreases |turns|
  {
    var a, b := |h.aIn|, |h.bIn|;
    if turns != [] {
      var next := AfterTurn(h, turns[0]);
      assert LeftAt(a, b, turns, 0) == if turns[0].side == A then a else b;
      if EndsAt(a, b, turns, 0) || FailsAt(a, b, turns, 0) {
        RunSettled(next, turns[1..]);
        StopsOnce(a, b, turns, 0);
        forall k: nat
          ensures EndsFirst(a, b, turns, k) ==> k == 0
          ensures FailsFirst(a, b, turns, k) ==> k == 0
        {
          StopsOnce(a, b, turns, k);
        }
      } else {
        RunStops(next, turns[1..]);
        StopsShift(a, b, turns, |next.aIn|, |next.bIn|);
      }
    }
  }

  lemma StopsShift(a: nat, b: nat, turns: seq<Turn>, a': nat, b': nat)
    requires turns != [] && Advanced(a, b, turns[0], a', b')
    requires !EndsAt(a, b, turns, 0) && !FailsAt(a, b, turns, 0)
    ensures (exists k: nat :: EndsFirst(a, b, turns, k)) <==> (exists k: nat :: EndsFirst(a', b', turns[1..], k))
    ensures (exists k: nat :: FailsFirst(a, b, turns, k)) <==> (exists k: nat :: FailsFirst(a', b', turns[1..], k))
    ensures forall k: nat :: EndsFirst(a, b, turns, k) ==> k > 0 && EndsFirst(a', b', turns[1..], k - 1)
  {
    forall k: nat
      ensures EndsFirst(a, b, turns, k) ==> k > 0 && EndsFirst(a', b', turns[1..], k - 1)
      ensures FailsFirst(a, b, turns, k) ==> k > 0 && FailsFirst(a', b', turns[1..], k - 1)
    {
      LaterStops(a, b, turns, a', b', k);
    }
    if k: nat :| EndsFirst(a', b', turns[1..], k) {
      LaterStops(a, b, turns, a', b', k + 1);
      assert EndsFirst(a, b, turns, k + 1);
    }
    if k: nat :| FailsFirst(a', b', turns[1..], k) {
      LaterStops(a, b, turns, a', b', k + 1);
      assert FailsFirst(a, b, turns, k + 1);
    }
  }

  datatype CopyResult = Done(aToB: nat, bToA: nat) | Failed | StillCopying

  ghost function HopOf(a: TcpStream, b: TcpStream): Hop
    reads a, b
  {
    Hop(a.incoming, a.outgoing, b.incoming, b.outgoing, 0, 0, Copying)
  }

  predicate Matches(r: CopyResult, h: Hop) {
    match r
    case Done(aToB, bToA) => h.status.Closed? && aToB == h.aToB && bToA == h.bToA
    case Failed => h.status.Broken?
    case StillCopying => h.status.Copying?
  }

  lemma {:induction false} RunSettled(h: Hop, turns: seq<Turn>)
    requires !h.status.Copying?
    ensures Run(h, turns) == h
    decreases |turns|
  {
    if turns != [] {
      RunSettled(h, turns[1..]);
    }
  }

  method WriteAll(s: TcpStream, bytes: seq<Byte>, io: Io) returns (ok: bool)
    modifies s`outgoing
    ensures ok <==> !io.WriteFails?
    ensures s.outgoing == old(s.outgoing) + (if ok then bytes else bytes[..Min(io.written, |bytes|)])
  {
    if io.WriteFails? {
      s.outgoing := s.outgoing + bytes[..Min(io.written, |bytes|)];
      return false;
    }
    s.outgoing := s.outgoing + bytes;
    ok := true;
  }

  /** One turn of the loop: whichever read completes is copied to the other side. */
  method CopyTurn(a: TcpStream, b: TcpStream, turn: Turn, aToB: nat, bToA: nat)
    returns (status: Status, aToB': nat, bToA': nat)
    requires a != b
    modifies a, b
    ensures Hop(a.incoming, a.outgoing, b.incoming, b.outgoing, aToB', bToA', status)
            == AfterTurn(old(HopOf(a, b)).(aToB := aToB, bToA := bToA), turn)
  {
    aToB', bToA' := aToB, bToA;
    if turn.io.ReadFails? { return Broken, aToB, bToA; }
    var source, sink := if turn.side == A then a else b, if turn.side == A then b else a;
    var bytes := source.Read(turn.want);
    if |bytes| == 0 {
      assert sink.outgoing + [] == sink.outgoing;
      return Closed(turn.side), aToB, bToA;
    }
    var ok := WriteAll(sink, bytes, turn.io);
    if !ok { return Broken, aToB, bToA; }
    if turn.side == A { aToB' := aToB + |bytes|; } else { bToA' := bToA + |bytes|; }
    status := Copying;
  }

  /**
   Done exactly when some turn reads the end of a side whose bytes have all been
   taken, before any turn failed; failed exactly when a read, or a write of what was
   read, failed before any such end.
   */
  method CustomCopyBidirectional(a: TcpStream, b: TcpStream, turns: seq<Turn>) returns (r: CopyResult)
    requires a != b
    modifies a, b
    ensures r.Done? <==> exists k: nat :: EndsFirst(|old(a.incoming)|, |old(b.incoming)|, turns, k)
    ensures r.Failed? <==> exists k: nat :: FailsFirst(|old(a.incoming)|, |old(b.incoming)|, turns, k)
    ensures var h := Run(old(HopOf(a, b)), turns);
            && Matches(r, h)
            && a.incoming == h.aIn && a.outgoing == h.aOut && b.incoming == h.bIn && b.outgoing == h.bOut
  {
    var aToB: nat, bToA: nat := 0, 0;
    ghost var start := HopOf(a, b);
    RunStops(start, turns);
    for k := 0 to |turns|
      invariant Run(start, turns)
                == Run(Hop(a.incoming, a.outgoing, b.incoming, b.outgoing, aToB, bToA, Copying), turns[k..])
    {
      assert turns[k..][0] == turns[k] && turns[k..][1..] == turns[k + 1..];
      var status;
      status, aToB, bToA := CopyTurn(a, b, turns[k], aToB, bToA);
      if !status.Copying? {
        RunSettled(Hop(a.incoming, a.outgoing, b.incoming, b.outgoing, aToB, bToA, status), turns[k + 1..]);
        return if status.Closed? then Done(aToB, bToA) else Failed;
      }
    }
    r := StillCopying;
  }

  // ---- What one tunnel guarantees ----

  /** What a hop took in on one side so far, given all that ever arrives there. */
  predicate Taken(arrived: seq<Byte>, unread: seq<Byte>, out: seq<Byte>, count: nat, broken: bool) {
    && |unread| <= |arrived|
    && unread == arrived[|arrived| - |unread|..]
    && out <= arrived[..|arrived| - |unread|]
    && (!broken ==> count == |out| == |arrived| - |unread|)
    && count <= |out|
  }

  /** One turn of a copy loop on the side it reads. */
  lemma TurnTakes(arrived: seq<Byte>, input: seq<Byte>, out: seq<Byte>, count: nat, turn: Turn, next: nat, broken: bool)
    requires Taken(arrived, input, out, count, false)
    requires broken == (turn.io.ReadFails? || (input != [] && turn.io.WriteFails?))
    requires next == if !broken && input != [] then count + |Delivered(turn, input)| else count
    ensures Taken(arrived, Unread(turn, input), out + Delivered(turn, input), next, broken)
  {
    var c, n := |arrived| - |input|, ReadSize(turn.want, |input|);
    assert out == arrived[..c];
    assert input[..n] == arrived[c..c + n] && input[n..] == arrived[c + n..];
    var sent := Delivered(turn, input);
    assert sent == arrived[c..c + |sent|];
    assert out + sent == arrived[..c + |sent|];
  }

  /** `now` has copied an exact in-order prefix of each side's input, and its counters are honest. */
  predicate Faithful(start: Hop, now: Hop) {
    && start.bOut <= now.bOut && start.aOut <= now.aOut
    && Taken(start.aIn, now.aIn, now.bOut[|start.bOut|..], now.aToB, now.status.Broken?)
    && Taken(start.bIn, now.bIn, now.aOut[|start.aOut|..], now.bToA, now.status.Broken?)
    && (now.status.Closed? ==> (now.status.closer == A && now.aIn == []) || (now.status.closer == B && now.bIn == []))
  }

  lemma OutGrows(start: seq<Byte>, out: seq<Byte>, sent: seq<Byte>)
    requires start <= out
    ensures start <= out + sent && (out + sent)[|start|..] == out[|start|..] + sent
  {}

  lemma TurnAIsFaithful(start: Hop, h: Hop, turn: Turn)
    requires Faithful(start, h) && h.status.Copying? && turn.side == A
    ensures Faithful(start, AfterTurn(h, turn))
  {
    var next := AfterTurn(h, turn);
    OutGrows(start.bOut, h.bOut, Delivered(turn, h.aIn));
    TurnTakes(start.aIn, h.aIn, h.bOut[|start.bOut|..], h.aToB, turn, next.aToB, next.status.Broken?);
  }

  lemma TurnBIsFaithful(start: Hop, h: Hop, turn: Turn)
    requires Faithful(start, h) && h.status.Copying? && turn.side == B
    ensures Faithful(start, AfterTurn(h, turn))
  {
    var next := AfterTurn(h, turn);
    OutGrows(start.aOut, h.aOut, Delivered(turn, h.bIn));
    TurnTakes(start.bIn, h.bIn, h.aOut[|start.aOut|..], h.bToA, turn, next.bToA, next.status.Broken?);
  }

  lemma TurnIsFaithful(start: Hop, h: Hop, turn: Turn)
    requires Faithful(start, h) && h.status.Copying?
    ensures Faithful(start, AfterTurn(h, turn))
  {
    if turn.side == A {
      TurnAIsFaithful(start, h, turn);
    } else {
      TurnBIsFaithful(start, h, turn);
    }
  }

  lemma {:induction false} RunIsFaithful(start: Hop, h: Hop, turns: seq<Turn>)
    requires Faithful(start, h)
    ensures Faithful(start, Run(h, turns))
    decreases |turns|
  {
    if turns != [] {
      if h.status.Copying? {
        TurnIsFaithful(start, h, turns[0]);
      }
      RunIsFaithful(start, AfterTurn(h, turns[0]), turns[1..]);
    }
  }

  datatype Metered = NotMetered | Bytes(n: nat)

  /**
   `tunnel_streams`, for every schedule: each side received an in-order exact copy
   of a prefix of the other. When the tunnel ends in order, `closer` is the side
   whose end of stream was read: everything it sent has been delivered, and the
   usage reported is exactly the bytes written both ways; when the tunnel breaks
   nothing is reported.
   */
  method TunnelStreams(client: TcpStream, remote: TcpStream, turns: seq<Turn>)
    returns (r: CopyResult, usage: Metered, ghost closer: Side)
    requires client != remote
    modifies client, remote
    ensures old(remote.outgoing) <= remote.outgoing
    ensures remote.outgoing[|old(remote.outgoing)|..] <= old(client.incoming)
    ensures old(client.outgoing) <= client.outgoing
    ensures client.outgoing[|old(client.outgoing)|..] <= old(remote.incoming)
    ensures usage.Bytes? <==> r.Done?
    ensures r.Done? <==> exists k: nat :: EndsFirst(|old(client.incoming)|, |old(remote.incoming)|, turns, k)
    ensures forall k: nat :: EndsFirst(|old(client.incoming)|, |old(remote.incoming)|, turns, k) ==>
              closer == turns[k].side
    ensures r.Done? ==>
              && Run(old(HopOf(client, remote)), turns).status == Closed(closer)
              && r.aToB == |remote.outgoing| - |old(remote.outgoing)|
              && r.bToA == |client.outgoing| - |old(client.outgoing)|
              && usage.n == r.aToB + r.bToA
              && (closer == A ==> remote.outgoing == old(remote.outgoing) + old(client.incoming))
              && (closer == B ==> client.outgoing == old(client.outgoing) + old(remote.incoming))
  {
    ghost var start := HopOf(client, remote);
    r := CustomCopyBidirectional(client, remote, turns);
    assert Faithful(start, start);
    RunIsFaithful(start, start, turns);
    RunStops(start, turns);
    ghost var end := Run(start, turns);
    closer := if end.status.Closed? then end.status.closer else A;
    usage := if r.Done? then Bytes(r.aToB + r.bToA) else NotMetered;
  }
}
