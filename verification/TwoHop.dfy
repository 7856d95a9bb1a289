/**
 The two-hop CONNECT tunnel: browser - local proxy - remote proxy - destination.
 Each proxy runs the copy loop of `Tunnel`; what one writes to the connection
 between them is what the other reads. The remote proxy first writes the header
 of its CONNECT reply there, which the local proxy reads with the loop of
 `ReadStreamToEnd` while the remote tunnel may already be copying behind it.
 */
module TwoHop {
  import opened Tunnel

  // The bytes of "HTTP/1.1 200"
  const STATUS_OK: seq<Byte> := [72, 84, 84, 80, 47, 49, 46, 49, 32, 50, 48, 48]

  /** A header section ends with its first blank line (section 2.1 of RFC 9112). */
  ghost predicate IsHeader(header: seq<Byte>) {
    |header| >= 4 && DelimiterAt(header, |header| - 4) && !HasDelimiter(header[..|header| - 1])
  }

  /** `Ended`: the reply was not a 200, or reading it failed. */
  datatype Phase = AwaitingReply | Tunnelling | Ended

  /**
   `local`: a is the browser, b the remote proxy. `remote`: a is the local proxy, b
   the destination. `reply` is what the local proxy has read as CONNECT reply.
   */
  datatype Path = Path(local: Hop, remote: Hop, reply: seq<Byte>, phase: Phase)

  datatype Step =
    | ReadReply(io: HeaderIo)
    | LocalTurn(turn: Turn)
    | RemoteTurn(turn: Turn)

  /** Reading an empty connection completes only when the proxy at the other end is gone. */
  predicate Enabled(p: Path, step: Step) {
    match step
    case ReadReply(io) => p.phase.AwaitingReply?
    case LocalTurn(turn) => p.phase.Tunnelling? && (turn.side == B && p.local.bIn == [] ==> !p.remote.status.Copying?)
    case RemoteTurn(turn) =>
      turn.side == A && p.remote.aIn == [] ==> !p.local.status.Copying? || p.phase.Ended?
  }

  /** What a turn of `h` writes to the side opposite to `side`. */
  function Forwarded(h: Hop, turn: Turn, side: Side): seq<Byte> {
    if h.status.Copying? && turn.side == side then Delivered(turn, if side == A then h.aIn else h.bIn) else []
  }

  ghost function AfterReadReply(p: Path, io: HeaderIo): Path {
    var h := AfterRead(HeaderRead(p.reply, p.local.bIn, Reading), io);
    Path(p.local.(bIn := h.unread), p.remote, h.data,
         if h.status.Reading? then AwaitingReply
         else if h.status.Finished? && STATUS_OK <= h.data then Tunnelling else Ended)
  }

  ghost function Apply(p: Path, step: Step): Path {
    if !Enabled(p, step) then p else
    match step
    case ReadReply(io) => AfterReadReply(p, io)
    case LocalTurn(turn) =>
      p.(local := AfterTurn(p.local, turn),
         remote := p.remote.(aIn := p.remote.aIn + Forwarded(p.local, turn, A)))
    case RemoteTurn(turn) =>
      p.(remote := AfterTurn(p.remote, turn),
         local := p.local.(bIn := p.local.bIn + Forwarded(p.remote, turn, B)))
  }

  ghost function Exec(p: Path, steps: seq<Step>): Path
    decreases |steps|
  {
    if steps == [] then p else Exec(Apply(p, steps[0]), steps[1..])
  }

  /** The browser will send `browser`, the destination `destination`; the reply's header is on its way. */
  function Start(browser: seq<Byte>, header: seq<Byte>, destination: seq<Byte>): Path {
    Path(Hop(browser, [], header, [], 0, 0, Copying), Hop([], [], destination, [], 0, 0, Copying), [], AwaitingReply)
  }

  /** Tunnel bytes that were read together with the reply's header. */
  function Skipped(header: seq<Byte>, p: Path): nat {
    if |p.reply| > |header| then |p.reply| - |header| else 0
  }

  // ---- The invariant ----

  /** Towards the destination. */
  predicate Up(browser: seq<Byte>, p: Path) {
    && Taken(browser, p.local.aIn, p.local.bOut, p.local.aToB, p.local.status.Broken?)
    && Taken(p.local.bOut, p.remote.aIn, p.remote.bOut, p.remote.aToB, p.remote.status.Broken?)
  }

  /** All the remote proxy has written to the connection. */
  function Wire(header: seq<Byte>, p: Path): seq<Byte> { header + p.remote.aOut }

  /** How far the reply has been read, and that nothing is forwarded before. */
  predicate Reply(header: seq<Byte>, p: Path) {
    && p.reply <= Wire(header, p)
    && (p.phase.AwaitingReply? ==> |p.reply| < |header|)
    && (p.phase.Tunnelling? ==> |header| <= |p.reply| < |header| + BUFFER && STATUS_OK <= p.reply)
    && (p.phase.Ended? ==> |p.reply| < |header| || !(STATUS_OK <= p.reply))
    && (!p.phase.Tunnelling? ==> p.local.aOut == [] && p.local.bToA == 0 && p.local.status.Copying?)
  }

  /** Towards the browser, which sees the connection from the end of the reply read on. */
  predicate Down(header: seq<Byte>, destination: seq<Byte>, p: Path) {
    && Taken(destination, p.remote.bIn, p.remote.aOut, p.remote.bToA, p.remote.status.Broken?)
    && Reply(header, p)
    && (!p.phase.Ended? ==>
          Taken(Wire(header, p)[|p.reply|..], p.local.bIn, p.local.aOut, p.local.bToA, p.local.status.Broken?))
  }

  ghost predicate Inv(browser: seq<Byte>, header: seq<Byte>, destination: seq<Byte>, p: Path) {
    IsHeader(header) && Up(browser, p) && Down(header, destination, p)
  }

  /** More bytes arriving at the far end of the connection. */
  lemma MoreArrives(arrived: seq<Byte>, unread: seq<Byte>, out: seq<Byte>, count: nat, broken: bool, more: seq<Byte>)
    requires Taken(arrived, unread, out, count, broken)
    ensures Taken(arrived + more, unread + more, out, count, broken)
  {
    var c := |arrived| - |unread|;
    assert (arrived + more)[c..] == unread + more;
    assert (arrived + more)[..c] == arrived[..c];
  }

  /** One turn of a hop, given all that arrived at its two sides. */
  lemma HopTurn(fromA: seq<Byte>, fromB: seq<Byte>, h: Hop, turn: Turn)
    requires Taken(fromA, h.aIn, h.bOut, h.aToB, h.status.Broken?)
    requires Taken(fromB, h.bIn, h.aOut, h.bToA, h.status.Broken?)
    ensures var after := AfterTurn(h, turn);
            && Taken(fromA, after.aIn, after.bOut, after.aToB, after.status.Broken?)
            && Taken(fromB, after.bIn, after.aOut, after.bToA, after.status.Broken?)
            && after.bOut == h.bOut + Forwarded(h, turn, A)
            && after.aOut == h.aOut + Forwarded(h, turn, B)
  {
    if h.status.Copying? {
      var after := AfterTurn(h, turn);
      if turn.side == A {
        TurnTakes(fromA, h.aIn, h.bOut, h.aToB, turn, after.aToB, after.status.Broken?);
      } else {
        TurnTakes(fromB, h.bIn, h.aOut, h.bToA, turn, after.bToA, after.status.Broken?);
      }
    }
  }

  lemma LocalTurnKeepsInv(browser: seq<Byte>, header: seq<Byte>, destination: seq<Byte>, p: Path, turn: Turn)
    requires Inv(browser, header, destination, p) && Enabled(p, LocalTurn(turn))
    ensures Inv(browser, header, destination, Apply(p, LocalTurn(turn)))
  {
    HopTurn(browser, Wire(header, p)[|p.reply|..], p.local, turn);
    MoreArrives(p.local.bOut, p.remote.aIn, p.remote.bOut, p.remote.aToB, p.remote.status.Broken?,
                Forwarded(p.local, turn, A));
  }

  lemma WireGrows(header: seq<Byte>, out: seq<Byte>, sent: seq<Byte>, n: nat)
    requires n <= |header + out|
    ensures header + (out + sent) == header + out + sent
    ensures (header + (out + sent))[n..] == (header + out)[n..] + sent
  {}

  lemma RemoteTurnKeepsInv(browser: seq<Byte>, header: seq<Byte>, destination: seq<Byte>, p: Path, turn: Turn)
    requires Inv(browser, header, destination, p) && Enabled(p, RemoteTurn(turn))
    ensures Inv(browser, header, destination, Apply(p, RemoteTurn(turn)))
  {
    var after, sent := Apply(p, RemoteTurn(turn)), Forwarded(p.remote, turn, B);
    HopTurn(p.local.bOut, destination, p.remote, turn);
    WireGrows(header, p.remote.aOut, sent, |p.reply|);
    assert Wire(header, after) == Wire(header, p) + sent;
    if !p.phase.Ended? {
      MoreArrives(Wire(header, p)[|p.reply|..], p.local.bIn, p.local.aOut, p.local.bToA, p.local.status.Broken?, sent);
    }
  }

  /** Reading stops in the read that takes the end of the header, neither before nor after. */
  lemma StopsAtHeader(header: seq<Byte>, data: seq<Byte>, wire: seq<Byte>)
    requires IsHeader(header) && header <= wire && data <= wire
    ensures HasDelimiter(data) <==> |data| >= |header|
  {
    if |data| >= |header| {
      assert data[..|header|] == header;
      assert data[|header| - 4..|header|] == header[|header| - 4..|header|];
      assert DelimiterAt(data, |header| - 4);
    } else {
      assert data == header[..|header| - 1][..|data|];
      if HasDelimiter(data) {
        DelimiterInPrefix(header[..|header| - 1], |data|);
        assert false;
      }
    }
  }

  /** One read moves the boundary between what has been read and what has not. */
  lemma ReadMoves(wire: seq<Byte>, data: seq<Byte>, unread: seq<Byte>, n: nat)
    requires data <= wire && unread == wire[|data|..] && n <= |unread|
    ensures data + unread[..n] == wire[..|data| + n]
    ensures unread[n..] == wire[|data| + n..]
  {}

  lemma OneRead(header: seq<Byte>, wire: seq<Byte>, h: HeaderRead, io: HeaderIo) returns (next: HeaderRead)
    requires IsHeader(header) && header <= wire
    requires h.status.Reading? && h.data <= wire && h.unread == wire[|h.data|..] && |h.data| < |header|
    ensures next == AfterRead(h, io) && next.data <= wire && next.unread == wire[|next.data|..]
    ensures !next.status.Finished? ==> |next.data| < |header|
    ensures next.status.Finished? ==> |header| <= |next.data| < |header| + BUFFER
  {
    next := AfterRead(h, io);
    if io.Reads? {
      ReadMoves(wire, h.data, h.unread, ReadSize(io.want, |h.unread|));
      StopsAtHeader(header, next.data, wire);
    }
  }

  lemma ReadReplyKeepsInv(browser: seq<Byte>, header: seq<Byte>, destination: seq<Byte>, p: Path, io: HeaderIo)
    requires Inv(browser, header, destination, p) && p.phase.AwaitingReply?
    ensures Inv(browser, header, destination, AfterReadReply(p, io))
  {
    var next := OneRead(header, Wire(header, p), HeaderRead(p.reply, p.local.bIn, Reading), io);
    assert Wire(header, AfterReadReply(p, io)) == Wire(header, p);
    NothingForwarded(next.unread);
  }

  /** One read of the reply: it waits on exactly while header bytes are missing, and tunnels exactly on a 200. */
  lemma ReplyReadStep(browser: seq<Byte>, header: seq<Byte>, destination: seq<Byte>, p: Path, io: HeaderIo)
    requires Inv(browser, header, destination, p) && p.phase.AwaitingReply?
    ensures var after := Apply(p, ReadReply(io));
            && (io.ReadError? ==> after.phase.Ended? && after.reply == p.reply)
            && (io.Reads? ==>
                  && |after.reply| == |p.reply| + ReadSize(io.want, |p.local.bIn|)
                  && (after.phase.AwaitingReply? <==> |after.reply| < |header|)
                  && (after.phase.Tunnelling? <==> |after.reply| >= |header| && STATUS_OK <= after.reply))
  {
    var next := OneRead(header, Wire(header, p), HeaderRead(p.reply, p.local.bIn, Reading), io);
  }

  lemma NothingForwarded(unread: seq<Byte>)
    ensures Taken(unread, unread, [], 0, false)
  {}

  lemma StepKeepsInv(browser: seq<Byte>, header: seq<Byte>, destination: seq<Byte>, p: Path, step: Step)
    requires Inv(browser, header, destination, p)
    ensures Inv(browser, header, destination, Apply(p, step))
  {
    if Enabled(p, step) {
      match step {
        case ReadReply(io) => ReadReplyKeepsInv(browser, header, destination, p, io);
        case LocalTurn(turn) => LocalTurnKeepsInv(browser, header, destination, p, turn);
        case RemoteTurn(turn) => RemoteTurnKeepsInv(browser, header, destination, p, turn);
      }
    }
  }

  lemma {:induction false} RunKeepsInv(browser: seq<Byte>, header: seq<Byte>, destination: seq<Byte>, p: Path,
                                       steps: seq<Step>)
    requires Inv(browser, header, destination, p)
    ensures Inv(browser, header, destination, Exec(p, steps))
    decreases |steps|
  {
    if steps != [] {
      StepKeepsInv(browser, header, destination, p, steps[0]);
      RunKeepsInv(browser, header, destination, Apply(p, steps[0]), steps[1..]);
    }
  }

  lemma StartKeepsInv(browser: seq<Byte>, header: seq<Byte>, destination: seq<Byte>)
    requires IsHeader(header)
    ensures Inv(browser, header, destination, Start(browser, header, destination))
  {
    var p := Start(browser, header, destination);
    NothingForwarded(browser);
    NothingForwarded(destination);
    NothingForwarded([]);
    assert Wire(header, p) == header && header[0..] == header;
    NothingForwarded(header);
  }

  // ---- Main results ----

  /**
   For every interleaving of the two proxies and every split of the reads: the
   destination receives a prefix of what the browser sent. The reply read takes
   the header and at most 1023 bytes of the destination's after it; the browser
   receives exactly the bytes after those, so a prefix of what the destination
   sent when the read took none. The receiving hop's count is at most the sending
   hop's, unless that one has failed: a failed hop reports no count.
   */
  lemma TunnelDeliversPrefixes(browser: seq<Byte>, header: seq<Byte>, destination: seq<Byte>, steps: seq<Step>)
    requires IsHeader(header)
    ensures var p := Exec(Start(browser, header, destination), steps);
            var skipped := Skipped(header, p);
            && p.remote.bOut <= browser
            && skipped <= |destination|
            && (p.phase.Tunnelling? ==> skipped <= BUFFER - 1 && p.reply == header + destination[..skipped])
            && (!p.phase.Tunnelling? ==> p.local.aOut == [])
            && p.local.aOut <= destination[skipped..]
            && (skipped == 0 ==> p.local.aOut <= destination)
            && (!p.local.status.Broken? ==> p.remote.aToB <= p.local.aToB)
            && (p.phase.Tunnelling? && !p.remote.status.Broken? ==> p.local.bToA + skipped <= p.remote.bToA)
  {
    StartKeepsInv(browser, header, destination);
    RunKeepsInv(browser, header, destination, Start(browser, header, destination), steps);
    ReadInvariant(browser, header, destination, Exec(Start(browser, header, destination), steps));
  }

  /** A reply that has been read in full opens the tunnel exactly if it begins with the status line of a 200. */
  lemma TunnelOpensIff(browser: seq<Byte>, header: seq<Byte>, destination: seq<Byte>, steps: seq<Step>)
    requires IsHeader(header)
    ensures var p := Exec(Start(browser, header, destination), steps);
            && (|p.reply| >= |header| ==> (p.phase.Tunnelling? <==> STATUS_OK <= p.reply))
            && (p.phase.Tunnelling? ==> |p.reply| >= |header|)
  {
    StartKeepsInv(browser, header, destination);
    RunKeepsInv(browser, header, destination, Start(browser, header, destination), steps);
  }

  /** What the invariant says about the bytes that reach the browser. */
  lemma ReadInvariant(browser: seq<Byte>, header: seq<Byte>, destination: seq<Byte>, p: Path)
    requires Inv(browser, header, destination, p)
    ensures var skipped := Skipped(header, p);
            && p.remote.bOut <= browser
            && skipped <= |destination|
            && (p.phase.Tunnelling? ==> skipped <= BUFFER - 1 && p.reply == header + destination[..skipped])
            && (!p.phase.Tunnelling? ==> p.local.aOut == [])
            && p.local.aOut <= destination[skipped..]
            && (skipped == 0 ==> p.local.aOut <= destination)
            && (!p.local.status.Broken? ==> p.remote.aToB <= p.local.aToB)
            && (p.phase.Tunnelling? && !p.remote.status.Broken? ==> p.local.bToA + skipped <= p.remote.bToA)
  {
    var skipped := Skipped(header, p);
    if p.phase.Tunnelling? {
      assert Wire(header, p)[|p.reply|..] == p.remote.aOut[skipped..];
      assert p.reply == header + p.remote.aOut[..skipped];
      assert p.remote.aOut[skipped..] <= destination[skipped..];
      assert destination[0..] == destination;
    }
  }

  // ---- When the reply read takes tunnel bytes ----

  /** A read of the reply goes past its header; decided before the read. */
  predicate OverReads(header: seq<Byte>, p: Path, step: Step) {
    && step.ReadReply? && p.phase.AwaitingReply? && step.io.Reads?
    && |p.reply| + ReadSize(step.io.want, |p.local.bIn|) > |header|
  }

  ghost predicate SomeOverRead(header: seq<Byte>, p: Path, steps: seq<Step>)
    decreases |steps|
  {
    steps != [] && (OverReads(header, p, steps[0]) || SomeOverRead(header, Apply(p, steps[0]), steps[1..]))
  }

  lemma StepSkipsIff(browser: seq<Byte>, header: seq<Byte>, destination: seq<Byte>, p: Path, step: Step)
    requires Inv(browser, header, destination, p)
    ensures Skipped(header, Apply(p, step)) > 0 <==> Skipped(header, p) > 0 || OverReads(header, p, step)
    ensures OverReads(header, p, step) ==> p.remote.aOut != []
  {
    if step.ReadReply? && p.phase.AwaitingReply? {
      assert p.local.bIn == Wire(header, p)[|p.reply|..];
    }
  }

  /** The browser misses bytes at the end of a run if and only if some read of the reply went past the header. */
  lemma {:induction false} SkippedIffOverRead(browser: seq<Byte>, header: seq<Byte>, destination: seq<Byte>, p: Path,
                                              steps: seq<Step>)
    requires Inv(browser, header, destination, p)
    ensures Skipped(header, Exec(p, steps)) > 0 <==> Skipped(header, p) > 0 || SomeOverRead(header, p, steps)
    decreases |steps|
  {
    if steps != [] {
      StepSkipsIff(browser, header, destination, p, steps[0]);
      StepKeepsInv(browser, header, destination, p, steps[0]);
      SkippedIffOverRead(browser, header, destination, Apply(p, steps[0]), steps[1..]);
    }
  }

  /** Whenever the reply is read, the remote tunnel has not forwarded anything yet. */
  ghost predicate SilentUntilRead(p: Path, steps: seq<Step>)
    decreases |steps|
  {
    steps != [] ==>
      && (steps[0].ReadReply? && p.phase.AwaitingReply? ==> p.remote.aOut == [])
      && SilentUntilRead(Apply(p, steps[0]), steps[1..])
  }

  lemma {:induction false} SilentRunsDoNotOverRead(browser: seq<Byte>, header: seq<Byte>, destination: seq<Byte>,
                                                   p: Path, steps: seq<Step>)
    requires Inv(browser, header, destination, p) && SilentUntilRead(p, steps)
    ensures !SomeOverRead(header, p, steps)
    decreases |steps|
  {
    if steps != [] {
      StepSkipsIff(browser, header, destination, p, steps[0]);
      StepKeepsInv(browser, header, destination, p, steps[0]);
      SilentRunsDoNotOverRead(browser, header, destination, Apply(p, steps[0]), steps[1..]);
    }
  }

  /**
   The reverse direction: the browser receives a prefix of what the destination sent
   in every run in which no read of the reply goes past its header, and none does
   while the destination is silent, as a TLS server is until the client speaks.
   Exactly the other reads make the browser miss bytes.
   */
  lemma BrowserGetsPrefixWithoutOverRead(browser: seq<Byte>, header: seq<Byte>, destination: seq<Byte>,
                                         steps: seq<Step>)
    requires IsHeader(header)
    ensures var start := Start(browser, header, destination);
            var p := Exec(start, steps);
            && (Skipped(header, p) > 0 <==> SomeOverRead(header, start, steps))
            && (!SomeOverRead(header, start, steps) ==> p.local.aOut <= destination)
            && (SilentUntilRead(start, steps) ==> p.local.aOut <= destination)
  {
    var start := Start(browser, header, destination);
    StartKeepsInv(browser, header, destination);
    SkippedIffOverRead(browser, header, destination, start, steps);
    TunnelDeliversPrefixes(browser, header, destination, steps);
    if SilentUntilRead(start, steps) {
      SilentRunsDoNotOverRead(browser, header, destination, start, steps);
    }
  }

  // ---- The over-read happens ----

  lemma ExecCons(p: Path, steps: seq<Step>)
    requires steps != []
    ensures Exec(p, steps) == Exec(Apply(p, steps[0]), steps[1..])
  {}

  lemma {:induction false} ExecConcat(p: Path, xs: seq<Step>, ys: seq<Step>)
    ensures Exec(p, xs + ys) == Exec(Exec(p, xs), ys)
    decreases |xs|
  {
    if xs == [] {
      assert xs + ys == ys;
    } else {
      assert (xs + ys)[1..] == xs[1..] + ys;
      ExecConcat(Apply(p, xs[0]), xs[1..], ys);
    }
  }

  /** The header has been read up to its byte `j`, nothing else has happened. */
  function HeaderReadTo(browser: seq<Byte>, header: seq<Byte>, destination: seq<Byte>, j: nat): Path
    requires j <= |header|
  {
    Start(browser, header, destination).(
      local := Hop(browser, [], header[j..], [], 0, 0, Copying), reply := header[..j])
  }

  function ByteByByte(n: nat): seq<Step> { seq(n, _ => ReadReply(Reads(1))) }

  lemma {:induction false} ReadsByteByByte(browser: seq<Byte>, header: seq<Byte>, destination: seq<Byte>, j: nat,
                                           n: nat)
    requires IsHeader(header) && j + n < |header|
    ensures Exec(HeaderReadTo(browser, header, destination, j), ByteByByte(n))
            == HeaderReadTo(browser, header, destination, j + n)
    decreases n
  {
    if n > 0 {
      var p := HeaderReadTo(browser, header, destination, j);
      StopsAtHeader(header, header[..j + 1], header);
      assert p.reply + p.local.bIn[..1] == header[..j + 1];
      assert Apply(p, ReadReply(Reads(1))) == HeaderReadTo(browser, header, destination, j + 1);
      assert ByteByByte(n)[1..] == ByteByByte(n - 1);
      ReadsByteByByte(browser, header, destination, j + 1, n - 1);
    }
  }

  /** The destination is quick: `k` of its bytes are there when the last byte of the header is read. */
  function QuickDestination(header: seq<Byte>, k: nat): seq<Step>
    requires |header| > 0
  {
    ByteByByte(|header| - 1)
      + [RemoteTurn(Turn(B, k, Works)), ReadReply(Reads(BUFFER)), RemoteTurn(Turn(B, 1, Works)),
         LocalTurn(Turn(B, 1, Works))]
  }

  /**
   For every 200 reply and every `k` up to 1023 there is a run in which the reply
   read takes `k` tunnel bytes, so that the first byte the browser gets is byte
   `k` of what the destination sent: the bound is tight, and the tunnel's promise
   fails whenever that byte differs from the first one.
   */
  lemma OverReadShiftsTheStream(browser: seq<Byte>, header: seq<Byte>, destination: seq<Byte>, k: nat)
    requires IsHeader(header) && STATUS_OK <= header
    requires 1 <= k < BUFFER && k < |destination|
    ensures var p := Exec(Start(browser, header, destination), QuickDestination(header, k));
            && p.phase.Tunnelling? && Skipped(header, p) == k
            && p.local.aOut == [destination[k]]
            && (p.local.aOut <= destination <==> destination[k] == destination[0])
  {
    var n := |header| - 1;
    var start := Start(browser, header, destination);
    assert start == HeaderReadTo(browser, header, destination, 0);
    ReadsByteByByte(browser, header, destination, 0, n);
    var rest := [RemoteTurn(Turn(B, k, Works)), ReadReply(Reads(BUFFER)), RemoteTurn(Turn(B, 1, Works)),
                 LocalTurn(Turn(B, 1, Works))];
    ExecConcat(start, ByteByByte(n), rest);
    LastReadTakesMore(browser, header, destination, k);
  }

  lemma LastReadTakesMore(browser: seq<Byte>, header: seq<Byte>, destination: seq<Byte>, k: nat)
    requires IsHeader(header) && STATUS_OK <= header
    requires 1 <= k < BUFFER && k < |destination|
    ensures var p := Exec(HeaderReadTo(browser, header, destination, |header| - 1),
                          [RemoteTurn(Turn(B, k, Works)), ReadReply(Reads(BUFFER)), RemoteTurn(Turn(B, 1, Works)),
                           LocalTurn(Turn(B, 1, Works))]);
            p.phase.Tunnelling? && |p.reply| == |header| + k && p.local.aOut == [destination[k]]
  {
    var steps := [RemoteTurn(Turn(B, k, Works)), ReadReply(Reads(BUFFER)), RemoteTurn(Turn(B, 1, Works)),
                  LocalTurn(Turn(B, 1, Works))];
    var p0 := HeaderReadTo(browser, header, destination, |header| - 1);
    var p2 := TakenTogether(browser, header, destination, k);
    var p4 := OneByteThrough(p2, destination[k..]);
    ExecCons(p0, steps);
    ExecCons(Apply(p0, steps[0]), steps[1..]);
    ExecCons(p2, steps[2..]);
    ExecCons(Apply(p2, steps[2]), steps[3..]);
  }

  lemma TakenTogether(browser: seq<Byte>, header: seq<Byte>, destination: seq<Byte>, k: nat) returns (p: Path)
    requires IsHeader(header) && STATUS_OK <= header
    requires 1 <= k < BUFFER && k < |destination|
    ensures p == Apply(Apply(HeaderReadTo(browser, header, destination, |header| - 1),
                             RemoteTurn(Turn(B, k, Works))), ReadReply(Reads(BUFFER)))
    ensures p.phase.Tunnelling? && |p.reply| == |header| + k && p.local.aOut == p.local.bIn == []
    ensures p.local.status.Copying? && p.remote.status.Copying? && p.remote.bIn == destination[k..]
  {
    var p0 := HeaderReadTo(browser, header, destination, |header| - 1);
    var p1 := Apply(p0, RemoteTurn(Turn(B, k, Works)));
    assert p1.local.bIn == header[|header| - 1..] + destination[..k];
    var wire := header + destination[..k];
    assert p1.reply + p1.local.bIn == wire;
    StopsAtHeader(header, wire, wire);
    p := AfterReadReply(p1, Reads(BUFFER));
    assert p.reply == wire;
  }

  lemma OneByteThrough(p: Path, input: seq<Byte>) returns (q: Path)
    requires p.phase.Tunnelling? && p.local.status.Copying? && p.remote.status.Copying?
    requires p.local.aOut == p.local.bIn == [] && p.remote.bIn == input != []
    ensures q == Apply(Apply(p, RemoteTurn(Turn(B, 1, Works))), LocalTurn(Turn(B, 1, Works)))
    ensures q.phase.Tunnelling? && q.reply == p.reply && q.local.aOut == [input[0]]
  {
    var mid := Apply(p, RemoteTurn(Turn(B, 1, Works)));
    assert mid.local.bIn == [input[0]];
    q := Apply(mid, LocalTurn(Turn(B, 1, Works)));
  }
}
