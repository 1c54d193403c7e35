/** Reading a WebSocket upgrade and one frame from a socket that delivers any chunks (self_check.py). */
module WebSocketReader {
  import opened Basics
  import opened Text

  type Byte = b: int | 0 <= b < 256

  const MAX_HTTP_HEADER: nat := 64 * 1024
  const MAX_FRAME: nat := 1024 * 1024
  const CHUNK: nat := 4096

  datatype CheckError = ClosedInUpgrade | HeaderTooLarge | InvalidResponse | MalformedHeader
    | ClosedInFrame | Reserved | Fragmented | Masked | FrameTooLarge
    | WrongStatus | NoUpgrade | NoConnectionUpgrade | WrongAccept
    | ClosedByServer(payload: seq<Byte>) | WrongOpcode(opcode: nat)

  // ------------------------------------------------------------ the socket

  /** What a peer sent, in the pieces in which it will arrive. */
  type Chunks = seq<seq<Byte>>

  function Stream(chunks: Chunks): seq<Byte> {
    if chunks == [] then [] else chunks[0] + Stream(chunks[1..])
  }

  ghost predicate NonEmpty(chunks: Chunks) {
    forall i :: 0 <= i < |chunks| ==> chunks[i] != []
  }

  /** recv: the next piece, or as much of it as was asked for; nothing only at the end. */
  function Take(chunks: Chunks, limit: nat): (r: (seq<Byte>, Chunks))
    requires limit > 0 && NonEmpty(chunks)
    ensures r.0 + Stream(r.1) == Stream(chunks) && NonEmpty(r.1) && |r.0| <= limit
    ensures r.0 == [] <==> Stream(chunks) == []
  {
    if chunks == [] then ([], [])
    else
      if |chunks[0]| <= limit then (chunks[0], chunks[1..])
      else
        assert chunks[0] == chunks[0][..limit] + chunks[0][limit..];
        (chunks[0][..limit], [chunks[0][limit..]] + chunks[1..])
  }

  // ------------------------------------------------------------ frames

  function Number(bytes: seq<Byte>): nat {
    if bytes == [] then 0 else Number(bytes[..|bytes| - 1]) * 256 + bytes[|bytes| - 1]
  }

  datatype Frame = Frame(opcode: nat, payload: seq<Byte>)

  /** What the first two bytes forbid. */
  function Refusal(first: Byte, second: Byte): Option<CheckError> {
    if first / 16 % 8 != 0 then Some(Reserved)
    else if first < 128 then Some(Fragmented)
    else if second >= 128 then Some(Masked)
    else None
  }

  /** How many bytes of extended length follow. */
  function Extension(second: Byte): nat {
    if second % 128 == 126 then 2 else if second % 128 == 127 then 8 else 0
  }

  /** The reference: one frame of section 5.2 of RFC 6455 off the front of the whole stream. */
  function ParseFrame(all: seq<Byte>): Result<(Frame, seq<Byte>), CheckError> {
    if |all| < 2 then Err(ClosedInFrame)
    else if Refusal(all[0], all[1]).Some? then Err(Refusal(all[0], all[1]).value)
    else
      var head := 2 + Extension(all[1]);
      if |all| < head then Err(ClosedInFrame)
      else
        var length := if head == 2 then all[1] % 128 else Number(all[2..head]);
        if length > MAX_FRAME then Err(FrameTooLarge)
        else if |all| < head + length then Err(ClosedInFrame)
        else Ok((Frame(all[0] % 16, all[head..head + length]), all[head + length..]))
  }

  /** A frame as a server writes it, with the shortest length form. */
  function PrintFrame(f: Frame): seq<Byte>
    requires f.opcode < 16 && |f.payload| <= MAX_FRAME
  {
    [128 + f.opcode] + PrintLength(|f.payload|) + f.payload
  }

  function PrintLength(n: nat): (r: seq<Byte>)
    requires n <= MAX_FRAME
    ensures r != []
  {
    if n < 126 then [n]
    else if n <= 0xFFFF then [126, n / 256, n % 256]
    else [127, 0, 0, 0, 0, 0, n / 0x10000, n / 256 % 256, n % 256]
  }

  lemma NumberSnoc(bytes: seq<Byte>, b: Byte)
    ensures Number(bytes + [b]) == Number(bytes) * 256 + b
  {
    assert (bytes + [b])[..|bytes|] == bytes;
  }

  lemma NumberOfTwo(a: Byte, b: Byte)
    ensures Number([a, b]) == a * 256 + b
  {
    NumberSnoc([], a);
    NumberSnoc([a], b);
    assert [] + [a] == [a] && [a] + [b] == [a, b];
  }

  lemma {:induction false} NumberOfZeros(n: nat)
    ensures Number(seq(n, i => 0)) == 0
  {
    if n > 0 {
      NumberOfZeros(n - 1);
      NumberSnoc(seq(n - 1, i => 0), 0);
      assert seq<Byte>(n - 1, i => 0) + [0] == seq<Byte>(n, i => 0);
    }
  }

  lemma NumberOfEight(a: Byte, b: Byte, c: Byte)
    ensures Number([0, 0, 0, 0, 0, a, b, c]) == a * 0x10000 + b * 256 + c
  {
    NumberOfZeros(5);
    assert seq<Byte>(5, i => 0) == [0, 0, 0, 0, 0];
    NumberSnoc([0, 0, 0, 0, 0], a);
    NumberSnoc([0, 0, 0, 0, 0, a], b);
    NumberSnoc([0, 0, 0, 0, 0, a, b], c);
    assert [0, 0, 0, 0, 0] + [a] == [0, 0, 0, 0, 0, a] && [0, 0, 0, 0, 0, a] + [b] == [0, 0, 0, 0, 0, a, b];
    assert [0, 0, 0, 0, 0, a, b] + [c] == [0, 0, 0, 0, 0, a, b, c];
  }

  lemma LengthReadsBack(n: nat, tail: seq<Byte>)
    requires n <= MAX_FRAME
    ensures var all := PrintLength(n) + tail; var more := Extension(all[0]);
      && all[0] < 128 && |PrintLength(n)| == 1 + more
      && (if more == 0 then all[0] % 128 else Number(all[1..1 + more])) == n
  {
    var all := PrintLength(n) + tail;
    if n >= 126 {
      if n <= 0xFFFF {
        assert all[1..3] == [n / 256, n % 256];
        NumberOfTwo(n / 256, n % 256);
      } else {
        assert all[1..9] == [0, 0, 0, 0, 0, n / 0x10000, n / 256 % 256, n % 256];
        NumberOfEight(n / 0x10000, n / 256 % 256, n % 256);
      }
    }
  }

  /** Every frame a server writes is read back, and what follows it is left. */
  lemma FrameReadsBack(f: Frame, rest: seq<Byte>)
    requires f.opcode < 16 && |f.payload| <= MAX_FRAME
    ensures ParseFrame(PrintFrame(f) + rest) == Ok((f, rest))
  {
    var n, all := |f.payload|, PrintFrame(f) + rest;
    LengthReadsBack(n, f.payload + rest);
    hide PrintLength, Number, Extension;
    var sized := PrintLength(n) + (f.payload + rest);
    var more := Extension(sized[0]);
    assert all == [128 + f.opcode] + sized;
    assert all[2..2 + more] == sized[1..1 + more];
    assert all[2 + more..2 + more + n] == f.payload && all[2 + more + n..] == rest;
  }

  // ------------------------------------------------------------ the upgrade

  const END_OF_HEADER: seq<Byte> := [13, 10, 13, 10]

  predicate EndsAt(s: seq<Byte>, i: nat) {
    i + 4 <= |s| && s[i..i + 4] == END_OF_HEADER
  }

  lemma EndsShift(s: seq<Byte>)
    requires s != []
    ensures forall j: nat :: j > 0 ==> (EndsAt(s, j) <==> EndsAt(s[1..], j - 1))
  {
    forall j: nat | j > 0 ensures EndsAt(s, j) <==> EndsAt(s[1..], j - 1) {
      if j + 4 <= |s| {
        assert s[j..j + 4] == s[1..][j - 1..j + 3];
      }
    }
  }

  /** Where the blank line first begins. */
  function HeaderEnd(s: seq<Byte>): (r: Option<nat>)
    ensures r.Some? ==> EndsAt(s, r.value) && forall j: nat :: j < r.value ==> !EndsAt(s, j)
    ensures r.Some? ==> r.value + 4 <= |s|
    ensures r.None? ==> forall j: nat :: !EndsAt(s, j)
  {
    if |s| < 4 then None
    else if EndsAt(s, 0) then Some(0)
    else
      var rest := HeaderEnd(s[1..]);
      EndsShift(s);
      if rest.Some? then Some(rest.value + 1) else None
  }

  /** A blank line seen in what has arrived is the first of the whole stream. */
  lemma HeaderEndInPrefix(prefix: seq<Byte>, rest: seq<Byte>)
    ensures HeaderEnd(prefix).Some? ==> HeaderEnd(prefix + rest) == HeaderEnd(prefix)
    ensures HeaderEnd(prefix).None? && HeaderEnd(prefix + rest).Some? ==> HeaderEnd(prefix + rest).value + 4 > |prefix|
  {
    forall j: nat | j + 4 <= |prefix| ensures EndsAt(prefix + rest, j) <==> EndsAt(prefix, j) {
      assert (prefix + rest)[j..j + 4] == prefix[j..j + 4];
    }
  }

  /** The receive loop of the upgrade: the data up to and beyond the blank line, and what is still to arrive. */
  function Receive(data: seq<Byte>, chunks: Chunks): (r: Result<(seq<Byte>, Chunks), CheckError>)
    requires NonEmpty(chunks)
    ensures r.Ok? ==> HeaderEnd(r.value.0).Some? && NonEmpty(r.value.1)
    decreases |Stream(chunks)|
  {
    if HeaderEnd(data).Some? then Ok((data, chunks))
    else
      var (chunk, rest) := Take(chunks, CHUNK);
      if chunk == [] then Err(ClosedInUpgrade)
      else if |data + chunk| > MAX_HTTP_HEADER then Err(HeaderTooLarge)
      else Receive(data + chunk, rest)
  }

  ghost predicate AtMost(chunks: Chunks, piece: nat) {
    forall i :: 0 <= i < |chunks| ==> |chunks[i]| <= piece
  }

  /** The blank line is complete before the cap can be passed, when no piece is longer than this. */
  ghost predicate Fits(stream: seq<Byte>, piece: nat) {
    && HeaderEnd(stream).Some?
    && HeaderEnd(stream).value + 4 <= MAX_HTTP_HEADER
    && (|stream| <= MAX_HTTP_HEADER || HeaderEnd(stream).value + 3 + Min(piece, CHUNK) <= MAX_HTTP_HEADER)
  }

  /** The blank line does not come, or not in time. */
  ghost predicate Overlong(stream: seq<Byte>) {
    if HeaderEnd(stream).Some? then HeaderEnd(stream).value + 4 > MAX_HTTP_HEADER else |stream| > MAX_HTTP_HEADER
  }

  lemma TakeAtMost(chunks: Chunks, limit: nat, piece: nat)
    requires limit > 0 && NonEmpty(chunks) && AtMost(chunks, piece)
    ensures |Take(chunks, limit).0| <= Min(limit, piece) && AtMost(Take(chunks, limit).1, piece)
  {
  }

  /** What has been received so far holds no blank line, so it is short of the first one's end. */
  lemma {:induction false} ReceiveOutcome(data: seq<Byte>, chunks: Chunks, piece: nat)
    requires NonEmpty(chunks) && AtMost(chunks, piece) && |data| <= MAX_HTTP_HEADER
    ensures var stream := data + Stream(chunks); var r := Receive(data, chunks);
      && (r.Ok? ==> HeaderEnd(r.value.0) == HeaderEnd(stream) && r.value.0 + Stream(r.value.1) == stream)
      && (r.Err? ==> r == Err(
          if HeaderEnd(stream).None? && |stream| <= MAX_HTTP_HEADER then ClosedInUpgrade else HeaderTooLarge))
      && (Fits(stream, piece) ==> r.Ok?)
      && (Overlong(stream) ==> r.Err?)
    decreases |Stream(chunks)|
  {
    hide Stream, EndsAt;
    var stream := data + Stream(chunks);
    HeaderEndInPrefix(data, Stream(chunks));
    if HeaderEnd(data).None? {
      var (chunk, rest) := Take(chunks, CHUNK);
      TakeAtMost(chunks, CHUNK, piece);
      assert chunk + Stream(rest) == Stream(chunks);
      if chunk == [] {
        assert stream == data;
      } else {
        assert (data + chunk) + Stream(rest) == stream;
        if |data + chunk| <= MAX_HTTP_HEADER {
          ReceiveOutcome(data + chunk, rest, piece);
        }
      }
    }
  }

  // ------------------------------------------------------------ when the pieces matter

  function Singles(s: seq<Byte>): Chunks {
    seq(|s|, i requires 0 <= i < |s| => [s[i]])
  }

  lemma {:induction false} SinglesStream(s: seq<Byte>)
    ensures Stream(Singles(s)) == s && NonEmpty(Singles(s)) && AtMost(Singles(s), 1)
  {
    if s != [] {
      SinglesStream(s[1..]);
      assert Singles(s)[1..] == Singles(s[1..]);
    }
  }

  /** A peer that sends all but the last byte of the blank line, then the rest at once. */
  lemma {:induction false} LateGulp(data: seq<Byte>, first: seq<Byte>, second: seq<Byte>)
    requires second != [] && |data + first| <= MAX_HTTP_HEADER < |data + first| + Min(|second|, CHUNK)
    ensures NonEmpty(if first == [] then [second] else [first, second])
    ensures HeaderEnd(data + first + second) == Some(|data + first| - 3) ==>
      Receive(data, if first == [] then [second] else [first, second]) == Err(HeaderTooLarge)
    decreases |first|
  {
    hide HeaderEnd, Stream, EndsAt;
    var chunks := if first == [] then [second] else [first, second];
    HeaderEndInPrefix(data, first + second);
    assert data + (first + second) == data + first + second;
    if HeaderEnd(data + first + second) != Some(|data + first| - 3) {
      return;
    }
    assert HeaderEnd(data).None?;
    var (chunk, rest) := Take(chunks, CHUNK);
    if first == [] {
      assert |chunk| == Min(|second|, CHUNK);
    } else {
      var n := Min(|first|, CHUNK);
      assert chunk == first[..n] && rest == if n == |first| then [second] else [first[n..], second];
      assert data + chunk + first[n..] == data + first;
      LateGulp(data + chunk, first[n..], second);
    }
  }

  ghost predicate DiffersBy(stream: seq<Byte>, a: Chunks, b: Chunks) {
    NonEmpty(a) && NonEmpty(b) && Stream(a) == stream && Stream(b) == stream && Receive([], a).Ok? &&
      Receive([], b).Err?
  }

  /** Two ways of cutting the same bytes, one read and one refused. */
  ghost predicate PiecesDecide(stream: seq<Byte>) {
    exists a, b :: DiffersBy(stream, a, b)
  }

  /**
   The pieces decide the outcome exactly when the header ends within the cap
   but the stream goes beyond it, near enough for one receive to draw both.
   */
  lemma PiecesMatter(stream: seq<Byte>)
    requires HeaderEnd(stream).Some?
    ensures PiecesDecide(stream) <==> HeaderEnd(stream).value + 4 <= MAX_HTTP_HEADER && !Fits(stream, CHUNK)
  {
    if HeaderEnd(stream).value + 4 <= MAX_HTTP_HEADER && !Fits(stream, CHUNK) {
      TwoCuts(stream);
    } else if PiecesDecide(stream) {
      var a, b :| DiffersBy(stream, a, b);
      AnyPieces(a);
      AnyPieces(b);
    }
  }

  lemma TwoCuts(stream: seq<Byte>)
    requires HeaderEnd(stream).Some? && HeaderEnd(stream).value + 4 <= MAX_HTTP_HEADER && !Fits(stream, CHUNK)
    ensures PiecesDecide(stream)
  {
    hide HeaderEnd, EndsAt, Receive, Stream;
    var i := HeaderEnd(stream).value;
    var a: Chunks := Singles(stream);
    SinglesStream(stream);
    assert [] + stream == stream;
    ReceiveOutcome([], a, 1);
    assert stream[..i + 3] + stream[i + 3..] == stream;
    GulpedLate(stream[..i + 3], stream[i + 3..]);
    assert DiffersBy(stream, a, [stream[..i + 3], stream[i + 3..]]);
  }

  /** A second piece that carries the end of the header past the cap is refused. */
  lemma GulpedLate(first: seq<Byte>, second: seq<Byte>)
    requires first != [] && second != [] && |first| <= MAX_HTTP_HEADER < |first| + Min(|second|, CHUNK)
    requires HeaderEnd(first + second) == Some(|first| - 3)
    ensures NonEmpty([first, second]) && Stream([first, second]) == first + second
    ensures Receive([], [first, second]) == Err(HeaderTooLarge)
  {
    hide HeaderEnd, EndsAt, Receive, Stream;
    assert [] + first + second == first + second && [] + first == first;
    LateGulp([], first, second);
    StreamOfTwo(first, second);
  }

  lemma StreamOfTwo(a: seq<Byte>, b: seq<Byte>)
    ensures Stream([a, b]) == a + b
  {
    assert [a, b][1..] == [b] && [b][1..] == [];
    assert Stream([b]) == b + [] == b;
  }

  lemma AnyPieces(chunks: Chunks)
    requires NonEmpty(chunks)
    ensures var stream := Stream(chunks); var r := Receive([], chunks);
      && (r.Ok? ==> HeaderEnd(r.value.0) == HeaderEnd(stream) && r.value.0 + Stream(r.value.1) == stream)
      && (r.Err? ==> r == Err(
          if HeaderEnd(stream).None? && |stream| <= MAX_HTTP_HEADER then ClosedInUpgrade else HeaderTooLarge))
      && (Fits(stream, CHUNK) ==> r.Ok?)
      && (Overlong(stream) ==> r.Err?)
  {
    assert [] + Stream(chunks) == Stream(chunks);
    var piece := Longest(chunks);
    ReceiveOutcome([], chunks, piece);
  }

  lemma {:induction false} Longest(chunks: Chunks) returns (piece: nat)
    ensures AtMost(chunks, piece)
  {
    if chunks == [] {
      piece := 0;
    } else {
      var rest := Longest(chunks[1..]);
      piece := Max(rest, |chunks[0]|);
      assert forall i :: 0 < i < |chunks| ==> chunks[i] == chunks[1..][i - 1];
    }
  }

  // ------------------------------------------------------------ head lines

  function SplitLines(s: string): (r: seq<string>)
    ensures |r| >= 1
    decreases |s|
  {
    var i := IndexOf(s, '\r');
    if i + 1 >= |s| then [s]
    else if s[i + 1] == '\n' then [s[..i]] + SplitLines(s[i + 2..])
    else
      var rest := SplitLines(s[i + 1..]);
      [s[..i + 1] + rest[0]] + rest[1..]
  }

  /** int(line.split(" ", 2)[1]). */
  function StatusOf(line: string): Option<int> {
    var i := IndexOf(line, ' ');
    if i == |line| then None
    else
      var rest := line[i + 1..];
      ParseInt(Strip(rest[..IndexOf(rest, ' ')]))
  }

  function Headers(lines: seq<string>): Result<map<string, string>, CheckError> {
    if lines == [] then Ok(map[])
    else
      match Headers(lines[..|lines| - 1])
      case Err(e) => Err(e)
      case Ok(before) =>
        var line := lines[|lines| - 1];
        var i := IndexOf(line, ':');
        if i == |line| then Err(MalformedHeader) else Ok(before[Lower(Strip(line[..i])) := Strip(line[i + 1..])])
  }

  /** bytes.decode("iso-8859-1"). */
  function Latin1(bytes: seq<Byte>): string {
    seq(|bytes|, i requires 0 <= i < |bytes| => bytes[i] as char)
  }

  function ParseHead(raw: seq<Byte>): Result<(int, map<string, string>), CheckError> {
    var lines := SplitLines(Latin1(raw));
    match StatusOf(lines[0])
    case None => Err(InvalidResponse)
    case Some(status) =>
      match Headers(lines[1..])
      case Err(e) => Err(e)
      case Ok(headers) => Ok((status, headers))
  }

  datatype Upgrade = Upgrade(status: int, headers: map<string, string>, remainder: seq<Byte>)

  /** The reference: the upgrade response off the front of the whole stream. */
  function ParseUpgrade(stream: seq<Byte>): Result<Upgrade, CheckError> {
    match HeaderEnd(stream)
    case None => Err(ClosedInUpgrade)
    case Some(i) =>
      match ParseHead(stream[..i])
      case Err(e) => Err(e)
      case Ok((status, headers)) => Ok(Upgrade(status, headers, stream[i + 4..]))
  }

  // ------------------------------------------------------------ the reply

  function Get(headers: map<string, string>, name: string): string {
    if name in headers then headers[name] else ""
  }

  /** Why an upgrade response does not switch protocols; the accept value is what the key asks for. */
  function NoSwitch(status: int, headers: map<string, string>, accept: string): Option<CheckError> {
    if status != 101 then Some(WrongStatus)
    else if Lower(Get(headers, "upgrade")) != "websocket" then Some(NoUpgrade)
    else if forall part <- Split(Get(headers, "connection"), ',') :: Lower(Strip(part)) != "upgrade" then
      Some(NoConnectionUpgrade)
    else if "sec-websocket-accept" !in headers || headers["sec-websocket-accept"] != accept then Some(WrongAccept)
    else None
  }

  /** Why a frame is not a message. */
  function NoText(f: Frame): Option<CheckError> {
    if f.opcode == 8 then Some(ClosedByServer(f.payload))
    else if f.opcode != 1 then Some(WrongOpcode(f.opcode))
    else None
  }

  /** The reference: the payload of the first message after the upgrade, off the front of the whole stream. */
  function ParseReply(stream: seq<Byte>, accept: string): Result<(seq<Byte>, seq<Byte>), CheckError> {
    match ParseUpgrade(stream)
    case Err(e) => Err(e)
    case Ok(u) =>
      var refused := NoSwitch(u.status, u.headers, accept);
      if refused.Some? then Err(refused.value)
      else
        match ParseFrame(u.remainder)
        case Err(e) => Err(e)
        case Ok((frame, rest)) =>
          if NoText(frame).Some? then Err(NoText(frame).value) else Ok((frame.payload, rest))
  }

  lemma UpgradeReadsBack(head: seq<Byte>, tail: seq<Byte>)
    requires HeaderEnd(head + END_OF_HEADER) == Some(|head|) && ParseHead(head).Ok?
    ensures ParseUpgrade(head + END_OF_HEADER + tail) ==
      Ok(Upgrade(ParseHead(head).value.0, ParseHead(head).value.1, tail))
  {
    hide HeaderEnd, ParseHead, EndsAt;
    HeaderEndInPrefix(head + END_OF_HEADER, tail);
    SlicesBehind(head, END_OF_HEADER, tail);
  }

  lemma SlicesBehind(a: seq<Byte>, b: seq<Byte>, c: seq<Byte>)
    ensures (a + b + c)[..|a|] == a && (a + b + c)[|a| + |b|..] == c
  {
  }

  /** A message sent right behind a response that switches protocols is the one read, and what follows it is left. */
  lemma ReplyReadsBack(head: seq<Byte>, payload: seq<Byte>, rest: seq<Byte>, accept: string)
    requires HeaderEnd(head + END_OF_HEADER) == Some(|head|) && |payload| <= MAX_FRAME
    requires ParseHead(head).Ok? && NoSwitch(ParseHead(head).value.0, ParseHead(head).value.1, accept).None?
    ensures ParseReply(head + END_OF_HEADER + (PrintFrame(Frame(1, payload)) + rest), accept) == Ok((payload, rest))
  {
    hide HeaderEnd, ParseHead, NoSwitch, ParseFrame, PrintFrame, ParseUpgrade;
    UpgradeReadsBack(head, PrintFrame(Frame(1, payload)) + rest);
    FrameReadsBack(Frame(1, payload), rest);
  }

  // ------------------------------------------------------------ the reader

  class Connection {
    var chunks: Chunks

    ghost predicate Valid()
      reads this
    {
      NonEmpty(chunks)
    }

    function Unread(): seq<Byte>
      reads this
    {
      Stream(chunks)
    }

    method Recv(limit: nat) returns (chunk: seq<Byte>)
      requires Valid() && limit > 0
      modifies this
      ensures Valid() && (chunk, chunks) == Take(old(chunks), limit)
    {
      var taken := Take(chunks, limit);
      chunk := taken.0;
      chunks := taken.1;
    }
  }

  class Buffer {
    var bytes: seq<Byte>

    constructor (initial: seq<Byte>)
      ensures bytes == initial
    {
      bytes := initial;
    }
  }

  lemma TakeShrinks(chunks: Chunks, limit: nat)
    requires limit > 0 && NonEmpty(chunks)
    ensures Take(chunks, limit).0 != [] ==> |Stream(Take(chunks, limit).1)| < |Stream(chunks)|
  {
  }

  /** The receive loop. */
  method ReceiveHeader(connection: Connection) returns (r: Result<seq<Byte>, CheckError>)
    requires connection.Valid()
    modifies connection
    ensures connection.Valid()
    ensures match Receive([], old(connection.chunks))
      case Ok((data, rest)) => r == Ok(data) && connection.chunks == rest
      case Err(e) => r == Err(e)
  {
    hide HeaderEnd, Take;
    var data: seq<Byte> := [];
    while HeaderEnd(data).None?
      invariant connection.Valid()
      invariant Receive(data, connection.chunks) == Receive([], old(connection.chunks))
      decreases |connection.Unread()|
    {
      ghost var before := connection.chunks;
      var chunk := connection.Recv(CHUNK);
      TakeShrinks(before, CHUNK);
      if chunk == [] {
        return Err(ClosedInUpgrade);
      }
      data := data + chunk;
      if |data| > MAX_HTTP_HEADER {
        return Err(HeaderTooLarge);
      }
    }
    r := Ok(data);
  }

  /** What the caller gets, in terms of the whole stream: in the one case where the pieces matter, either. */
  ghost predicate UpgradeRead(stream: seq<Byte>, r: Result<Upgrade, CheckError>) {
    if Overlong(stream) then r == Err(HeaderTooLarge)
    else r == ParseUpgrade(stream) || (r == Err(HeaderTooLarge) && HeaderEnd(stream).Some? && !Fits(stream, CHUNK))
  }

  /** The outcome of the loop decides the outcome of the upgrade. */
  lemma UpgradeOfReceived(chunks: Chunks, r: Result<Upgrade, CheckError>)
    requires NonEmpty(chunks)
    requires match Receive([], chunks)
      case Err(e) => r == Err(e)
      case Ok((data, rest)) =>
        match ParseHead(data[..HeaderEnd(data).value])
        case Err(e) => r == Err(e)
        case Ok((status, headers)) =>
          r == Ok(Upgrade(status, headers, data[HeaderEnd(data).value + 4..] + Stream(rest)))
    ensures UpgradeRead(Stream(chunks), r)
  {
    hide ParseHead, HeaderEnd, Receive, Stream, EndsAt, Fits;
    AnyPieces(chunks);
    match Receive([], chunks)
    case Err(e) =>
    case Ok((data, rest)) => SameHead(Stream(chunks), data, Stream(rest));
  }

  lemma SameHead(stream: seq<Byte>, data: seq<Byte>, rest: seq<Byte>)
    requires stream == data + rest && HeaderEnd(data).Some? && HeaderEnd(stream) == HeaderEnd(data)
    ensures var i := HeaderEnd(data).value; data[..i] == stream[..i] && data[i + 4..] + rest == stream[i + 4..]
  {
  }

  /** _read_upgrade_response. */
  method ReadUpgradeResponse(connection: Connection) returns (r: Result<(int, map<string, string>, Buffer), CheckError>)
    requires connection.Valid()
    modifies connection
    ensures connection.Valid() && (r.Ok? ==> fresh(r.value.2))
    ensures UpgradeRead(old(connection.Unread()),
      if r.Ok? then Ok(Upgrade(r.value.0, r.value.1, r.value.2.bytes + connection.Unread())) else Err(r.error))
  {
    hide ParseHead, UpgradeRead, HeaderEnd, Receive, Stream;
    var data := ReceiveHeader(connection);
    if data.Err? {
      UpgradeOfReceived(old(connection.chunks), Err(data.error));
      return Err(data.error);
    }
    var i := HeaderEnd(data.value).value;
    var head := ParseHead(data.value[..i]);
    if head.Err? {
      UpgradeOfReceived(old(connection.chunks), Err(head.error));
      return Err(head.error);
    }
    var buffer := new Buffer(data.value[i + 4..]);
    UpgradeOfReceived(old(connection.chunks),
      Ok(Upgrade(head.value.0, head.value.1, buffer.bytes + connection.Unread())));
    r := Ok((head.value.0, head.value.1, buffer));
  }

  /** _read_exact. */
  method ReadExact(connection: Connection, buffer: Buffer, size: nat) returns (r: Result<seq<Byte>, CheckError>)
    requires connection.Valid()
    modifies connection, buffer
    ensures connection.Valid()
    ensures var all := old(buffer.bytes + connection.Unread());
      if |all| < size then r == Err(ClosedInFrame)
      else r == Ok(all[..size]) && buffer.bytes + connection.Unread() == all[size..]
  {
    ghost var all := buffer.bytes + connection.Unread();
    while |buffer.bytes| < size
      invariant connection.Valid() && buffer.bytes + connection.Unread() == all
      decreases |connection.Unread()|
    {
      var chunk := connection.Recv(Max(CHUNK, size - |buffer.bytes|));
      if chunk == [] {
        return Err(ClosedInFrame);
      }
      buffer.bytes := buffer.bytes + chunk;
    }
    var result := buffer.bytes[..size];
    assert result == all[..size] && buffer.bytes[size..] + connection.Unread() == all[size..];
    buffer.bytes := buffer.bytes[size..];
    r := Ok(result);
  }

  /** _read_frame. */
  method ReadFrame(connection: Connection, buffer: Buffer) returns (r: Result<Frame, CheckError>)
    requires connection.Valid()
    modifies connection, buffer
    ensures connection.Valid()
    ensures var whole := ParseFrame(old(buffer.bytes + connection.Unread()));
      if r.Ok? then whole == Ok((r.value, buffer.bytes + connection.Unread())) else whole == Err(r.error)
  {
    hide Stream, Refusal, Number, NonEmpty;
    ghost var all := buffer.bytes + connection.Unread();
    var start := ReadExact(connection, buffer, 2);
    if start.Err? { return Err(start.error); }
    var first, second := start.value[0], start.value[1];
    var refusal := Refusal(first, second);
    if refusal.Some? { return Err(refusal.value); }
    var length: nat := second % 128;
    var more := Extension(second);
    if more > 0 {
      var extended := ReadExact(connection, buffer, more);
      if extended.Err? { return Err(extended.error); }
      assert all[2..][..more] == all[2..2 + more] && all[2..][more..] == all[2 + more..];
      length := Number(extended.value);
    }
    assert buffer.bytes + connection.Unread() == all[2 + more..];
    var head := 2 + more;
    if length > MAX_FRAME { return Err(FrameTooLarge); }
    var payload := ReadExact(connection, buffer, length);
    if payload.Err? { return Err(payload.error); }
    assert all[head..][..length] == all[head..head + length] && all[head..][length..] == all[head + length..];
    r := Ok(Frame(first % 16, payload.value));
  }

  /**
   What the check gets: the whole-stream reading, or the size error of the
   upgrade; the pieces in which the frame comes never matter.
   */
  ghost predicate ReplyRead(stream: seq<Byte>, accept: string, r: Result<(seq<Byte>, seq<Byte>), CheckError>) {
    if Overlong(stream) then r == Err(HeaderTooLarge)
    else
      || r == ParseReply(stream, accept)
      || (r == Err(HeaderTooLarge) && HeaderEnd(stream).Some? && !Fits(stream, CHUNK))
  }

  /** The upgrade, then the frame that begins in what came with it. */
  method ReadReply(connection: Connection, accept: string) returns (r: Result<(seq<Byte>, Buffer), CheckError>)
    requires connection.Valid()
    modifies connection
    ensures connection.Valid() && (r.Ok? ==> fresh(r.value.1))
    ensures ReplyRead(old(connection.Unread()), accept,
      if r.Ok? then Ok((r.value.0, r.value.1.bytes + connection.Unread())) else Err(r.error))
  {
    hide Stream, HeaderEnd, Fits, Overlong, ParseHead, ParseFrame, NoSwitch;
    var upgrade := ReadUpgradeResponse(connection);
    if upgrade.Err? { return Err(upgrade.error); }
    var (status, headers, buffer) := upgrade.value;
    var refused := NoSwitch(status, headers, accept);
    if refused.Some? { return Err(refused.value); }
    var frame := ReadFrame(connection, buffer);
    if frame.Err? { return Err(frame.error); }
    var other := NoText(frame.value);
    if other.Some? { return Err(other.value); }
    r := Ok((frame.value.payload, buffer));
  }
}
