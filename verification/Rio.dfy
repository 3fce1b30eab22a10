/**
  The buffered reader of the Rio package (csapp.c).  What the descriptor will do
  is a script of read(2) results: interrupted calls, chunks of any length up to
  the buffer size, end of file, errors.  After the script every read is at end of
  file.
 */
module Rio {
  import opened Common

  const RIO_BUFSIZE := 8192
  const NEWLINE: byte := 10

  datatype Event = Interrupted | Chunk(bytes: seq<byte>) | Eof | Error

  /** How the bytes that can be read without a pause end. */
  datatype End = AtEof | AtError

  predicate GoodScript(script: seq<Event>) {
    forall i | 0 <= i < |script| :: script[i].Chunk? ==> 1 <= |script[i].bytes| <= RIO_BUFSIZE
  }

  /** The bytes the descriptor delivers before it next reports end of file or an error. */
  function Incoming(script: seq<Event>): seq<byte> {
    if script == [] then []
    else match script[0]
         case Interrupted => Incoming(script[1..])
         case Chunk(bytes) => bytes + Incoming(script[1..])
         case Eof => []
         case Error => []
  }

  function Ending(script: seq<Event>): End {
    if script == [] then AtEof
    else match script[0]
         case Interrupted => Ending(script[1..])
         case Chunk(_) => Ending(script[1..])
         case Eof => AtEof
         case Error => AtError
  }

  /** Every byte of a script, across ends of file and errors. */
  function Whole(script: seq<Event>): seq<byte> {
    if script == [] then []
    else (if script[0].Chunk? then script[0].bytes else []) + Whole(script[1..])
  }

  /** No end of file or error before the end of the script. */
  predicate Plain(script: seq<Event>) {
    forall i | 0 <= i < |script| :: script[i].Interrupted? || script[i].Chunk?
  }

  lemma {:induction false} PlainIncoming(script: seq<Event>)
    requires Plain(script)
    ensures Incoming(script) == Whole(script) && Ending(script) == AtEof
  {
    if script != [] {
      PlainIncoming(script[1..]);
    }
  }

  /** Where a line read from these bytes, with room for `room`, stops. */
  function LineLength(bytes: seq<byte>, room: nat): (k: nat)
    ensures k <= |bytes| && k <= room
    ensures forall j | 0 <= j < k - 1 :: bytes[j] != 10
    ensures k < |bytes| && k < room ==> k >= 1 && bytes[k - 1] == 10
  {
    if bytes == [] || room == 0 then 0
    else if bytes[0] == NEWLINE then 1
    else 1 + LineLength(bytes[1..], room - 1)
  }

  /** The source is what was delivered, then what is buffered, then what is still to come. */
  ghost predicate Balance(source: seq<byte>, delivered: seq<byte>, unread: seq<byte>, script: seq<Event>) {
    source == delivered + (unread + Whole(script))
  }

  /** The bytes a caller can still get before end of file or an error. */
  function AheadOf(unread: seq<byte>, script: seq<Event>): seq<byte> {
    unread + Incoming(script)
  }

  /** One read(2) with nothing buffered. */
  lemma NextEvent(source: seq<byte>, delivered: seq<byte>, script: seq<Event>)
    requires Balance(source, delivered, [], script) && script != []
    ensures var more := script[1..];
      match script[0]
      case Interrupted =>
        && Balance(source, delivered, [], more) && AheadOf([], more) == AheadOf([], script)
        && Ending(script) == Ending(more)
      case Chunk(bytes) =>
        && Balance(source, delivered, bytes, more) && AheadOf(bytes, more) == AheadOf([], script)
        && Ending(script) == Ending(more)
      case Eof => Balance(source, delivered, [], more) && AheadOf([], script) == [] && Ending(script) == AtEof
      case Error => Balance(source, delivered, [], more) && AheadOf([], script) == [] && Ending(script) == AtError
  {
    var more := script[1..];
    assert [] + Whole(more) == Whole(more) && [] + Incoming(more) == Incoming(more);
    assert [] + Whole(script) == Whole(script) && [] + Incoming(script) == Incoming(script);
  }

  lemma NoEvent()
    ensures AheadOf([], []) == [] && Ending([]) == AtEof
  {
  }

  lemma Taken(u: seq<byte>, rest: seq<byte>, c: nat)
    requires c <= |u|
    ensures u[..c] <= u + rest && (u + rest)[c..] == u[c..] + rest
  {
  }

  lemma Regroup(d: seq<byte>, u: seq<byte>, rest: seq<byte>, c: nat)
    requires c <= |u|
    ensures d + (u + rest) == (d + u[..c]) + (u[c..] + rest)
  {
  }

  /** Handing out the first c unread bytes. */
  lemma HandOut(source: seq<byte>, delivered: seq<byte>, u: seq<byte>, script: seq<Event>, c: nat)
    requires Balance(source, delivered, u, script) && c <= |u|
    ensures Balance(source, delivered + u[..c], u[c..], script)
    ensures u[..c] <= AheadOf(u, script) && AheadOf(u[c..], script) == AheadOf(u, script)[c..]
  {
    hide Whole, Incoming;
    Regroup(delivered, u, Whole(script), c);
    Taken(u, Incoming(script), c);
  }

  lemma Slices(s: seq<byte>, i: nat, c: nat, n: nat)
    requires c <= n && i + n <= |s|
    ensures s[i..i + c] == s[i..i + n][..c] && s[i + c..i + n] == s[i..i + n][c..]
    ensures c == n ==> s[i..i + n][c..] == []
  {
  }

  lemma Chain(a: seq<byte>, b: seq<byte>, c: seq<byte>)
    ensures a + b + c == a + (b + c)
  {
  }

  lemma TakeMore(all: seq<byte>, k: nat, got: seq<byte>)
    requires k <= |all| && got <= all[k..]
    ensures k + |got| <= |all| && all[..k] + got == all[..k + |got|]
    ensures all[k..][|got|..] == all[k + |got|..]
  {
    assert got == all[k..][..|got|];
  }

  /** How far a line has been read: all of `got`, none of it a newline. */
  ghost predicate Within(all: seq<byte>, room: nat, got: seq<byte>) {
    && |got| <= |all| && |got| <= room && got == all[..|got|]
    && LineLength(all, room) == |got| + LineLength(all[|got|..], room - |got|)
  }

  lemma LineStart(all: seq<byte>, room: nat)
    ensures Within(all, room, [])
  {
    assert all[0..] == all;
  }

  lemma LineStep(all: seq<byte>, room: nat, got: seq<byte>, c: byte)
    requires Within(all, room, got) && |got| < room && got + [c] <= all
    ensures c != NEWLINE ==> Within(all, room, got + [c])
    ensures c == NEWLINE ==> Stopped(all, room, got + [c])
  {
    assert all[|got|..][0] == (got + [c])[|got|] == c;
    assert all[|got|..][1..] == all[|got + [c]|..];
  }

  lemma LineEnd(all: seq<byte>, room: nat, got: seq<byte>)
    requires Within(all, room, got) && (got == all || |got| == room)
    ensures Stopped(all, room, got)
  {
  }

  /** The whole line has been read. */
  ghost predicate Stopped(all: seq<byte>, room: nat, got: seq<byte>) {
    LineLength(all, room) == |got| <= |all| && got == all[..|got|]
  }

  class Reader {
    var script: seq<Event>
    var cnt: int          // unread bytes in buf; negative after an error
    var bufptr: nat
    var buf: array<byte>
    ghost const source: seq<byte>     // every byte of the descriptor
    ghost var delivered: seq<byte>    // every byte handed to callers

    ghost predicate Valid()
      reads this, buf
    {
      && buf.Length == RIO_BUFSIZE && GoodScript(script)
      && (cnt > 0 ==> bufptr + cnt <= RIO_BUFSIZE)
      && Balance(source, delivered, Unread(), script)
    }

    /** Nothing is lost, repeated or reordered. */
    lemma Conserved()
      requires Valid()
      ensures source == delivered + Unread() + Whole(script)
      ensures Plain(script) ==> source == delivered + Ahead()
    {
      if Plain(script) {
        PlainIncoming(script);
      }
      Chain(delivered, Unread(), Whole(script));
    }

    ghost function Unread(): seq<byte>
      reads this, buf
    {
      if cnt > 0 && bufptr + cnt <= buf.Length then buf[bufptr..bufptr + cnt] else []
    }

    ghost function Ahead(): seq<byte>
      reads this, buf
    {
      AheadOf(Unread(), script)
    }

    /** A call that began with `all` ahead has delivered `got` of it, after `start`. */
    ghost predicate Reads(start: seq<byte>, all: seq<byte>, end: End, got: seq<byte>)
      reads this, buf
    {
      && got <= all && delivered == start + got && Ending(script) == end
      && Ahead() == all[|got|..]
    }

    /** rio_readinitb */
    constructor (script: seq<Event>)
      requires GoodScript(script)
      ensures Valid() && fresh(buf) && this.script == script
      ensures Unread() == [] && source == Whole(script) && delivered == []
    {
      this.script := script;
      buf := new byte[RIO_BUFSIZE](_ => 0);
      cnt, bufptr := 0, 0;
      source, delivered := Whole(script), [];
    }

    /** The refill loop of rio_read: 1 when there are unread bytes, 0 at end of file, -1 on error. */
    method Refill() returns (rc: int)
      requires Valid()
      modifies this, buf
      ensures old(Plain(script)) ==> Plain(script)
      ensures Valid() && buf == old(buf) && delivered == old(delivered)
      ensures rc == 1 ==> cnt > 0 && Ahead() == old(Ahead()) && Ending(script) == old(Ending(script))
      ensures rc != 1 ==> old(Ahead()) == [] && cnt <= 0
      ensures rc != 1 ==> rc == if old(Ending(script)) == AtEof then 0 else -1
    {
      hide Balance, AheadOf, Ending;
      while cnt <= 0
        invariant old(Plain(script)) ==> Plain(script)
        invariant Valid() && buf == old(buf) && delivered == old(delivered)
        invariant Ahead() == old(Ahead()) && Ending(script) == old(Ending(script))
        decreases |script|, cnt <= 0
      {
        if script == [] {
          NoEvent();
          cnt := 0;
          return 0;
        }
        NextEvent(source, delivered, script);
        var event := script[0];
        script := script[1..];
        match event {
          case Interrupted =>
            cnt := -1;
          case Error =>
            cnt := -1;
            return -1;
          case Eof =>
            cnt := 0;
            return 0;
          case Chunk(bytes) =>
            Fill(bytes);
        }
      }
      return 1;
    }

    /** A read(2) that puts bytes at the start of the buffer. */
    method Fill(bytes: seq<byte>)
      requires buf.Length == RIO_BUFSIZE && 1 <= |bytes| <= RIO_BUFSIZE
      modifies this`cnt, this`bufptr, buf
      ensures cnt == |bytes| && bufptr == 0 && Unread() == bytes
    {
      forall j | 0 <= j < |bytes| {
        buf[j] := bytes[j];
      }
      cnt, bufptr := |bytes|, 0;
      assert buf[0..|bytes|] == bytes;
    }

    /** The copying half of rio_read. */
    method CopyOut(n: nat) returns (data: seq<byte>)
      requires Valid() && n >= 1 && cnt > 0
      modifies this`bufptr, this`cnt, this`delivered
      ensures Valid() && delivered == old(delivered) + data
      ensures 1 <= |data| <= n && data <= old(Ahead()) && Ahead() == old(Ahead())[|data|..]
    {
      hide Balance, AheadOf;
      var c := n;
      if cnt < n {
        c := cnt;
      }
      ghost var unread := Unread();
      data := buf[bufptr..bufptr + c];
      Slices(buf[..], bufptr, c, cnt);
      assert buf[bufptr..bufptr + cnt] == buf[..][bufptr..bufptr + cnt];
      assert buf[bufptr..bufptr + c] == buf[..][bufptr..bufptr + c];
      assert buf[bufptr + c..bufptr + cnt] == buf[..][bufptr + c..bufptr + cnt];
      bufptr := bufptr + c;
      cnt := cnt - c;
      HandOut(source, delivered, unread, script, c);
      delivered := delivered + data;
    }

    /** rio_read, for n >= 1: the value returned and the bytes copied to the user. */
    method Read(n: nat) returns (rc: int, data: seq<byte>)
      requires Valid() && n >= 1
      modifies this, buf
      ensures old(Plain(script)) ==> Plain(script)
      ensures Valid() && buf == old(buf)
      ensures delivered == old(delivered) + data
      ensures |data| <= n && data <= old(Ahead())
      ensures data != [] ==> rc == |data| && Ahead() == old(Ahead())[|data|..] && Ending(script) == old(Ending(script))
      ensures data == [] ==> old(Ahead()) == [] && rc == if old(Ending(script)) == AtEof then 0 else -1
    {
      hide Balance, AheadOf, Unread, Ending, Plain;
      rc := Refill();
      if rc <= 0 {
        return rc, [];
      }
      data := CopyOut(n);
      rc := |data|;
    }

    /** rio_read as one step of a longer call. */
    method ReadMore(n: nat, ghost start: seq<byte>, ghost all: seq<byte>, ghost end: End, got: seq<byte>)
        returns (rc: int, data: seq<byte>)
      requires Valid() && n >= 1 && Reads(start, all, end, got)
      modifies this, buf
      ensures old(Plain(script)) ==> Plain(script)
      ensures Valid() && buf == old(buf)
      ensures got <= data && data <= all && |data| <= |got| + n && delivered == start + data
      ensures data != got ==> rc == |data| - |got| && Reads(start, all, end, data)
      ensures data == got ==> data == all && rc == if end == AtEof then 0 else -1
    {
      hide Balance, AheadOf, Unread, Ending, Plain;
      var bytes;
      rc, bytes := Read(n);
      TakeMore(all, |got|, bytes);
      Chain(start, got, bytes);
      data := got + bytes;
    }

    /** rio_readnb: n bytes, fewer only at end of file. */
    method ReadNb(n: nat) returns (rc: int, data: seq<byte>)
      requires Valid()
      modifies this, buf
      ensures old(Plain(script)) ==> Plain(script)
      ensures Valid() && buf == old(buf) && delivered == old(delivered) + data
      ensures data <= old(Ahead())
      ensures old(|Ahead()|) >= n ==>
        rc == |data| == n && Reads(old(delivered), old(Ahead()), old(Ending(script)), data)
      ensures old(|Ahead()|) < n ==> data == old(Ahead()) && rc == if old(Ending(script)) == AtEof then |data| else -1
    {
      hide Balance, AheadOf, Unread, Ending, Plain;
      ghost var start, all, end := delivered, Ahead(), Ending(script);
      var nleft: nat := n;
      data := [];
      while nleft > 0
        invariant old(Plain(script)) ==> Plain(script)
        invariant Valid() && buf == old(buf) && Reads(start, all, end, data)
        invariant nleft <= n && |data| == n - nleft
      {
        var nread;
        nread, data := ReadMore(nleft, start, all, end, data);
        if nread < 0 {
          return -1, data;
        } else if nread == 0 {
          break;
        }
        nleft := nleft - nread;
      }
      return n - nleft, data;
    }

    /** rio_readlineb: through the first newline, or maxlen - 1 bytes, or to end of file. */
    method ReadLineb(maxlen: nat) returns (rc: int, data: seq<byte>)
      requires Valid()
      modifies this, buf
      ensures old(Plain(script)) ==> Plain(script)
      ensures Valid() && buf == old(buf) && delivered == old(delivered) + data
      ensures Stopped(old(Ahead()), if maxlen == 0 then 0 else maxlen - 1, data)
      ensures data != [] && data[|data| - 1] == 10 ==> rc == |data|
      ensures data == [] || data[|data| - 1] != 10 ==>
        if |data| + 1 >= maxlen then rc == |data| + 1
        else if old(Ending(script)) == AtError then rc == -1
        else rc == if data == [] then 0 else |data| + 1
    {
      hide Balance, AheadOf, Unread, Ending, Within, Stopped;
      ghost var start, all, end := delivered, Ahead(), Ending(script);
      ghost var room := if maxlen == 0 then 0 else maxlen - 1;
      data := [];
      var n := 1;
      LineStart(all, room);
      while n < maxlen
        invariant old(Plain(script)) ==> Plain(script)
        invariant Valid() && buf == old(buf) && Reads(start, all, end, data)
        invariant n == |data| + 1 && |data| <= room && Within(all, room, data)
        invariant data != [] ==> data[|data| - 1] != NEWLINE
      {
        ghost var got := data;
        rc, data := ReadMore(1, start, all, end, data);
        if rc == 1 {
          var c := data[|data| - 1];
          assert data == got + [c];
          LineStep(all, room, got, c);
          if c == NEWLINE {
            return n, data;
          }
        } else if rc == 0 {
          LineEnd(all, room, data);
          if n == 1 {
            return 0, data;
          }
          return n, data;
        } else {
          LineEnd(all, room, data);
          return -1, data;
        }
        n := n + 1;
      }
      LineEnd(all, room, data);
      return n, data;
    }
  }

  datatype Request = Bytes(n: nat) | Line(maxlen: nat)

  function Flatten(answers: seq<seq<byte>>): seq<byte> {
    if answers == [] then [] else Flatten(answers[..|answers| - 1]) + answers[|answers| - 1]
  }

  /** How many of the bytes ahead a request is given. */
  function Share(ahead: seq<byte>, request: Request): (k: nat)
    ensures k <= |ahead|
  {
    match request
    case Bytes(n) => if n <= |ahead| then n else |ahead|
    case Line(maxlen) => LineLength(ahead, if maxlen == 0 then 0 else maxlen - 1)
  }

  /** What the first requests get from a plain stream of bytes. */
  function Serve(stream: seq<byte>, requests: seq<Request>): (r: (seq<seq<byte>>, nat))
    ensures |r.0| == |requests| && r.1 <= |stream|
  {
    if requests == [] then ([], 0)
    else
      var (answers, at) := Serve(stream, requests[..|requests| - 1]);
      var k := Share(stream[at..], requests[|requests| - 1]);
      (answers + [stream[at..at + k]], at + k)
  }

  ghost predicate Served(stream: seq<byte>, requests: seq<Request>, answers: seq<seq<byte>>) {
    Serve(stream, requests) == (answers, |Flatten(answers)|)
  }

  lemma FlattenMore(answers: seq<seq<byte>>, data: seq<byte>)
    ensures Flatten(answers + [data]) == Flatten(answers) + data
  {
    assert (answers + [data])[..|answers|] == answers;
  }

  lemma ServeStep(stream: seq<byte>, requests: seq<Request>, i: nat, answers: seq<seq<byte>>,
                  ahead: seq<byte>, data: seq<byte>)
    requires i < |requests| && Served(stream, requests[..i], answers)
    requires stream == Flatten(answers) + ahead && data == ahead[..Share(ahead, requests[i])]
    ensures Served(stream, requests[..i + 1], answers + [data])
  {
    var at := |Flatten(answers)|;
    assert stream[at..] == ahead;
    assert requests[..i + 1][..i] == requests[..i];
    assert stream[at..at + |data|] == data;
    FlattenMore(answers, data);
  }

  /** One call of either kind. */
  method Answer(reader: Reader, request: Request) returns (rc: int, data: seq<byte>)
    requires reader.Valid()
    modifies reader, reader.buf
    ensures reader.Valid() && reader.buf == old(reader.buf) && reader.delivered == old(reader.delivered) + data
    ensures data == old(reader.Ahead())[..Share(old(reader.Ahead()), request)]
    ensures old(Plain(reader.script)) ==> Plain(reader.script)
  {
    hide Balance, AheadOf, Plain, Ending;
    match request {
      case Bytes(n) => rc, data := reader.ReadNb(n);
      case Line(maxlen) => rc, data := reader.ReadLineb(maxlen);
    }
  }

  /**
    Any mix of requests on one reader: the answers are consecutive pieces of what the
    descriptor holds, and without early ends they depend on those bytes alone, not on
    how the descriptor cut them up or when it was interrupted.
   */
  method Session(script: seq<Event>, requests: seq<Request>) returns (answers: seq<seq<byte>>)
    requires GoodScript(script)
    ensures |answers| == |requests| && Flatten(answers) <= Whole(script)
    ensures Plain(script) ==> answers == Serve(Whole(script), requests).0
  {
    hide Balance, AheadOf, Plain, Ending, Whole;
    var reader := new Reader(script);
    answers := [];
    ghost var stream := Whole(script);
    for i := 0 to |requests|
      invariant reader.Valid() && reader.source == stream && reader.delivered == Flatten(answers)
      invariant fresh(reader) && fresh(reader.buf)
      invariant |answers| == i
      invariant Plain(script) ==> Plain(reader.script) && Served(stream, requests[..i], answers)
    {
      ghost var ahead := reader.Ahead();
      reader.Conserved();
      var rc, data := Answer(reader, requests[i]);
      if Plain(script) {
        ServeStep(stream, requests, i, answers, ahead, data);
      }
      FlattenMore(answers, data);
      answers := answers + [data];
    }
    reader.Conserved();
    assert requests[..|requests|] == requests;
  }
}
