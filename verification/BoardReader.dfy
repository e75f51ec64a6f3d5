/** The client's side of a pull: reading from the connection, whatever it delivers, and what the client makes
    of it. */
module BoardReader {
  import opened BoardCodec

  function Least(a: nat, b: nat): nat {
    if a < b then a else b
  }

  // ---------- what a sequence of calls of recv delivers ----------

  /** What call i of `recv` on a connection will do: fail, if the number is negative, or else deliver at most so
      many bytes (0: no limit). */
  function Chunk(chunks: seq<int>, i: nat): int {
    if i < |chunks| then chunks[i] else 0
  }

  /** How many bytes a call that may ask for `size` delivers of `length`, unless it fails. */
  function Taken(length: nat, chunk: int, size: nat): (m: nat)
    ensures m <= size && m <= length && (m == 0 <==> size == 0 || length == 0)
  {
    Least(length, Cap(chunk, size))
  }

  function Cap(chunk: int, size: nat): (m: nat)
    ensures m <= size && (size > 0 ==> m > 0)
  {
    if chunk <= 0 || chunk > size then size else chunk
  }

  /** What the calls of `read_all` come to: how many bytes, whether the last one failed, and the call that is next. */
  datatype Outcome = Outcome(delivered: nat, fails: bool, next: nat)

  /** From call i on it calls `recv` until `size` bytes are there, or a call fails or delivers nothing. */
  function Calls(length: nat, chunks: seq<int>, i: nat, size: nat): (o: Outcome)
    ensures o.delivered <= length && o.delivered <= size
    decreases size, length, chunks, i
  {
    if size == 0 then Outcome(0, false, i)
    else if Chunk(chunks, i) < 0 then Outcome(0, true, i + 1)
    else
      var m := Taken(length, Chunk(chunks, i), size);
      if m == 0 then Outcome(0, false, i + 1)
      else
        var o := Calls(length - m, chunks, i + 1, size - m);
        Outcome(m + o.delivered, o.fails, o.next)
  }

  function Result(o: Outcome, size: nat): int {
    if o.fails then -1 else if o.delivered < size then 0 else size
  }

  /** The calls that come to `rest` follow others that have delivered `read` bytes; together they come to o. */
  ghost predicate Continues(o: Outcome, read: nat, rest: Outcome) {
    o.delivered == read + rest.delivered && o.fails == rest.fails && o.next == rest.next
  }

  lemma {:induction false} CallsNext(length: nat, chunks: seq<int>, i: nat, size: nat)
    requires Taken(length, Chunk(chunks, i), size) > 0 && Chunk(chunks, i) >= 0
    ensures var m := Taken(length, Chunk(chunks, i), size);
            Continues(Calls(length, chunks, i, size), m, Calls(length - m, chunks, i + 1, size - m))
  {
  }

  /** The first call from i on that fails, or else one beyond the chunks, which does not. */
  function FirstFailure(chunks: seq<int>, i: nat): (f: nat)
    ensures i <= f && (Chunk(chunks, f) >= 0 ==> f >= |chunks|) && forall k :: i <= k < f ==> Chunk(chunks, k) >= 0
    decreases |chunks| - i, chunks
  {
    if i >= |chunks| || chunks[i] < 0 then i else FirstFailure(chunks, i + 1)
  }

  /** How many of `size` bytes the calls from i up to k deliver if the stream does not end. */
  function Room(chunks: seq<int>, i: nat, k: nat, size: nat): (r: nat)
    ensures r <= size
    decreases k - i, size, chunks
  {
    if i >= k then 0
    else
      var m := Cap(Chunk(chunks, i), size);
      m + Room(chunks, i + 1, k, size - m)
  }

  /** From call i on, a failing call comes before `size` bytes are there, and before a call has found the stream,
      which is `length` bytes long, at its end. */
  predicate FailsFirst(length: nat, chunks: seq<int>, i: nat, size: nat) {
    var f := FirstFailure(chunks, i);
    && size > 0 && f < |chunks| && (Room(chunks, i, f, size) < size || length < size)
    && (f > i ==> length > Room(chunks, i, f - 1, size))
  }

  /** The stream is at its end before `size` bytes are there, and no failing call comes first. */
  predicate EndsFirst(length: nat, chunks: seq<int>, i: nat, size: nat) {
    length < size && !FailsFirst(length, chunks, i, size)
  }

  /** How many bytes are there then. */
  function Arrives(length: nat, chunks: seq<int>, i: nat, size: nat): nat {
    Least(length, if FailsFirst(length, chunks, i, size) then Room(chunks, i, FirstFailure(chunks, i), size) else size)
  }

  ghost predicate Exactly(o: Outcome, length: nat, chunks: seq<int>, i: nat, size: nat) {
    o.fails == FailsFirst(length, chunks, i, size) && o.delivered == Arrives(length, chunks, i, size)
  }

  lemma {:induction false} CallsExactly(length: nat, chunks: seq<int>, i: nat, size: nat)
    ensures Exactly(Calls(length, chunks, i, size), length, chunks, i, size)
    decreases size
  {
    if size == 0 || length == 0 || Chunk(chunks, i) < 0 {
      NoCall(length, chunks, i, size);
    } else {
      var m := Taken(length, Chunk(chunks, i), size);
      CallsExactly(length - m, chunks, i + 1, size - m);
      CallsNext(length, chunks, i, size);
      OneCall(length, chunks, i, size, Calls(length - m, chunks, i + 1, size - m), Calls(length, chunks, i, size));
    }
  }

  /** There is no call, or the first one fails or finds the end. */
  lemma {:induction false} NoCall(length: nat, chunks: seq<int>, i: nat, size: nat)
    requires size == 0 || length == 0 || Chunk(chunks, i) < 0
    ensures Exactly(Calls(length, chunks, i, size), length, chunks, i, size)
  {
  }

  /** The first call delivers what it can, and the others come to `rest`. */
  lemma {:induction false} OneCall(length: nat, chunks: seq<int>, i: nat, size: nat, rest: Outcome, o: Outcome)
    requires size > 0 && length > 0 && Chunk(chunks, i) >= 0
    requires var m := Taken(length, Chunk(chunks, i), size);
             Exactly(rest, length - m, chunks, i + 1, size - m) && Continues(o, m, rest)
    ensures Exactly(o, length, chunks, i, size)
  {
    var f, m := FirstFailure(chunks, i), Cap(Chunk(chunks, i), size);
    if i < |chunks| {
      assert f == FirstFailure(chunks, i + 1);
      assert Room(chunks, i, f, size) == m + Room(chunks, i + 1, f, size - m);
      if f - 1 > i { assert Room(chunks, i, f - 1, size) == m + Room(chunks, i + 1, f - 1, size - m); }
    }
  }

  /** `read_all` returns -1 exactly if a failing call comes first and 0 exactly if the stream ends first; only then
      are not all bytes there. */
  lemma {:induction false} ReadsExactly(length: nat, chunks: seq<int>, i: nat, size: nat)
    requires size > 0
    ensures var o := Calls(length, chunks, i, size);
            && (Result(o, size) == -1 <==> FailsFirst(length, chunks, i, size))
            && (Result(o, size) == 0 <==> EndsFirst(length, chunks, i, size))
            && (Result(o, size) in {-1, 0} || Result(o, size) == size == o.delivered)
            && o.delivered == Arrives(length, chunks, i, size)
  {
    CallsExactly(length, chunks, i, size);
  }

  // ---------- the connection ----------

  /** A buffer after bytes have been put at its front. */
  function Patched(buf: seq<Byte>, got: seq<Byte>): (r: seq<Byte>)
    requires |got| <= |buf|
    ensures |r| == |buf|
  {
    got + buf[|got|..]
  }

  lemma {:induction false} PatchedOn(buf: seq<Byte>, got: seq<Byte>, data: seq<Byte>, now: seq<Byte>)
    requires |got| + |data| <= |buf|
    requires now == Patched(buf, got)[..|got|] + data + Patched(buf, got)[|got| + |data|..]
    ensures now == Patched(buf, got + data)
  {
  }

  lemma {:induction false} Split(all: seq<Byte>, done: seq<Byte>, pending: seq<Byte>)
    requires all == done + pending
    ensures all[..|done|] == done && all[|done|..] == pending
  {
  }

  lemma {:induction false} Joined(all: seq<Byte>, done: seq<Byte>, was: seq<Byte>, data: seq<Byte>, pending: seq<Byte>)
    requires all == done + was && was == data + pending
    ensures all == done + data + pending
  {
  }

  /** The bytes a socket still has to deliver, and what its next calls of `recv` will do. */
  class Connection {
    const chunks: seq<int>
    var pending: seq<Byte>
    var call: nat

    constructor (pending: seq<Byte>, chunks: seq<int>)
      ensures this.pending == pending && this.chunks == chunks && call == 0
    {
      this.pending, this.chunks, this.call := pending, chunks, 0;
    }

    /** `recv`: -1 for a failure, 0 when the other side has closed, and else the number of bytes. */
    method Recv(n: nat) returns (got: int, data: seq<Byte>)
      requires n > 0
      modifies this
      ensures call == old(call) + 1 && old(pending) == data + pending
      ensures if Chunk(chunks, old(call)) < 0 then got == -1 && data == []
              else got == |data| == Taken(|old(pending)|, Chunk(chunks, old(call)), n)
    {
      var next := Chunk(chunks, call);
      call := call + 1;
      if next < 0 { return -1, []; }
      got := Cap(next, n);
      if got > |pending| { got := |pending|; }
      data, pending := pending[..got], pending[got..];
    }

    /** The same as the first of the calls that come to o. */
    method RecvNext(n: nat, ghost o: Outcome) returns (got: int, data: seq<Byte>)
      requires n > 0 && o == Calls(|pending|, chunks, call, n)
      modifies this
      ensures -1 <= got <= n && old(pending) == data + pending && |data| == if got < 0 then 0 else got
      ensures got <= 0 ==> o == Outcome(0, got == -1, call)
      ensures got > 0 ==> Continues(o, got, Calls(|pending|, chunks, call, n - got))
    {
      ghost var length, i := |pending|, call;
      got, data := Recv(n);
      if got > 0 { CallsNext(length, chunks, i, n); }
    }

    /** `read_all` into a buffer that may be too short: `fits` says whether it was long enough for what arrived.
        If it was, the delivered bytes are at its front and the rest of it is as before. */
    method ReadAll(buf: array<Byte>, size: nat) returns (total: int, fits: bool)
      modifies this, buf
      ensures var o := Calls(|old(pending)|, chunks, old(call), size);
              && fits == (o.delivered <= buf.Length)
              && (fits ==> total == Result(o, size) && pending == old(pending)[o.delivered..] && call == o.next
                           && buf[..] == Patched(old(buf[..]), old(pending)[..o.delivered]))
    {
      ghost var all, before, o := pending, buf[..], Calls(|pending|, chunks, call, size);
      var read := 0;
      while read < size
        invariant read <= size && Midway(all, pending, before, buf[..], read)
        invariant Continues(o, read, Calls(|pending|, chunks, call, size - read))
        decreases size - read
      {
        var got, room := Receive(buf, read, size, all, before, o);
        if got <= 0 || !room { return got, room; }
        read := read + got;
      }
      total, fits := read, true;
    }

    /** One round of its loop; `room` says whether the buffer was long enough for what arrived. */
    method Receive(buf: array<Byte>, read: nat, size: nat, ghost all: seq<Byte>, ghost before: seq<Byte>,
        ghost o: Outcome)
        returns (got: int, room: bool)
      requires read < size && Midway(all, pending, before, buf[..], read)
      requires Continues(o, read, Calls(|pending|, chunks, call, size - read))
      modifies this, buf
      ensures got <= 0 ==> room && o == Outcome(read, got == -1, call) && got >= -1
                           && Midway(all, pending, before, buf[..], read)
      ensures got > 0 && !room ==> o.delivered > buf.Length
      ensures got > 0 && room ==> read + got <= size && Midway(all, pending, before, buf[..], read + got)
                                  && Continues(o, read + got, Calls(|pending|, chunks, call, size - read - got))
    {
      ghost var was := pending;
      var data;
      got, data := RecvNext(size - read, Calls(|pending|, chunks, call, size - read));
      room := got <= 0 || read + got <= buf.Length;
      if got > 0 && room { Append(buf, read, data, all, before, was, pending); }
    }
  }

  /** `read` bytes of the stream are at the front of the buffer, and the others pending. */
  ghost predicate Midway(all: seq<Byte>, pending: seq<Byte>, before: seq<Byte>, now: seq<Byte>, read: nat) {
    read <= |all| && read <= |before| && pending == all[read..] && now == Patched(before, all[..read])
  }

  /** Puts `data` behind what is there. */
  method Append(buf: array<Byte>, read: nat, data: seq<Byte>, ghost all: seq<Byte>, ghost before: seq<Byte>,
      ghost was: seq<Byte>, ghost pending: seq<Byte>)
    requires Midway(all, was, before, buf[..], read) && was == data + pending && read + |data| <= buf.Length
    modifies buf
    ensures Midway(all, pending, before, buf[..], read + |data|)
  {
    ghost var done := all[..read];
    Store(buf, read, data);
    PatchedOn(before, done, data, buf[..]);
    Joined(all, done, was, data, pending);
    Split(all, done + data, pending);
  }

  method Store(buf: array<Byte>, at: nat, data: seq<Byte>)
    requires at + |data| <= buf.Length
    modifies buf
    ensures buf[..] == old(buf[..at]) + data + old(buf[at + |data|..])
  {
    var i := 0;
    while i < |data|
      invariant i <= |data|
      invariant forall k :: at <= k < at + i ==> buf[k] == data[k - at]
      invariant forall k :: 0 <= k < at || at + i <= k < buf.Length ==> buf[k] == old(buf[k])
    {
      buf[at + i] := data[i];
      i := i + 1;
    }
  }

  // ---------- a pull ----------

  /** How a pull ends for the client: records on the screen, and what is left on the connection and in the buffer;
      an error message; or more than its buffer or its list of posts has room for. */
  datatype Pulled =
    | Shown(posts: seq<Post>, pending: seq<Byte>, next: nat, buf: seq<Byte>)
    | Lost
    | Overrun

  /** How many bytes the client asks for after the count: a product of 32 bits. */
  function Asked(count: nat): nat {
    POST_LEN * count % 0x1_0000_0000
  }

  function CountIn(buf: seq<Byte>): nat
    requires |buf| == BUFFER_SIZE
  {
    HostOrder(buf[..COUNT_LEN])
  }

  /** The buffer when the calls for the count are over. A failing call leaves in place what was there before. */
  function CountBuffer(pending: seq<Byte>, o: Outcome, buf: seq<Byte>): (r: seq<Byte>)
    requires |buf| == BUFFER_SIZE && o.delivered <= |pending| && o.delivered <= BUFFER_SIZE
    ensures |r| == BUFFER_SIZE
  {
    Patched(buf, pending[..o.delivered])
  }

  function Unpacked(buf: seq<Byte>, count: nat): (r: seq<Post>)
    requires POST_LEN * count <= |buf|
    ensures |r| == count
  {
    seq(count, k requires 0 <= k < count => Received(buf, k))
  }

  /** The client's `pull` on the bytes that are pending when call i is next, with what its buffer holds before.
      Only a result of 0 is taken for a failure: the length is unsigned, so that -1 looks like success. */
  function PullOf(pending: seq<Byte>, chunks: seq<int>, i: nat, buf: seq<Byte>): Pulled
    requires |buf| == BUFFER_SIZE
  {
    var o := Calls(|pending|, chunks, i, COUNT_LEN);
    if Result(o, COUNT_LEN) == 0 then Lost
    else ListOf(pending[o.delivered..], chunks, o.next, CountBuffer(pending, o, buf))
  }

  /** The rest of it, with the count in the buffer. */
  function ListOf(pending: seq<Byte>, chunks: seq<int>, i: nat, buf: seq<Byte>): Pulled
    requires |buf| == BUFFER_SIZE
  {
    var count := CountIn(buf);
    var o := Calls(|pending|, chunks, i, Asked(count));
    if count == 0 then Shown([], pending, i, buf)
    else if o.delivered > BUFFER_SIZE then Overrun
    else if Result(o, Asked(count)) == 0 then Lost
    else if count > RECORD_NUM then Overrun
    else
      var buf' := Patched(buf, pending[..o.delivered]);
      Shown(Unpacked(buf', count), pending[o.delivered..], o.next, buf')
  }

  /** `memcpy` of the records into the list, and the terminators. */
  method Unpack(buf: array<Byte>, postList: array<Post>, count: nat)
    requires buf.Length == BUFFER_SIZE && postList.Length == RECORD_NUM && count <= RECORD_NUM
    modifies postList
    ensures postList[..count] == Unpacked(buf[..], count) && postList[count..] == old(postList[count..])
  {
    ghost var bytes, rest := buf[..], postList[count..];
    var i := 0;
    while i < count
      invariant i <= count && postList[..i] == Unpacked(bytes, i) && postList[count..] == rest
    {
      var at := POST_LEN * i;
      postList[i] := Post(Ended(buf[at..at + FROM_LEN]), Ended(buf[at + FROM_LEN..at + POST_LEN]));
      assert postList[i] == Received(bytes, i);
      i := i + 1;
    }
  }

  /** The client's `pull`: the count, then as many records. */
  method PullPosts(conn: Connection, buf: array<Byte>, postList: array<Post>) returns (out: Pulled)
    requires buf.Length == BUFFER_SIZE && postList.Length == RECORD_NUM
    modifies conn, buf, postList
    ensures out == PullOf(old(conn.pending), conn.chunks, old(conn.call), old(buf[..]))
    ensures out.Shown? ==> conn.pending == out.pending && conn.call == out.next && buf[..] == out.buf
                           && |out.posts| <= RECORD_NUM && postList[..|out.posts|] == out.posts
  {
    var got, fits := conn.ReadAll(buf, COUNT_LEN);
    if got == 0 { return Lost; }
    out := PullList(conn, buf, postList);
  }

  method PullList(conn: Connection, buf: array<Byte>, postList: array<Post>) returns (out: Pulled)
    requires buf.Length == BUFFER_SIZE && postList.Length == RECORD_NUM
    modifies conn, buf, postList
    ensures out == ListOf(old(conn.pending), conn.chunks, old(conn.call), old(buf[..]))
    ensures out.Shown? ==> conn.pending == out.pending && conn.call == out.next && buf[..] == out.buf
                           && |out.posts| <= RECORD_NUM && postList[..|out.posts|] == out.posts
  {
    var count := HostOrder(buf[..COUNT_LEN]);
    if count == 0 { return Shown([], conn.pending, conn.call, buf[..]); }
    var got, fits := conn.ReadAll(buf, Asked(count));
    if !fits { return Overrun; }
    if got == 0 { return Lost; }
    if count > RECORD_NUM { return Overrun; }
    Unpack(buf, postList, count);
    out := Shown(postList[..count], conn.pending, conn.call, buf[..]);
  }

  // ---------- which way it ends ----------

  /** The count that the client sees: from the bytes that arrive, and where a call fails too early, from what its
      buffer held before. */
  function Counted(pending: seq<Byte>, chunks: seq<int>, i: nat, buf: seq<Byte>): nat
    requires |buf| == BUFFER_SIZE
  {
    CountIn(Patched(buf, pending[..Arrives(|pending|, chunks, i, COUNT_LEN)]))
  }

  /** The stream, and the next call, when the client has the count. */
  function Behind(length: nat, chunks: seq<int>, i: nat): nat {
    length - Arrives(length, chunks, i, COUNT_LEN)
  }

  function NextCall(length: nat, chunks: seq<int>, i: nat): nat {
    Calls(length, chunks, i, COUNT_LEN).next
  }

  /** 25 is odd, so that the 32-bit product is zero only for a count of zero. */
  lemma {:induction false} AsksForSome(count: nat)
    requires 0 < count < 0x1_0000_0000
    ensures Asked(count) > 0 && (count <= RECORD_NUM ==> Asked(count) == POST_LEN * count)
  {
    var q := POST_LEN * count / 0x1_0000_0000;
    assert count == 0x1_0000_0000 * (3264175145 * q - 19 * count) + 3264175145 * Asked(count);
  }

  /** The error message appears if and only if the connection ends before the count or the records are there, no
      failing call comes first, and the buffer has not been overrun by then. */
  lemma {:induction false} LostExactly(pending: seq<Byte>, chunks: seq<int>, i: nat, buf: seq<Byte>)
    requires |buf| == BUFFER_SIZE
    ensures var count, left := Counted(pending, chunks, i, buf), Behind(|pending|, chunks, i);
            var j, size := NextCall(|pending|, chunks, i), Asked(count);
            PullOf(pending, chunks, i, buf).Lost? <==>
      EndsFirst(|pending|, chunks, i, COUNT_LEN)
      || (count > 0 && EndsFirst(left, chunks, j, size) && Arrives(left, chunks, j, size) <= BUFFER_SIZE)
  {
    var count := Counted(pending, chunks, i, buf);
    ReadsExactly(|pending|, chunks, i, COUNT_LEN);
    if count > 0 {
      AsksForSome(count);
      ReadsExactly(Behind(|pending|, chunks, i), chunks, NextCall(|pending|, chunks, i), Asked(count));
    }
  }

  /** The buffer or the list is overrun if and only if the client sees a count, and more bytes arrive than the buffer
      has room for, or the count is above ten and the connection does not end before the records are there. */
  lemma {:induction false} OverrunExactly(pending: seq<Byte>, chunks: seq<int>, i: nat, buf: seq<Byte>)
    requires |buf| == BUFFER_SIZE
    ensures var count, left := Counted(pending, chunks, i, buf), Behind(|pending|, chunks, i);
            var j, size := NextCall(|pending|, chunks, i), Asked(count);
            PullOf(pending, chunks, i, buf).Overrun? <==>
      !EndsFirst(|pending|, chunks, i, COUNT_LEN) && count > 0
      && (Arrives(left, chunks, j, size) > BUFFER_SIZE || (count > RECORD_NUM && !EndsFirst(left, chunks, j, size)))
  {
    var count := Counted(pending, chunks, i, buf);
    ReadsExactly(|pending|, chunks, i, COUNT_LEN);
    if count > 0 {
      AsksForSome(count);
      ReadsExactly(Behind(|pending|, chunks, i), chunks, NextCall(|pending|, chunks, i), Asked(count));
    }
  }

  /** No call from i on fails. */
  predicate Healthy(chunks: seq<int>, i: nat) {
    forall k: nat :: i <= k < |chunks| ==> chunks[k] >= 0
  }

  lemma {:induction false} HealthyArrives(length: nat, chunks: seq<int>, i: nat, size: nat)
    requires Healthy(chunks, i)
    ensures !FailsFirst(length, chunks, i, size) && Arrives(length, chunks, i, size) == Least(length, size)
  {
  }

  lemma {:induction false} NextLater(length: nat, chunks: seq<int>, i: nat, size: nat)
    ensures Calls(length, chunks, i, size).next >= i
    decreases size
  {
    var m := Taken(length, Chunk(chunks, i), size);
    if Chunk(chunks, i) >= 0 && m > 0 { NextLater(length - m, chunks, i + 1, size - m); }
  }

  /** Without failing calls the bytes alone decide, however they are cut into chunks. */
  lemma {:induction false} HealthyPull(pending: seq<Byte>, chunks: seq<int>, i: nat, buf: seq<Byte>)
    requires |buf| == BUFFER_SIZE && Healthy(chunks, i)
    ensures var out := PullOf(pending, chunks, i, buf);
      if |pending| < COUNT_LEN then out == Lost
      else
        var count, left := HostOrder(pending[..COUNT_LEN]), |pending| - COUNT_LEN;
        if Least(left, Asked(count)) > BUFFER_SIZE then out == Overrun
        else if left < Asked(count) then out == Lost
        else if count > RECORD_NUM then out == Overrun
        else out.Shown? && out.posts == Decoded(pending) && out.pending == pending[COUNT_LEN + POST_LEN * count..]
  {
    HealthyArrives(|pending|, chunks, i, COUNT_LEN);
    ReadsExactly(|pending|, chunks, i, COUNT_LEN);
    if |pending| >= COUNT_LEN {
      var o := Calls(|pending|, chunks, i, COUNT_LEN);
      var front := CountBuffer(pending, o, buf);
      assert front[..COUNT_LEN] == pending[..COUNT_LEN];
      NextLater(|pending|, chunks, i, COUNT_LEN);
      HealthyList(pending[COUNT_LEN..], chunks, o.next, front);
    }
  }

  lemma {:induction false} HealthyList(pending: seq<Byte>, chunks: seq<int>, i: nat, buf: seq<Byte>)
    requires |buf| == BUFFER_SIZE && Healthy(chunks, i)
    ensures var out, count := ListOf(pending, chunks, i, buf), CountIn(buf);
      if Least(|pending|, Asked(count)) > BUFFER_SIZE then out == Overrun
      else if |pending| < Asked(count) then out == Lost
      else if count > RECORD_NUM then out == Overrun
      else
        && out.Shown? && POST_LEN * count <= |pending| && out.posts == Unpacked(pending, count)
        && out.pending == pending[POST_LEN * count..]
  {
    var count := CountIn(buf);
    if count > 0 {
      AsksForSome(count);
      HealthyArrives(|pending|, chunks, i, Asked(count));
      ReadsExactly(|pending|, chunks, i, Asked(count));
      if count <= RECORD_NUM && |pending| >= Asked(count) { FromTheBuffer(pending, buf, count); }
    } else {
      assert Unpacked(pending, 0) == [];
    }
  }

  lemma {:induction false} FromTheBuffer(pending: seq<Byte>, buf: seq<Byte>, count: nat)
    requires |buf| == BUFFER_SIZE && count <= RECORD_NUM && POST_LEN * count <= |pending|
    ensures Unpacked(Patched(buf, pending[..POST_LEN * count]), count) == Unpacked(pending, count)
  {
    var n := POST_LEN * count;
    var now := Patched(buf, pending[..n]);
    assert now[..n] == pending[..n];
    forall k | 0 <= k < count ensures Received(now, k) == Received(pending, k) {
      SameSlice(now, n, k);
      SameSlice(pending, n, k);
    }
  }

  /** What a server sends is shown, each record as it would be stored, and the bytes behind it stay. */
  lemma {:induction false} ServerPull(posts: seq<Post>, rest: seq<Byte>, chunks: seq<int>, i: nat, buf: seq<Byte>)
    requires |posts| <= RECORD_NUM && forall k :: 0 <= k < |posts| ==> Sized(posts[k])
    requires |buf| == BUFFER_SIZE && Healthy(chunks, i)
    ensures var out := PullOf(Response(posts) + rest, chunks, i, buf);
            && out.Shown? && out.pending == rest && |out.posts| == |posts|
            && forall k :: 0 <= k < |posts| ==> out.posts[k] == NormalPost(posts[k])
  {
    ResponseArrives(posts, rest);
    WholePull(Response(posts) + rest, |posts|, chunks, i, buf);
  }

  lemma {:induction false} WholePull(bytes: seq<Byte>, count: nat, chunks: seq<int>, i: nat, buf: seq<Byte>)
    requires |buf| == BUFFER_SIZE && Healthy(chunks, i) && count <= RECORD_NUM
    requires |bytes| >= COUNT_LEN + POST_LEN * count && HostOrder(bytes[..COUNT_LEN]) == count
    ensures var out := PullOf(bytes, chunks, i, buf);
            out.Shown? && out.posts == Decoded(bytes) && out.pending == bytes[COUNT_LEN + POST_LEN * count..]
  {
    HealthyPull(bytes, chunks, i, buf);
  }

  /** A count above ten need not overrun anything: nothing follows it here, and the error message appears. */
  lemma {:induction false} BigCountLost(buf: seq<Byte>)
    requires |buf| == BUFFER_SIZE
    ensures PullOf([0, 0, 0, 11], [], 0, buf) == Lost
  {
    BigCount([0, 0, 0, 11], buf);
  }

  /** With the records behind it, it does. */
  lemma {:induction false} BigCountOverruns(records: seq<Byte>, buf: seq<Byte>)
    requires |buf| == BUFFER_SIZE && |records| == POST_LEN * 11
    ensures PullOf([0, 0, 0, 11] + records, [], 0, buf) == Overrun
  {
    BigCount([0, 0, 0, 11] + records, buf);
  }

  lemma {:induction false} BigCount(bytes: seq<Byte>, buf: seq<Byte>)
    requires |buf| == BUFFER_SIZE && |bytes| >= COUNT_LEN && bytes[..COUNT_LEN] == [0, 0, 0, 11]
    ensures PullOf(bytes, [], 0, buf) == if |bytes| > COUNT_LEN + BUFFER_SIZE then Overrun else Lost
  {
    HealthyPull(bytes, [], 0, buf);
  }

  /** A failing call is not noticed: with nothing received, the client shows what its buffer holds. */
  lemma {:induction false} FailureShows(buf: seq<Byte>)
    requires |buf| == BUFFER_SIZE
    ensures PullOf([], [-1, -1], 0, buf) == var count := CountIn(buf);
            if count == 0 then Shown([], [], 1, buf)
            else if count > RECORD_NUM then Overrun
            else Shown(Unpacked(buf, count), [], 2, buf)
  {
    if CountIn(buf) > 0 { AsksForSome(CountIn(buf)); }
  }
}
