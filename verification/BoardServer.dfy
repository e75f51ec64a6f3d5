/** The server as it works in place on its lock table, its client list, the file and the output buffer. */
module BoardServer {
  import opened BoardCodec
  import opened RecordCircle
  import opened BulletinBoard

  /** `strncpy` of a whole field into a buffer. */
  method CopyField(field: seq<Byte>, buf: array<Byte>, at: nat)
    requires at + |field| <= buf.Length
    modifies buf
    ensures buf[..at] == old(buf[..at]) && buf[at..at + |field|] == Padded(field)
    ensures buf[at + |field|..] == old(buf[at + |field|..])
  {
    ghost var padded := Padded(field);
    var i, ended := 0, false;
    while i < |field|
      invariant i <= |field| && ended == Over(field, i)
      invariant forall k :: at <= k < at + i ==> buf[k] == padded[k - at]
      invariant forall k :: 0 <= k < at ==> buf[k] == old(buf[k])
      invariant forall k :: at + i <= k < buf.Length ==> buf[k] == old(buf[k])
    {
      buf[at + i] := if ended then 0 else field[i];
      OverNext(field, i);
      ended := ended || field[i] == 0;
      i := i + 1;
    }
  }

  lemma {:induction false} OverNext(f: seq<Byte>, k: nat)
    requires k < |f|
    ensures Over(f, k + 1) <==> Over(f, k) || f[k] == 0
  {
    assert f[..k + 1] == f[..k] + [f[k]];
  }

  /** The locks held when the first i records have been pulled. */
  ghost function PulledUpto(b: Board, foreign: seq<Lock>, i: nat): seq<Lock>
    requires |b.locked| == |b.held| == |foreign|
  {
    seq(|b.held|, k requires 0 <= k < |b.held| => if k < i && !ClosedTo(b, foreign)[k] then Unlocked else b.held[k])
  }

  lemma {:induction false} PulledNext(b: Board, foreign: seq<Lock>, i: nat)
    requires |b.locked| == |b.held| == |foreign| && i < |b.held|
    ensures PulledUpto(b, foreign, i + 1) == if ClosedTo(b, foreign)[i] then PulledUpto(b, foreign, i)
        else PulledUpto(b, foreign, i)[i := Unlocked]
  {
  }

  /** What a pull has done after i records: the locks held, the records taken, the number found closed. */
  datatype Pulling = Pulling(held: seq<Lock>, done: seq<Post>, lockedCount: nat)

  /** One round. */
  ghost function PullStep(b: Board, foreign: seq<Lock>, i: nat, r: Pulling): Pulling
    requires i < |b.locked| == |b.records| == |foreign| == |r.held| && Sized(b.records[i])
  {
    if b.locked[i] || foreign[i] == WriteLock then Pulling(r.held, r.done, r.lockedCount + 1)
    else
      Pulling(r.held[i := Unlocked], if Blank(b.records[i]) then r.done else r.done + [b.records[i]], r.lockedCount)
  }

  ghost function PullLoop(b: Board, foreign: seq<Lock>, i: nat): (r: Pulling)
    requires |b.locked| == |b.held| == |b.records| == |foreign| && i <= |b.held|
    requires forall k :: 0 <= k < |b.records| ==> Sized(b.records[k])
    ensures |r.held| == |b.held| && |r.done| <= i && forall k :: 0 <= k < |r.done| ==> Sized(r.done[k])
    decreases b, foreign, i
  {
    if i == 0 then Pulling(b.held, [], 0) else PullStep(b, foreign, i - 1, PullLoop(b, foreign, i - 1))
  }

  ghost predicate Upto(b: Board, foreign: seq<Lock>, i: nat, r: Pulling) {
    && |b.locked| == |b.held| == |b.records| == |foreign| && i <= |b.held|
    && (forall k :: 0 <= k < |b.records| ==> Sized(b.records[k])) && r == PullLoop(b, foreign, i)
    && |r.held| == |b.held| && |r.done| <= i
  }

  lemma {:induction false} UptoNext(b: Board, foreign: seq<Lock>, i: nat, r: Pulling) returns (r': Pulling)
    requires Upto(b, foreign, i, r) && i < |b.held|
    ensures r' == PullStep(b, foreign, i, r) && Upto(b, foreign, i + 1, r')
  {
    r' := PullStep(b, foreign, i, r);
  }

  lemma {:induction false} PullLoopIs(b: Board, foreign: seq<Lock>, i: nat)
    requires |b.locked| == |b.held| == |b.records| == |foreign| && i <= |b.held| && forall k :: 0 <= k < |b.records| ==>
        Sized(b.records[k])
    ensures PullLoop(b, foreign, i) ==
      Pulling(PulledUpto(b, foreign, i), Included(b.records, ClosedTo(b, foreign), i), Closed(ClosedTo(b, foreign), i))
    decreases i
  {
    if i == 0 {
      PulledEnds(b, foreign);
    } else {
      PullLoopIs(b, foreign, i - 1);
      PulledNext(b, foreign, i - 1);
    }
  }

  lemma {:induction false} PulledEnds(b: Board, foreign: seq<Lock>)
    requires |b.locked| == |b.held| == |foreign|
    ensures PulledUpto(b, foreign, 0) == b.held && PulledUpto(b, foreign, |b.held|) == BulletinBoard.Pull(b,
        foreign).held
  {
  }

  class Server {
    const writeLocked: array<bool>
    const held: array<Lock>
    const clients: array<Client>
    const records: array<Post>
    var last: nat

    ghost function View(): Board
      reads this, writeLocked, held, clients, records
    {
      Board(writeLocked[..], held[..], clients[..], last, records[..])
    }

    ghost predicate Valid()
      reads this, writeLocked, held, clients, records
    {
      WellFormed(View())
    }

    /** The server starts on whatever the file holds. */
    constructor (maxClients: nat, file: seq<Post>)
      requires |file| == RECORD_NUM && forall k :: 0 <= k < RECORD_NUM ==> Sized(file[k])
      ensures Valid() && Agree(View()) && Idle(View()) && last == 0 && records[..] == file
          && clients.Length == maxClients
    {
      writeLocked := new bool[RECORD_NUM](_ => false);
      held := new Lock[RECORD_NUM](_ => Unlocked);
      clients := new Client[maxClients](_ => NOBODY);
      records := new Post[RECORD_NUM](k requires 0 <= k < RECORD_NUM => file[k]);
      last := 0;
      new;
      assert records[..] == file;
      assert writeLocked[..] == seq(RECORD_NUM, _ => false) && held[..] == seq(RECORD_NUM, _ => Unlocked);
      assert clients[..] == seq(maxClients, _ => NOBODY);
      Empty(maxClients, file);
    }

    /** `fcntl` with a write lock: it succeeds unless another process has any lock on the record. */
    method TryWriteLock(s: nat, foreign: seq<Lock>) returns (ok: bool)
      requires s < held.Length && s < |foreign|
      modifies held
      ensures ok == (foreign[s] == Unlocked) && held[..] == if ok then old(held[..])[s := WriteLock] else old(held[..])
    {
      ok := foreign[s] == Unlocked;
      if ok { held[s] := WriteLock; }
    }

    /** `fcntl` with a read lock, which replaces a lock of our own. */
    method TryReadLock(s: nat, foreign: seq<Lock>) returns (ok: bool)
      requires s < held.Length && s < |foreign|
      modifies held
      ensures ok == (foreign[s] != WriteLock) && held[..] == if ok then old(held[..])[s := ReadLock] else old(held[..])
    {
      ok := foreign[s] != WriteLock;
      if ok { held[s] := ReadLock; }
    }

    /** `post_req`; the result is the byte that is sent back. */
    method PostReq(c: nat, foreign: seq<Lock>) returns (reply: Byte)
      requires Valid() && c < clients.Length && |foreign| == RECORD_NUM
      modifies this`last, writeLocked, held, clients
      ensures Valid() && View() == BulletinBoard.PostReq(old(View()), c, foreign)
      ensures reply == if Granted(old(View()), foreign) then 1 else 0
      ensures reply == 0 <==> forall s :: 0 <= s < RECORD_NUM ==> old(writeLocked[..])[s] || foreign[s] != Unlocked
      ensures reply == 1 ==> exists s :: Gets(old(View()), c, foreign, View(), s)
    {
      ghost var b := View();
      RequestGets(b, c, foreign);
      var i := 0;
      while i < RECORD_NUM
        invariant i <= RECORD_NUM && View() == b && Search(b, foreign, 0) == Search(b, foreign, i)
      {
        var granted := TryGrant(c, SlotAt(last, i), foreign);
        if granted { return 1; }
        i := i + 1;
      }
      reply := 0;
    }

    /** One round of its loop. */
    method TryGrant(c: nat, s: nat, foreign: seq<Lock>) returns (granted: bool)
      requires Valid() && c < clients.Length && |foreign| == RECORD_NUM && s < RECORD_NUM
      modifies this`last, writeLocked, held, clients
      ensures Valid() && granted == (!old(writeLocked[s]) && foreign[s] == Unlocked)
      ensures !granted ==> View() == old(View())
      ensures granted ==> var b := old(View());
        View() == b.(locked := b.locked[s := true], held := b.held[s := WriteLock],
            clients := b.clients[c := b.clients[c].(postId := s)],
                     last := SlotAt(s, 1))
    {
      granted := false;
      if !writeLocked[s] {
        granted := TryWriteLock(s, foreign);
        if granted {
          clients[c] := clients[c].(postId := s);
          last := (s + 1) % RECORD_NUM;
          writeLocked[s] := true;
        }
      }
    }

    /** `release_write_lock`. */
    method ReleaseWriteLock(c: nat)
      requires Valid() && c < clients.Length
      modifies writeLocked, held, clients
      ensures Valid() && View() == ReleaseLock(old(View()), c)
    {
      var s := clients[c].postId;
      if s != NO_POST && writeLocked[s] {
        held[s] := Unlocked;
        writeLocked[s] := false;
        clients[c] := clients[c].(postId := NO_POST);
      }
    }

    /** `post_content`; the result says whether something was written. */
    method PostContent(c: nat, post: Post) returns (written: bool)
      requires Valid() && c < clients.Length && Sized(post)
      modifies writeLocked, held, clients, records
      ensures Valid() && View() == BulletinBoard.PostContent(old(View()), c, post)
          && written == (old(clients[c].postId) != NO_POST)
    {
      var s := clients[c].postId;
      if s == NO_POST { return false; }
      records[s] := NormalPost(post);
      assert View() == old(View()).(records := old(View()).records[s := NormalPost(post)]);
      ReleaseWriteLock(c);
      written := true;
    }

    method FreeClient(c: nat)
      requires Valid() && c < clients.Length
      modifies writeLocked, held, clients
      ensures Valid() && View() == BulletinBoard.FreeClient(old(View()), c)
    {
      ReleaseWriteLock(c);
      clients[c] := NOBODY;
    }

    /** A new connection; the result says whether there was a place for it. */
    method Accept() returns (placed: bool)
      requires Valid()
      modifies clients
      ensures Valid() && View() == BulletinBoard.Accept(old(View()))
          && placed == (FirstFree(old(clients[..])) < clients.Length)
    {
      var j := 0;
      while j < clients.Length && clients[j].connected
        invariant j <= clients.Length && FirstFree(clients[..]) == j + FirstFree(clients[j..])
      {
        assert clients[j..][1..] == clients[j + 1..];
        j := j + 1;
      }
      placed := j < clients.Length;
      if placed { clients[j] := clients[j].(connected := true); }
    }

    /** `pull`: the bytes for the client, and how many records were closed. */
    method Pull(buf: array<Byte>, foreign: seq<Lock>) returns (len: nat, lockedCount: nat)
      requires Valid() && buf.Length == BUFFER_SIZE && |foreign| == RECORD_NUM
      modifies held, buf
      ensures Valid() && View() == BulletinBoard.Pull(old(View()), foreign)
      ensures len <= buf.Length && buf[..len] == Answer(old(View()), foreign)
      ensures lockedCount == Closed(ClosedTo(old(View()), foreign), RECORD_NUM)
    {
      ghost var b := View();
      ghost var posts := Included(b.records, ClosedTo(b, foreign), RECORD_NUM);
      var count;
      count, lockedCount := PullRecords(buf, foreign, b);
      assert |posts| == count && buf[COUNT_LEN..COUNT_LEN + POST_LEN * count] == Body(posts)
             && held[..] == BulletinBoard.Pull(b, foreign).held
             && lockedCount == Closed(ClosedTo(b, foreign), RECORD_NUM) by {
        PullLoopIs(b, foreign, |b.held|);
        PulledEnds(b, foreign);
      }
      WriteCount(buf, count, posts);
      len := COUNT_LEN + POST_LEN * count;
    }

    /** The arrays show what a pull has done so far. */
    ghost predicate Shows(r: Pulling, buf: array<Byte>, count: nat, lockedCount: nat)
      reads held, buf
    {
      && held[..] == r.held && lockedCount == r.lockedCount && count == |r.done|
      && COUNT_LEN + POST_LEN * count <= buf.Length && (forall k :: 0 <= k < |r.done| ==> Sized(r.done[k]))
      && buf[COUNT_LEN..COUNT_LEN + POST_LEN * count] == Body(r.done)
    }

    ghost predicate SameAs(b: Board)
      reads writeLocked, records
    {
      && b.locked == writeLocked[..] && b.records == records[..] && |b.locked| == |b.held| == |b.records| == RECORD_NUM
      && forall k :: 0 <= k < |b.records| ==> Sized(b.records[k])
    }

    lemma ShowsNothing(b: Board, buf: array<Byte>)
      requires SameAs(b) && b.held == held[..] && buf.Length == BUFFER_SIZE
      ensures Shows(Pulling(b.held, [], 0), buf, 0, 0)
    {
    }

    /** Its loop. */
    method PullRecords(buf: array<Byte>, foreign: seq<Lock>, ghost b: Board) returns (count: nat, lockedCount: nat)
      requires SameAs(b) && b.held == held[..] && buf.Length == BUFFER_SIZE && |foreign| == RECORD_NUM
      modifies held, buf
      ensures Shows(PullLoop(b, foreign, |b.held|), buf, count, lockedCount)
    {
      ghost var r := Pulling(b.held, [], 0);
      count, lockedCount := 0, 0;
      ShowsNothing(b, buf);
      var i := 0;
      while i < RECORD_NUM
        modifies held, buf
        invariant i <= RECORD_NUM && SameAs(b) && Upto(b, foreign, i, r)
        invariant Shows(r, buf, count, lockedCount)
      {
        count, lockedCount := PullNext(buf, foreign, b, i, r, count, lockedCount);
        r := UptoNext(b, foreign, i, r);
        i := i + 1;
      }
    }

    method PullNext(buf: array<Byte>, foreign: seq<Lock>, ghost b: Board, i: nat, ghost r: Pulling, count: nat,
        lockedCount: nat)
        returns (count': nat, lockedCount': nat)
      requires SameAs(b) && buf.Length == BUFFER_SIZE && i < |foreign| == RECORD_NUM == |r.held| && |r.done| <= i
      requires Shows(r, buf, count, lockedCount)
      modifies held, buf
      ensures SameAs(b) && Shows(PullStep(b, foreign, i, r), buf, count', lockedCount')
    {
      var open, included := PullOne(i, buf, count, foreign, r.done);
      count' := if included then count + 1 else count;
      lockedCount' := if open then lockedCount else lockedCount + 1;
    }

    /** One round of the loop: record i is locked, copied behind the others if it is not blank, and unlocked. */
    method PullOne(i: nat, buf: array<Byte>, count: nat, foreign: seq<Lock>, ghost before: seq<Post>)
        returns (open: bool, included: bool)
      requires i < writeLocked.Length == held.Length == records.Length == |foreign| && Sized(records[i])
      requires buf.Length == BUFFER_SIZE && count == |before| < RECORD_NUM && forall k :: 0 <= k < |before| ==>
          Sized(before[k])
      requires buf[COUNT_LEN..COUNT_LEN + POST_LEN * count] == Body(before)
      modifies held, buf
      ensures open == !(writeLocked[i] || foreign[i] == WriteLock)
          && included == (open && (records[i].from[0] != 0 || records[i].content[0] != 0))
      ensures held[..] == if open then old(held[..])[i := Unlocked] else old(held[..])
      ensures !included ==> buf[COUNT_LEN..COUNT_LEN + POST_LEN * count] == Body(before)
      ensures included ==> buf[COUNT_LEN..COUNT_LEN + POST_LEN * (count + 1)] == Body(before + [records[i]])
    {
      open, included := false, false;
      if !writeLocked[i] { open := TryReadLock(i, foreign); }
      if open {
        included := records[i].from[0] != 0 || records[i].content[0] != 0;
        if included { CopyPost(records[i], buf, count, before); }
        held[i] := Unlocked;
      }
    }

    method CopyPost(p: Post, buf: array<Byte>, count: nat, ghost before: seq<Post>)
      requires buf.Length == BUFFER_SIZE && Sized(p) && count == |before| < RECORD_NUM
          && forall k :: 0 <= k < |before| ==> Sized(before[k])
      requires buf[COUNT_LEN..COUNT_LEN + POST_LEN * count] == Body(before)
      modifies buf
      ensures buf[COUNT_LEN..COUNT_LEN + POST_LEN * (count + 1)] == Body(before + [p])
    {
      var at := COUNT_LEN + POST_LEN * count;
      CopyField(p.from, buf, at);
      ghost var from := buf[at..at + FROM_LEN];
      ghost var front := buf[..at + FROM_LEN];
      CopyField(p.content, buf, at + FROM_LEN);
      assert buf[..at + FROM_LEN] == front;
      assert buf[at..at + FROM_LEN] == from;
      assert buf[at..at + POST_LEN] == Wire(p);
      assert (before + [p])[..count] == before;
      assert buf[COUNT_LEN..at + POST_LEN] == Body(before) + Wire(p);
    }

    method WriteCount(buf: array<Byte>, count: nat, ghost posts: seq<Post>)
      requires buf.Length == BUFFER_SIZE && count == |posts| <= RECORD_NUM && forall k :: 0 <= k < |posts| ==>
          Sized(posts[k])
      requires buf[COUNT_LEN..COUNT_LEN + POST_LEN * count] == Body(posts)
      modifies buf
      ensures buf[..COUNT_LEN + POST_LEN * count] == Response(posts)
    {
      ghost var body := buf[COUNT_LEN..COUNT_LEN + POST_LEN * count];
      var bytes := NetworkOrder(count);
      buf[0], buf[1], buf[2], buf[3] := bytes[0], bytes[1], bytes[2], bytes[3];
      assert buf[..COUNT_LEN] == bytes && buf[COUNT_LEN..COUNT_LEN + POST_LEN * count] == body;
    }
  }
}
