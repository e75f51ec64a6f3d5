/** What the client gets for a pull, in terms of the file, the server's table and the locks of others. */
module BoardPulls {
  import opened BoardCodec
  import opened BulletinBoard

  /** How many of the first n slots are not in the table, not being written by another process, and hold a record
      that does not begin with zero bytes in both fields. */
  function Shown(b: Board, foreign: seq<Lock>, n: nat): (r: nat)
    requires WellFormed(b) && |foreign| == RECORD_NUM && n <= RECORD_NUM
    ensures r <= n
    decreases n, b, foreign
  {
    if n == 0 then 0
    else
      var p := b.records[n - 1];
      Shown(b, foreign, n - 1)
      + if !b.locked[n - 1] && foreign[n - 1] != WriteLock && (p.from[0] != 0 || p.content[0] != 0) then 1 else 0
  }

  lemma {:induction false} ShownGrows(b: Board, foreign: seq<Lock>, s: nat, n: nat)
    requires WellFormed(b) && |foreign| == RECORD_NUM && s <= n <= RECORD_NUM
    ensures Shown(b, foreign, s) <= Shown(b, foreign, n)
    decreases n
  {
    if s < n { ShownGrows(b, foreign, s, n - 1); }
  }

  lemma {:induction false} IncludedNext(b: Board, foreign: seq<Lock>, n: nat)
    requires WellFormed(b) && |foreign| == RECORD_NUM && n < RECORD_NUM
    ensures var p, before := b.records[n], Included(b.records, ClosedTo(b, foreign), n);
            Included(b.records, ClosedTo(b, foreign), n + 1) ==
              if !b.locked[n] && foreign[n] != WriteLock && (p.from[0] != 0 || p.content[0] != 0) then before + [p]
              else before
  {
  }

  lemma {:induction false} IncludedAt(b: Board, foreign: seq<Lock>, n: nat, s: nat)
    requires WellFormed(b) && |foreign| == RECORD_NUM && n <= RECORD_NUM
    ensures |Included(b.records, ClosedTo(b, foreign), n)| == Shown(b, foreign, n)
    ensures s < n && !b.locked[s] && foreign[s] != WriteLock
            && (b.records[s].from[0] != 0 || b.records[s].content[0] != 0)
      ==> Shown(b, foreign, s) < Shown(b, foreign, n)
          && Included(b.records, ClosedTo(b, foreign), n)[Shown(b, foreign, s)] == b.records[s]
    decreases n
  {
    if n > 0 {
      IncludedAt(b, foreign, n - 1, s);
      IncludedNext(b, foreign, n - 1);
    }
  }

  /** Which slot the k-th record shown is from. */
  lemma {:induction false} ShownFrom(b: Board, foreign: seq<Lock>, n: nat, k: nat) returns (s: nat)
    requires WellFormed(b) && |foreign| == RECORD_NUM && n <= RECORD_NUM && k < Shown(b, foreign, n)
    ensures s < n && Shown(b, foreign, s) == k && !b.locked[s] && foreign[s] != WriteLock
    ensures b.records[s].from[0] != 0 || b.records[s].content[0] != 0
    decreases n
  {
    if k < Shown(b, foreign, n - 1) { s := ShownFrom(b, foreign, n - 1, k); } else { s := n - 1; }
  }

  /** A pull delivers the record of every slot that is open and does not begin with zero bytes in both fields, in
      slot order, each as it would be stored. */
  lemma {:induction false} PullShows(b: Board, foreign: seq<Lock>, s: nat)
    requires WellFormed(b) && |foreign| == RECORD_NUM
    ensures var got := Decoded(Answer(b, foreign));
            && |got| == Shown(b, foreign, RECORD_NUM)
            && (s < RECORD_NUM && !b.locked[s] && foreign[s] != WriteLock
                && (b.records[s].from[0] != 0 || b.records[s].content[0] != 0) ==>
                  Shown(b, foreign, s) < |got| && got[Shown(b, foreign, s)] == NormalPost(b.records[s]))
  {
    PullRoundTrip(b.records, ClosedTo(b, foreign));
    IncludedAt(b, foreign, RECORD_NUM, s);
  }

  /** It delivers nothing else, and in particular no record that is empty. */
  lemma {:induction false} PullShowsOnly(b: Board, foreign: seq<Lock>, k: nat) returns (s: nat)
    requires WellFormed(b) && |foreign| == RECORD_NUM && k < |Decoded(Answer(b, foreign))|
    ensures s < RECORD_NUM && Shown(b, foreign, s) == k && !b.locked[s] && foreign[s] != WriteLock
    ensures b.records[s].from[0] != 0 || b.records[s].content[0] != 0
    ensures var p := Decoded(Answer(b, foreign))[k];
            p == NormalPost(b.records[s]) && Sized(p) && (p.from[0] != 0 || p.content[0] != 0)
  {
    PullShows(b, foreign, 0);
    s := ShownFrom(b, foreign, RECORD_NUM, k);
    PullShows(b, foreign, s);
    FirstByte(b.records[s].from);
    FirstByte(b.records[s].content);
  }

  lemma {:induction false} FirstByte(f: seq<Byte>)
    requires |f| > 1
    ensures Normal(f)[0] == f[0]
  {
    assert Ended(f)[..0] == [];
  }

  /** A pull delivers nothing exactly if every slot is in the table, being written by another process, or empty. */
  lemma {:induction false} NothingToShow(b: Board, foreign: seq<Lock>)
    requires WellFormed(b) && |foreign| == RECORD_NUM
    ensures Decoded(Answer(b, foreign)) == [] <==>
      forall s :: 0 <= s < RECORD_NUM ==>
        b.locked[s] || foreign[s] == WriteLock || (b.records[s].from[0] == 0 && b.records[s].content[0] == 0)
  {
    var got := Decoded(Answer(b, foreign));
    if got != [] { var s := PullShowsOnly(b, foreign, 0); }
    if s :| 0 <= s < RECORD_NUM && !b.locked[s] && foreign[s] != WriteLock
            && (b.records[s].from[0] != 0 || b.records[s].content[0] != 0) {
      PullShows(b, foreign, s);
    }
  }

  /** A pull of a file of zeros delivers nothing. */
  lemma {:induction false} FreshFile(b: Board, foreign: seq<Lock>)
    requires WellFormed(b) && |foreign| == RECORD_NUM
    requires forall s, i :: 0 <= s < RECORD_NUM && 0 <= i < FROM_LEN ==> b.records[s].from[i] == 0
    requires forall s, i :: 0 <= s < RECORD_NUM && 0 <= i < CONTENT_LEN ==> b.records[s].content[i] == 0
    ensures Decoded(Answer(b, foreign)) == []
  {
    forall s | 0 <= s < RECORD_NUM ensures b.records[s].from[0] == 0 && b.records[s].content[0] == 0 {}
    NothingToShow(b, foreign);
  }

  // ---------- from a post to a pull ----------

  /** No post is written into slot s. */
  ghost predicate Spares(b: Board, run: seq<Moment>, s: nat)
    requires OrderlyRun(b, run)
    decreases |run|
  {
    run == [] ||
    (var e := run[0].event;
     && (e.Sends? && e.command.ToSubmit? ==> b.clients[e.c].postId != s)
     && Spares(Do(b, e, run[0].foreign), run[1..], s))
  }

  lemma {:induction false} RecordStays(b: Board, run: seq<Moment>, s: nat)
    requires WellFormed(b) && OrderlyRun(b, run) && Spares(b, run, s) && s < RECORD_NUM
    ensures WellFormed(After(b, run)) && After(b, run).records[s] == b.records[s]
    decreases |run|
  {
    if run != [] {
      var m := run[0];
      FileChanges(b, m.event, m.foreign);
      StaysWellFormed(b, m.event, m.foreign);
      RecordStays(Do(b, m.event, m.foreign), run[1..], s);
    }
  }

  /** A post that does not begin with zero bytes in both fields, submitted by the client that has slot s and not
      overwritten since, is in every pull that finds its slot open, whatever else has happened in between. */
  lemma {:induction false} PostIsPulled(b: Board, c: nat, post: Post, at: seq<Lock>, run: seq<Moment>,
      foreign: seq<Lock>, s: nat)
    requires WellFormed(b) && c < |b.clients| && b.clients[c] == Client(true, s) && Sized(post) && |at| == RECORD_NUM
    requires post.from[0] != 0 || post.content[0] != 0
    requires var n := Do(b, Sends(c, ToSubmit(post)), at); OrderlyRun(n, run) && Spares(n, run, s)
    requires |foreign| == RECORD_NUM
    ensures var n := After(Do(b, Sends(c, ToSubmit(post)), at), run);
            && WellFormed(n)
            && (!n.locked[s] && foreign[s] != WriteLock ==>
                  var got, k := Decoded(Answer(n, foreign)), Shown(n, foreign, s);
                  k < |got| && got[k] == NormalPost(post))
  {
    var e := Sends(c, ToSubmit(post));
    var m := Do(b, e, at);
    FileChanges(b, e, at);
    StaysWellFormed(b, e, at);
    RecordStays(m, run, s);
    var n := After(m, run);
    assert n.records[s] == NormalPost(post);
    FirstByte(post.from);
    FirstByte(post.content);
    if !n.locked[s] && foreign[s] != WriteLock {
      PullShows(n, foreign, s);
      NormalIsClean(post);
      NormalIsClean(NormalPost(post));
    }
  }
}
