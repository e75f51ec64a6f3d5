/** Records of the bulletin board and how they travel: fixed-width fields of C strings, a count in network
    byte order, and the client's reading of both. */
module BoardCodec {

  const FROM_LEN := 5
  const CONTENT_LEN := 20
  const RECORD_NUM := 10
  const POST_LEN := 25      // FROM_LEN + CONTENT_LEN
  const BUFFER_SIZE := 266  // RECORD_NUM * POST_LEN + 16
  const COUNT_LEN := 4

  type Byte = b: int | 0 <= b < 256

  datatype Post = Post(from: seq<Byte>, content: seq<Byte>)

  predicate Sized(p: Post) {
    |p.from| == FROM_LEN && |p.content| == CONTENT_LEN
  }

  // ---------- fields ----------

  /** The string in a field has ended before byte k. */
  predicate Over(f: seq<Byte>, k: nat)
    requires k <= |f|
  {
    0 in f[..k]
  }

  /** Everything after the first zero byte is zero as well: what `strncpy` makes of a field, and what the
      padding in `post_content` does. */
  function Padded(f: seq<Byte>): (r: seq<Byte>)
    ensures |r| == |f| && forall k :: 0 <= k < |f| ==> r[k] == if Over(f, k) then 0 else f[k]
  {
    seq(|f|, k requires 0 <= k < |f| => if Over(f, k) then 0 else f[k])
  }

  /** The last byte is made zero. */
  function Ended(f: seq<Byte>): (r: seq<Byte>)
    ensures |r| == |f|
  {
    if f == [] then f else f[|f| - 1 := 0]
  }

  /** What `post_content` stores for a field. */
  function Normal(f: seq<Byte>): (r: seq<Byte>)
    ensures |r| == |f|
  {
    Padded(Ended(f))
  }

  /** A string with its terminator, and zeros up to the width of the field. */
  ghost predicate Canonical(f: seq<Byte>) {
    |f| > 0 && f[|f| - 1] == 0 && forall j, k :: 0 <= j < k < |f| && f[j] == 0 ==> f[k] == 0
  }

  /** Storing makes a field canonical, changes nothing about one that is, and keeps the text before the first
      zero byte, cut to leave room for one. */
  lemma {:induction false} NormalIsCanonical(f: seq<Byte>, n: nat)
    requires |f| > 0
    ensures Canonical(Normal(f)) && (Canonical(f) <==> Normal(f) == f)
    ensures n < |f| && !Over(f, n) ==> Normal(f)[..n] == f[..n]
  {
    var g := Ended(f);
    forall j, k | 0 <= j < k < |f| && Normal(f)[j] == 0 ensures Normal(f)[k] == 0 {
      if g[j] == 0 { assert g[..k][j] == 0; } else { assert 0 in g[..j]; }
    }
    if Canonical(f) {
      forall k | 0 <= k < |f| ensures Normal(f)[k] == f[k] {}
    }
    if n < |f| && !Over(f, n) {
      forall k | 0 <= k < n ensures Normal(f)[k] == f[k] { assert g[..k] == f[..n][..k]; }
    }
  }

  /** The server pads when it sends and the client terminates when it receives; together they store. */
  lemma {:induction false} SentAndReceived(f: seq<Byte>)
    requires |f| > 0
    ensures Ended(Padded(f)) == Normal(f)
  {
    var g := Ended(f);
    forall k | 0 <= k < |f| ensures Ended(Padded(f))[k] == Normal(f)[k] {
      assert g[..k] == f[..k];
    }
  }

  // ---------- a response ----------

  function NormalPost(p: Post): Post {
    Post(Normal(p.from), Normal(p.content))
  }

  predicate Blank(p: Post)
    requires Sized(p)
  {
    p.from[0] == 0 && p.content[0] == 0
  }

  /** The records among the first n that a pull includes, in slot order: those that it may read and that
      are not blank. */
  function Included(records: seq<Post>, closed: seq<bool>, n: nat): (r: seq<Post>)
    requires n <= |records| == |closed| && forall k :: 0 <= k < |records| ==> Sized(records[k])
    ensures |r| <= n && forall k :: 0 <= k < |r| ==> Sized(r[k])
  {
    if n == 0 then []
    else
      var before := Included(records, closed, n - 1);
      if closed[n - 1] || Blank(records[n - 1]) then before else before + [records[n - 1]]
  }

  /** How many of the first n records are closed to the server, and how many are open and blank. */
  function Closed(closed: seq<bool>, n: nat): nat
    requires n <= |closed|
  {
    if n == 0 then 0 else Closed(closed, n - 1) + if closed[n - 1] then 1 else 0
  }

  function Blanks(records: seq<Post>, closed: seq<bool>, n: nat): nat
    requires n <= |records| == |closed| && forall k :: 0 <= k < |records| ==> Sized(records[k])
  {
    if n == 0 then 0 else Blanks(records, closed, n - 1) + if !closed[n - 1] && Blank(records[n - 1]) then 1 else 0
  }

  function Wire(p: Post): (r: seq<Byte>)
    ensures |r| == |p.from| + |p.content|
  {
    Padded(p.from) + Padded(p.content)
  }

  function Body(posts: seq<Post>): (r: seq<Byte>)
    requires forall k :: 0 <= k < |posts| ==> Sized(posts[k])
    ensures |r| == POST_LEN * |posts|
  {
    if posts == [] then []
    else
      var last := posts[|posts| - 1];
      assert Sized(last);
      Body(posts[..|posts| - 1]) + Wire(last)
  }

  /** `htonl` and `ntohl`. */
  function NetworkOrder(n: nat): (r: seq<Byte>)
    requires n < 0x1_0000_0000
    ensures |r| == COUNT_LEN
  {
    [n / 0x100_0000, n / 0x1_0000 % 0x100, n / 0x100 % 0x100, n % 0x100]
  }

  function HostOrder(r: seq<Byte>): nat
    requires |r| == COUNT_LEN
  {
    var a: nat, b: nat, c: nat, d: nat := r[0], r[1], r[2], r[3];
    a * 0x100_0000 + b * 0x1_0000 + c * 0x100 + d
  }

  lemma {:induction false} ByteOrder(n: nat)
    requires n < 0x1_0000_0000
    ensures HostOrder(NetworkOrder(n)) == n
  {
    assert n / 0x100 / 0x100 == n / 0x1_0000 && n / 0x1_0000 / 0x100 == n / 0x100_0000;
  }

  /** The most significant byte comes first. */
  lemma {:induction false} MostSignificantFirst(r: seq<Byte>)
    requires |r| == COUNT_LEN
    ensures var a: nat, b: nat, c: nat, d: nat := r[0], r[1], r[2], r[3];
            HostOrder(r) == ((a * 256 + b) * 256 + c) * 256 + d < 0x1_0000_0000
    ensures NetworkOrder(HostOrder(r)) == r
  {
    var a: nat, b: nat, c: nat, d: nat := r[0], r[1], r[2], r[3];
    var n := HostOrder(r);
    assert n / 0x100 == (a * 256 + b) * 256 + c && n / 0x1_0000 == a * 256 + b && n / 0x100_0000 == a;
  }

  function Response(posts: seq<Post>): (r: seq<Byte>)
    requires |posts| <= RECORD_NUM && forall k :: 0 <= k < |posts| ==> Sized(posts[k])
    ensures |r| == COUNT_LEN + POST_LEN * |posts| <= BUFFER_SIZE
  {
    NetworkOrder(|posts|) + Body(posts)
  }

  /** What the client makes of the k-th record in the bytes after the count. */
  function Received(body: seq<Byte>, k: nat): Post
    requires POST_LEN * (k + 1) <= |body|
  {
    Post(Ended(body[POST_LEN * k..POST_LEN * k + FROM_LEN]), Ended(body[POST_LEN * k + FROM_LEN..POST_LEN * (k + 1)]))
  }

  /** What the client makes of a whole response; nothing if bytes are missing. */
  function Decoded(bytes: seq<Byte>): seq<Post> {
    if |bytes| < COUNT_LEN then []
    else
      var n, body := HostOrder(bytes[..COUNT_LEN]), bytes[COUNT_LEN..];
      if |body| < POST_LEN * n then [] else seq(n, k requires 0 <= k < n => Received(body, k))
  }

  lemma {:induction false} BodyAt(posts: seq<Post>, k: nat)
    requires k < |posts| && forall j :: 0 <= j < |posts| ==> Sized(posts[j])
    ensures Body(posts)[POST_LEN * k..POST_LEN * (k + 1)] == Wire(posts[k])
  {
    var n := |posts| - 1;
    var front := Body(posts[..n]);
    if k < n {
      BodyAt(posts[..n], k);
      assert Body(posts)[POST_LEN * k..POST_LEN * (k + 1)] == front[POST_LEN * k..POST_LEN * (k + 1)];
    }
  }

  lemma {:induction false} ReceivedIs(posts: seq<Post>, k: nat)
    requires k < |posts| && forall j :: 0 <= j < |posts| ==> Sized(posts[j])
    ensures Received(Body(posts), k) == NormalPost(posts[k])
  {
    var b, p := Body(posts), posts[k];
    var w := b[POST_LEN * k..POST_LEN * (k + 1)];
    BodyAt(posts, k);
    assert b[POST_LEN * k..POST_LEN * k + FROM_LEN] == w[..FROM_LEN] == Padded(p.from);
    assert b[POST_LEN * k + FROM_LEN..POST_LEN * (k + 1)] == w[FROM_LEN..] == Padded(p.content);
    SentAndReceived(p.from);
    SentAndReceived(p.content);
  }

  /** How a response is laid out: the count in four bytes, and then for each record five bytes of the author and
      twenty of the text, each up to its first zero byte, and zeros from there on. */
  lemma {:induction false} ResponseLayout(posts: seq<Post>, k: nat, i: nat)
    requires |posts| <= RECORD_NUM && forall j :: 0 <= j < |posts| ==> Sized(posts[j])
    ensures Response(posts)[..4] == [0, 0, 0, |posts|] && |Response(posts)| == 4 + 25 * |posts|
    ensures k < |posts| && i < 5 ==>
      Response(posts)[4 + 25 * k + i] == if 0 in posts[k].from[..i] then 0 else posts[k].from[i]
    ensures k < |posts| && i < 20 ==>
      Response(posts)[4 + 25 * k + 5 + i] == if 0 in posts[k].content[..i] then 0 else posts[k].content[i]
  {
    var b := Body(posts);
    assert Response(posts)[..4] == NetworkOrder(|posts|);
    if k < |posts| {
      BodyAt(posts, k);
      var w := b[25 * k..25 * (k + 1)];
      if i < 5 { assert Response(posts)[4 + 25 * k + i] == b[25 * k + i] == w[i]; }
      if i < 20 { assert Response(posts)[4 + 25 * k + 5 + i] == b[25 * k + 5 + i] == w[5 + i]; }
    }
  }

  /** Pull round trip: the client gets exactly the records that are open and not blank, in slot order, each
      as it would be stored; so records that have been stored arrive unchanged. Every slot is included,
      blank or closed, and the bytes fit the buffer. */
  lemma {:induction false} PullRoundTrip(records: seq<Post>, closed: seq<bool>)
    requires |records| == |closed| == RECORD_NUM && forall k :: 0 <= k < |records| ==> Sized(records[k])
    ensures var posts := Included(records, closed, RECORD_NUM);
            && |Decoded(Response(posts))| == |posts|
            && (forall k :: 0 <= k < |posts| ==> Decoded(Response(posts))[k] == NormalPost(posts[k]))
            && |posts| + Blanks(records, closed, RECORD_NUM) + Closed(closed, RECORD_NUM) == RECORD_NUM
  {
    var posts := Included(records, closed, RECORD_NUM);
    var bytes := Response(posts);
    ByteOrder(|posts|);
    assert bytes[..COUNT_LEN] == NetworkOrder(|posts|) && bytes[COUNT_LEN..] == Body(posts);
    forall k | 0 <= k < |posts| ensures Decoded(bytes)[k] == NormalPost(posts[k]) { ReceivedIs(posts, k); }
    SlotsAddUp(records, closed, RECORD_NUM);
  }

  lemma {:induction false} SlotsAddUp(records: seq<Post>, closed: seq<bool>, n: nat)
    requires n <= |records| == |closed| && forall k :: 0 <= k < |records| ==> Sized(records[k])
    ensures |Included(records, closed, n)| + Blanks(records, closed, n) + Closed(closed, n) == n
  {
    if n > 0 { SlotsAddUp(records, closed, n - 1); }
  }

  /** A record arrives exactly as it is in the file if and only if it is canonical. */
  lemma {:induction false} ArrivesUnchanged(posts: seq<Post>, k: nat)
    requires k < |posts| <= RECORD_NUM && forall j :: 0 <= j < |posts| ==> Sized(posts[j])
    ensures |Decoded(Response(posts))| == |posts|
    ensures Decoded(Response(posts))[k] == posts[k] <==> Canonical(posts[k].from) && Canonical(posts[k].content)
  {
    var bytes := Response(posts);
    ByteOrder(|posts|);
    assert bytes[..COUNT_LEN] == NetworkOrder(|posts|) && bytes[COUNT_LEN..] == Body(posts);
    ReceivedIs(posts, k);
    NormalIsCanonical(posts[k].from, 0);
    NormalIsCanonical(posts[k].content, 0);
  }

  // ---------- the client ----------

  /** What the client makes of a response does not depend on what follows it. */
  lemma {:induction false} ResponseArrives(posts: seq<Post>, rest: seq<Byte>)
    requires |posts| <= RECORD_NUM && forall k :: 0 <= k < |posts| ==> Sized(posts[k])
    ensures var bytes := Response(posts) + rest;
            && HostOrder(bytes[..COUNT_LEN]) == |posts| && bytes[COUNT_LEN + POST_LEN * |posts|..] == rest
            && |Decoded(bytes)| == |posts| && forall k :: 0 <= k < |posts| ==> Decoded(bytes)[k] == NormalPost(posts[k])
  {
    var bytes, body := Response(posts) + rest, Body(posts);
    ByteOrder(|posts|);
    assert bytes[..COUNT_LEN] == NetworkOrder(|posts|) && bytes[COUNT_LEN..] == body + rest;
    forall k | 0 <= k < |posts| ensures Decoded(bytes)[k] == NormalPost(posts[k]) {
      assert (body + rest)[..POST_LEN * |posts|] == body;
      SameSlice(body + rest, POST_LEN * |posts|, k);
      ReceivedIs(posts, k);
    }
  }

  lemma {:induction false} SameSlice(bytes: seq<Byte>, n: nat, k: nat)
    requires POST_LEN * (k + 1) <= n <= |bytes|
    ensures Received(bytes[..n], k) == Received(bytes, k)
  {
    var at := POST_LEN * k;
    assert bytes[..n][at..at + FROM_LEN] == bytes[at..at + FROM_LEN];
    assert bytes[..n][at + FROM_LEN..at + POST_LEN] == bytes[at + FROM_LEN..at + POST_LEN];
  }
}
