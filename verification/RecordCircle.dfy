/** The ten record slots as a circle. */
module RecordCircle {
  import opened BoardCodec

  /** The slot k places after the one that is next in turn, around the circle. */
  function SlotAt(last: nat, k: nat): (s: nat)
    ensures s < RECORD_NUM
  {
    (last + k) % RECORD_NUM
  }

  /** How many places after the one that is next in turn slot s is. */
  function Ahead(last: nat, s: nat): nat
    requires last < RECORD_NUM && s < RECORD_NUM
  {
    if s >= last then s - last else s + RECORD_NUM - last
  }

  lemma {:induction false} RoundTheCircle(last: nat, s: nat, k: nat)
    requires last < RECORD_NUM && s < RECORD_NUM && k < RECORD_NUM
    ensures SlotAt(last, Ahead(last, s)) == s && Ahead(last, SlotAt(last, k)) == k
  {
    if last + k >= RECORD_NUM { assert (last + k) % RECORD_NUM == last + k - RECORD_NUM; }
  }

  lemma {:induction false} AheadIs(last: nat, s: nat)
    requires last < RECORD_NUM && s < RECORD_NUM
    ensures Ahead(last, s) == (s - last) % RECORD_NUM < RECORD_NUM && SlotAt(last, Ahead(last, s)) == s
  {
    RoundTheCircle(last, s, 0);
    if s < last { assert (s - last) % RECORD_NUM == s + RECORD_NUM - last; }
  }

  /** Values written into consecutive slots, around the circle, starting at `last`. */
  function Ring<T>(slots: seq<T>, last: nat, values: seq<T>): (r: seq<T>)
    requires |slots| == RECORD_NUM
    ensures |r| == RECORD_NUM
  {
    if values == [] then slots
    else Ring(slots, last, values[..|values| - 1])[SlotAt(last, |values| - 1) := values[|values| - 1]]
  }

  lemma {:induction false} Collides(last: nat, k: nat, n: nat)
    requires k < n < k + RECORD_NUM
    ensures SlotAt(last, n) != SlotAt(last, k)
  {
  }

  lemma {:induction false} RingLatest<T>(slots: seq<T>, last: nat, values: seq<T>, k: nat)
    requires |slots| == RECORD_NUM && k < |values| <= k + RECORD_NUM
    ensures Ring(slots, last, values)[SlotAt(last, k)] == values[k]
  {
    var n := |values| - 1;
    if k < n {
      RingLatest(slots, last, values[..n], k);
      Collides(last, k, n);
    }
  }

  /** Writing the first value first. */
  lemma {:induction false} RingFirst<T>(slots: seq<T>, last: nat, values: seq<T>)
    requires |slots| == RECORD_NUM && values != []
    ensures Ring(slots, last, values) == Ring(slots[SlotAt(last, 0) := values[0]], SlotAt(last, 1), values[1..])
  {
    var n := |values| - 1;
    if n == 0 {
      assert values[..0] == [] && values[1..] == [];
    } else {
      RingFirst(slots, last, values[..n]);
      assert values[..n][1..] == values[1..][..n - 1] && values[1..][n - 1] == values[n];
      NextPlace(last, n - 1);
    }
  }

  lemma {:induction false} NextPlace(last: nat, k: nat)
    ensures SlotAt(SlotAt(last, 1), k) == SlotAt(last, k + 1)
  {
  }

  lemma {:induction false} RingUntouched<T>(slots: seq<T>, last: nat, values: seq<T>, s: nat)
    requires |slots| == RECORD_NUM && last < RECORD_NUM && s < RECORD_NUM && |values| <= Ahead(last, s)
    ensures Ring(slots, last, values)[s] == slots[s]
  {
    if values != [] {
      var n := |values| - 1;
      RoundTheCircle(last, s, n);
      RingUntouched(slots, last, values[..n], s);
    }
  }
}
