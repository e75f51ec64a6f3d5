/** The list of children a service keeps: linked nodes, appended at the end and unlinked in place. */
module ChildList {

  class Child {
    const pid: nat
    const readfd: nat
    const writefd: nat
    var next: Child?

    constructor (pid: nat, readfd: nat, writefd: nat)
      ensures this.pid == pid && this.readfd == readfd && this.writefd == writefd && next == null
    {
      this.pid, this.readfd, this.writefd, next := pid, readfd, writefd, null;
    }
  }

  /** How the search for a name ends. */
  datatype Found = Nowhere | Below | Here | Invalid

  class List {
    var childlist: Child?
    var childcount: nat
    ghost var nodes: seq<Child>

    ghost predicate Valid()
      reads this, nodes
    {
      && childcount == |nodes|
      && childlist == Node(0)
      && (forall i :: 0 <= i < |nodes| ==> nodes[i].next == Node(i + 1))
      && (forall i, j :: 0 <= i < j < |nodes| ==> nodes[i] != nodes[j])
    }

    /** The node at position i; past the end there is none. */
    ghost function Node(i: nat): Child?
      reads this
    {
      if i < |nodes| then nodes[i] else null
    }

    constructor ()
      ensures Valid() && nodes == []
    {
      childlist, childcount, nodes := null, 0, [];
    }

    /** Links a new child in at the end. */
    method Append(p: Child)
      requires Valid() && p !in nodes && p.next == null
      modifies this, nodes
      ensures Valid() && nodes == old(nodes) + [p]
    {
      if childlist == null {
        childlist := p;
      } else {
        var head := childlist;
        ghost var i := 0;
        while head.next != null
          invariant i < |nodes| && head == nodes[i]
          decreases |nodes| - i
        {
          head := head.next;
          i := i + 1;
        }
        head.next := p;
      }
      nodes := nodes + [p];
      childcount := childcount + 1;
    }

    /** Passes a kill down the list. Child number j answers answers[j], the status of its reply: 0 when it does
        not know the name, 1 when a service below it was the one, 2 when it is the one and has to be unlinked;
        on anything else the service gives up. The walk stops at the first child that does not answer 0; `at`
        is its place. */
    method FindKill(answers: seq<int>) returns (at: nat, found: Found)
      requires Valid() && |answers| == |nodes|
      modifies this, nodes
      ensures Valid() && at <= |answers| && (forall j :: 0 <= j < at ==> answers[j] == 0)
      ensures found == if at == |answers| then Nowhere else if answers[at] == 1 then Below else if answers[at] == 2
          then Here else Invalid
      ensures at < |answers| ==> answers[at] != 0
      ensures nodes == if found == Here then old(nodes)[..at] + old(nodes)[at + 1..] else old(nodes)
    {
      var head, prev: Child? := childlist, null;
      at := 0;
      while head != null
        invariant unchanged(this) && unchanged(nodes)
        invariant at <= |nodes| && head == Node(at) && prev == if at == 0 then null else nodes[at - 1]
        invariant forall j :: 0 <= j < at ==> answers[j] == 0
        decreases |nodes| - at
      {
        if answers[at] == 1 {
          return at, Below;
        } else if answers[at] == 2 {
          Unlink(prev, head, at);
          return at, Here;
        } else if answers[at] != 0 {
          return at, Invalid;
        }
        prev := head;
        head := head.next;
        at := at + 1;
      }
      found := Nowhere;
    }

    /** Takes a node out, given the one before it. */
    method Unlink(prev: Child?, head: Child, ghost at: nat)
      requires Valid() && at < |nodes| && head == nodes[at] && prev == if at == 0 then null else nodes[at - 1]
      modifies this, nodes
      ensures Valid() && nodes == old(nodes)[..at] + old(nodes)[at + 1..]
    {
      if prev != null {
        prev.next := head.next;
      } else {
        childlist := head.next;
      }
      nodes := nodes[..at] + nodes[at + 1..];
      childcount := childcount - 1;
    }
  }
}
