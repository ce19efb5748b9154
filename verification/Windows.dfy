/**
  The two sliding windows. Both programs keep a singly linked list behind a dummy
  node; here are the operations on its contents as functions, and the list itself
  with the pointer-walking code that refines them.
 */
module Windows {
  import opened Segments

  ghost predicate Increasing(list: seq<Segment>) {
    forall i, j :: 0 <= i < j < |list| ==> list[i].seqNum < list[j].seqNum
  }

  predicate Has(list: seq<Segment>, k: int) {
    exists i :: 0 <= i < |list| && list[i].seqNum == k
  }

  /** First position whose number is not below k. */
  function Place(list: seq<Segment>, k: int): (i: nat)
    ensures i <= |list|
    ensures forall j :: 0 <= j < i ==> list[j].seqNum < k
    ensures i < |list| ==> list[i].seqNum >= k
  {
    if list == [] || list[0].seqNum >= k then 0 else 1 + Place(list[1..], k)
  }

  /** The client's insert: skip smaller numbers, ignore a duplicate. */
  function SortedInsert(list: seq<Segment>, seg: Segment): seq<Segment> {
    var i := Place(list, seg.seqNum);
    if i < |list| && list[i].seqNum == seg.seqNum then list else Splice(list, i, seg)
  }

  /** The sender's pruning: drop from the front everything up to the acknowledged number. */
  function DropAcked(list: seq<Segment>, acked: int): seq<Segment> {
    list[Place(list, acked + 1)..]
  }

  /** The sender's append, skipped when the number is already in the window. */
  function AddIfAbsent(list: seq<Segment>, seg: Segment): seq<Segment> {
    if Has(list, seg.seqNum) then list else list + [seg]
  }

  /** How many segments the consumer pops: the run that continues the acknowledged number. */
  function InOrder(list: seq<Segment>, acked: int): (n: nat)
    ensures n <= |list|
    ensures forall i :: 0 <= i < n ==> list[i].seqNum == acked + 1 + i
    ensures n < |list| ==> list[n].seqNum != acked + 1 + n
  {
    if list != [] && list[0].seqNum == acked + 1 then 1 + InOrder(list[1..], acked + 1) else 0
  }

  // ----- what the operations do

  function Splice(list: seq<Segment>, i: nat, seg: Segment): (r: seq<Segment>)
    requires i <= |list|
    ensures |r| == |list| + 1
    ensures forall a :: 0 <= a < |r| ==> r[a] == if a < i then list[a] else if a == i then seg else list[a - 1]
  {
    list[..i] + [seg] + list[i..]
  }

  lemma SpliceIncreasing(list: seq<Segment>, i: nat, seg: Segment)
    requires Increasing(list) && i <= |list|
    requires i > 0 ==> list[i - 1].seqNum < seg.seqNum
    requires i < |list| ==> seg.seqNum < list[i].seqNum
    ensures Increasing(Splice(list, i, seg))
  {
    var r := Splice(list, i, seg);
    forall a, b | 0 <= a < b < |r| ensures r[a].seqNum < r[b].seqNum {
      if a < i - 1 && b == i { assert list[a].seqNum < list[i - 1].seqNum; }
      if a == i && b > i + 1 { assert list[i].seqNum < list[b - 1].seqNum; }
    }
  }

  lemma SpliceMultiset(list: seq<Segment>, i: nat, seg: Segment)
    requires i <= |list|
    ensures multiset(Splice(list, i, seg)) == multiset(list) + multiset{seg}
  {
    assert list == list[..i] + list[i..];
  }

  lemma AbsentAtPlace(list: seq<Segment>, k: int)
    requires Increasing(list)
    ensures var i := Place(list, k); Has(list, k) <==> i < |list| && list[i].seqNum == k
  {
    var i := Place(list, k);
    if i < |list| && list[i].seqNum != k {
      forall j | 0 <= j < |list| ensures list[j].seqNum != k {
        if j > i { assert list[i].seqNum < list[j].seqNum; }
      }
    }
  }

  /** A sorted window stays sorted; a new number is added once, a known one changes nothing. */
  lemma SortedInsertCorrect(list: seq<Segment>, seg: Segment)
    requires Increasing(list)
    ensures Increasing(SortedInsert(list, seg))
    ensures Has(list, seg.seqNum) ==> SortedInsert(list, seg) == list
    ensures !Has(list, seg.seqNum) ==> multiset(SortedInsert(list, seg)) == multiset(list) + multiset{seg}
    ensures Has(SortedInsert(list, seg), seg.seqNum)
  {
    var i := Place(list, seg.seqNum);
    AbsentAtPlace(list, seg.seqNum);
    if !Has(list, seg.seqNum) {
      SpliceIncreasing(list, i, seg);
      SpliceMultiset(list, i, seg);
      assert Splice(list, i, seg)[i].seqNum == seg.seqNum;
    }
  }

  /** A sorted window inside an interval of length n that misses one number of the interval has room. */
  lemma {:induction false} Pigeonhole(list: seq<Segment>, low: int, n: nat, missing: int)
    requires Increasing(list)
    requires forall i :: 0 <= i < |list| ==> low < list[i].seqNum <= low + n && list[i].seqNum != missing
    requires low < missing <= low + n
    ensures |list| < n
    decreases n
  {
    if list != [] {
      var last := list[|list| - 1];
      if last.seqNum > missing {
        Pigeonhole(list[..|list| - 1], low, last.seqNum - 1 - low, missing);
      } else {
        CountBelow(list, low, missing - 1 - low);
      }
    }
  }

  /** A sorted window inside an interval is no longer than the interval. */
  lemma {:induction false} CountBelow(list: seq<Segment>, low: int, n: nat)
    requires Increasing(list)
    requires forall i :: 0 <= i < |list| ==> low < list[i].seqNum <= low + n
    ensures |list| <= n
    decreases n
  {
    if list != [] { CountBelow(list[..|list| - 1], low, list[|list| - 1].seqNum - 1 - low); }
  }

  // ----- the linked list

  class Node {
    var seg: Segment
    var next: Node?

    constructor (seg: Segment)
      ensures this.seg == seg && next == null
    {
      this.seg := seg;
      next := null;
    }
  }

  /** `recv_base` and `send_base`: a dummy node, the nodes behind it, and the separate counter. */
  class SlidingWindow {
    const base: Node
    var count: int
    ghost var spine: seq<Node>
    ghost var contents: seq<Segment>
    ghost var repr: set<object>

    ghost predicate Valid()
      reads this, repr
    {
      && |spine| == |contents| + 1
      && (forall i :: 0 <= i < |spine| ==> spine[i] in repr)
      && spine[0] == base
      && (forall i {:trigger spine[i].next} :: 0 <= i < |contents| ==> spine[i].next == spine[i + 1])
      && spine[|contents|].next == null
      && (forall i, j :: 0 <= i < j < |spine| ==> spine[i] != spine[j])
      && (forall i :: 0 <= i < |contents| ==> spine[i + 1].seg == contents[i])
      && count == |contents|
    }

    constructor ()
      ensures Valid() && contents == [] && fresh(repr) && base.seg == Blank()
    {
      var dummy := new Node(Blank());
      base := dummy;
      count := 0;
      spine := [dummy];
      repr := {dummy};
      contents := [];
    }

    /** Link a node in behind spine[i]. */
    method InsertBehind(ghost i: nat, at: Node, node: Node)
      requires Valid() && i < |spine| && spine[i] == at && node !in repr
      modifies this, at, node
      ensures Valid() && repr == old(repr) + {node}
      ensures contents == Splice(old(contents), i, old(node.seg))
      ensures at.seg == old(at.seg)
    {
      node.next := at.next;
      at.next := node;
      count := count + 1;
      spine := spine[..i + 1] + [node] + spine[i + 1..];
      repr := repr + {node};
      contents := Splice(contents, i, node.seg);
    }

    /** Unlink the first node behind the dummy. */
    method RemoveFirst()
      requires Valid() && contents != []
      modifies this, base
      ensures Valid() && contents == old(contents[1..]) && repr == old(repr) && base.seg == old(base.seg)
    {
      base.next := base.next.next;
      count := count - 1;
      spine := [base] + spine[2..];
      contents := contents[1..];
    }

    /** Walk to the last node whose number is smaller. */
    method Seek(k: int) returns (at: Node)
      requires Valid()
      ensures at == spine[Place(contents, k)]
    {
      at := base;
      ghost var i := 0;
      while at.next != null
        invariant i <= |contents| && at == spine[i]
        invariant Place(contents, k) == i + Place(contents[i..], k)
        decreases |contents| - i
      {
        assert at.next == spine[i + 1] && at.next.seg == contents[i];
        if at.next.seg.seqNum >= k { break; }
        assert contents[i..][1..] == contents[i + 1..];
        at := at.next;
        i := i + 1;
      }
    }

    /** The client's sorted insert. */
    method Insert(seg: Segment)
      requires Valid()
      modifies this, repr
      ensures Valid() && fresh(repr - old(repr))
      ensures contents == SortedInsert(old(contents), seg)
      ensures base.seg == old(base.seg)
    {
      ghost var i := Place(contents, seg.seqNum);
      var at := Seek(seg.seqNum);
      assert i < |contents| ==> at.next == spine[i + 1] && at.next.seg == contents[i];
      if at.next == null || at.next.seg.seqNum > seg.seqNum {
        var node := new Node(seg);
        InsertBehind(i, at, node);
      }
    }

    /** The sender's pruning loop. */
    method Prune(acked: int)
      requires Valid()
      modifies this, base
      ensures Valid() && contents == DropAcked(old(contents), acked)
      ensures base.seg == old(base.seg) && repr == old(repr)
    {
      ghost var removed := 0;
      while base.next != null
        invariant Valid() && removed <= |old(contents)| && contents == old(contents)[removed..]
        invariant Place(old(contents), acked + 1) == removed + Place(contents, acked + 1)
        invariant base.seg == old(base.seg) && repr == old(repr)
        decreases |contents|
      {
        assert base.next == spine[1] && spine[1].seg == contents[0];
        if base.next.seg.seqNum <= acked {
          RemoveFirst();
          removed := removed + 1;
        } else {
          break;
        }
      }
      assert contents == [] || contents[0].seqNum > acked;
    }

    /** The sender's append. */
    method Append(seg: Segment)
      requires Valid()
      modifies this, repr
      ensures Valid() && fresh(repr - old(repr))
      ensures contents == AddIfAbsent(old(contents), seg)
      ensures base.seg == old(base.seg)
    {
      var at := base;
      ghost var i := 0;
      while at.next != null
        invariant i <= |contents| && at == spine[i]
        invariant forall j :: 0 <= j < i ==> contents[j].seqNum != seg.seqNum
        decreases |contents| - i
      {
        assert at.next == spine[i + 1] && at.next.seg == contents[i];
        if at.next.seg.seqNum == seg.seqNum { break; }
        at := at.next;
        i := i + 1;
      }
      var node := new Node(seg);
      if at.next == null {
        assert i == |contents|;
        InsertBehind(i, at, node);
        assert contents == old(contents) + [seg];
      }
    }
  }
}
