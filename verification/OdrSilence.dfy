/**
  A forced discovery that fails although its topology is connected and nothing is lost: the only
  relay holds an old route to the destination, and the request arrives in the very second in which
  that route is neither fresh nor expired.
 */
module OdrSilence {
  import opened OdrNode
  import opened OdrNet
  import opened OdrHops
  import opened OdrDiscovery
  import opened OdrRoute

  function Address(first: int): Mac
    requires 0 <= first < 0x100
  {
    [first, 0, 0, 0, 0, 0]
  }

  const WEST := Port(0, 0)
  const MIDDLE_WEST := Port(1, 0)
  const MIDDLE_EAST := Port(1, 1)
  const EAST := Port(2, 0)

  /** Three nodes in a row; routes stay fresh for 10 seconds. */
  function Row(): Topology {
    Topology(3,
             [Link(WEST, MIDDLE_WEST), Link(MIDDLE_WEST, WEST), Link(MIDDLE_EAST, EAST), Link(EAST, MIDDLE_EAST)],
             map[WEST := Address(1), MIDDLE_WEST := Address(3), MIDDLE_EAST := Address(5), EAST := Address(7)],
             10)
  }

  /** The node in the middle learned its route to the east at second 95. */
  function OldRoute(): Entry { Entry(Address(7), 1, 1, 95, seq(3, _ => 0)) }

  function Found(): Net {
    var s := Init(Row());
    s.(tables := s.tables[1 := s.tables[1][2 := OldRoute()]])
  }

  function Search(): Discovery { Discovery(0, 2, true, 100, 1, Found()) }

  lemma AddressNotEmpty(first: int)
    requires 0 <= first < 0x100 && first % 2 == 1
    ensures NotEmpty(Address(first))
  {
    assert Address(first)[0] % 2 == 1;
  }

  lemma RowAddresses()
    ensures forall p :: p in Row().mac ==> NotEmpty(Row().mac[p])
    ensures forall p, q :: p in Row().mac && q in Row().mac && Row().mac[p] == Row().mac[q] ==> p == q
  {
    AddressNotEmpty(1);
    AddressNotEmpty(3);
    AddressNotEmpty(5);
    AddressNotEmpty(7);
    assert Address(1)[0] == 1 && Address(3)[0] == 3 && Address(5)[0] == 5 && Address(7)[0] == 7;
  }

  lemma RowLinks()
    ensures forall l :: l in Row().links ==>
      l.a.node < 3 && l.b.node < 3 && l.a in Row().mac && l.b in Row().mac && Link(l.b, l.a) in Row().links
    ensures forall i, j :: 0 <= i < j < |Row().links| ==> Row().links[i] != Row().links[j]
  {
    var links := Row().links;
    assert links[0] == Link(WEST, MIDDLE_WEST) && links[1] == Link(MIDDLE_WEST, WEST);
    assert links[2] == Link(MIDDLE_EAST, EAST) && links[3] == Link(EAST, MIDDLE_EAST);
  }

  lemma RowLegal()
    ensures Legal(Row())
  {
    RowAddresses();
    RowLinks();
  }

  lemma RowConnected()
    ensures Walk(Row(), 0, 2, 2)
  {
    assert Walk(Row(), 0, 0, 0);
    var first, second := Link(WEST, MIDDLE_WEST), Link(MIDDLE_EAST, EAST);
    assert first in Row().links && first.b.node == 1;
    assert Walk(Row(), 0, 1, 1);
    assert second in Row().links && second.b.node == 2;
  }

  lemma SearchReady()
    ensures Proper(Row(), Search()) && Ready(Row(), Search())
  {
    InitSane(Row());
  }

  lemma SearchNotOpen()
    ensures Proper(Row(), Search()) && !Open(Row(), Search(), 2)
  {
    SearchReady();
    AddressNotEmpty(7);
    var t, d := Row(), Search();
    assert AtRisk(t, d, 1);
    forall k: nat ensures !OpenWalk(t, d, 2, k) {
      if k > 0 {
        forall l | l in t.links && l.b.node == 2 ensures !OpenLink(t, d, l) {
          assert l == Link(MIDDLE_EAST, EAST);
        }
      }
    }
  }

  /** A forced discovery on a connected topology, delivered completely and in time, without a route. */
  lemma SecondOfSilence() returns (run: seq<Label>, r: Net)
    ensures var t, d := Row(), Search();
      && Legal(t) && Proper(t, d) && Ready(t, d) && d.forced && Walk(t, d.src, d.dst, 2)
      && Completes(t, d, run, r) && !HasRoute(t, r, d)
  {
    RowLegal();
    RowConnected();
    SearchReady();
    SearchNotOpen();
    run, r := SilentRun(Row(), Search());
  }
}
