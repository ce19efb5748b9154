/**
  An undisturbed discovery: one request, nothing else in flight, nothing lost, nothing expired
  on the way, frames delivered in any order. It is forced and finds whatever tables there are,
  or it is unforced and finds no route to either end. The reverse pointers it leaves form a tree
  rooted at the source, exactly one RREP travels up that tree, and the forward pointers it leaves
  lead to the destination.
 */
module OdrDiscovery {
  import opened OdrNode
  import opened OdrNet

  /** Who asks for whom, when, with which broadcast id, and the network at that time. */
  datatype Discovery = Discovery(src: nat, dst: nat, forced: bool, start: int, id: int, found: Net)

  predicate Proper(t: Topology, d: Discovery) {
    && d.src < t.n && d.dst < t.n && d.src != d.dst
    && ShapedNet(t, d.found) && d.id == d.found.ids[d.src] + 1
  }

  /** The new id is new to u, and an unforced discovery finds no route to either end there. */
  predicate NewTo(t: Topology, d: Discovery, u: nat)
    requires Proper(t, d) && u < t.n
  {
    var table := d.found.tables[u];
    && table[d.src].highest[d.src] < d.id && table[d.dst].highest[d.src] < d.id
    && (!d.forced ==> !Routed(table[d.src]) && !Routed(table[d.dst]))
  }

  /** What an undisturbed discovery finds. */
  ghost predicate Ready(t: Topology, d: Discovery)
    requires Proper(t, d)
  {
    && d.found.frames == []
    && (!d.forced ==> !Routed(d.found.tables[d.src][d.dst]))
    && forall u :: 0 <= u < t.n && u != d.src ==> NewTo(t, d, u)
  }

  /** The request has got to the node. */
  predicate Reached(t: Topology, s: Net, d: Discovery, u: nat)
    requires ShapedNet(t, s) && Proper(t, d) && u < t.n
  {
    u == d.src || s.tables[u][d.dst].highest[d.src] == d.id
  }

  /** Its distance from the source in the tree of reverse pointers. */
  function Depth(t: Topology, s: Net, d: Discovery, u: nat): int
    requires ShapedNet(t, s) && Proper(t, d) && u < t.n
  {
    if u == d.src then 0 else s.tables[u][d.src].hops
  }

  /** l leads from u's parent to u, over the recorded next hop and interface. */
  ghost predicate Parent(t: Topology, s: Net, d: Discovery, u: nat, l: Link)
    requires ShapedNet(t, s) && Proper(t, d) && u < t.n
  {
    var e := s.tables[u][d.src];
    && l in t.links && l.a.node < t.n && l.a in t.mac
    && l.b == Port(u, e.out) && t.mac[l.a] == e.nextHop
    && Reached(t, s, d, l.a.node) && e.hops == Depth(t, s, d, l.a.node) + 1
  }

  predicate Timely(t: Topology, d: Discovery, now: int) { d.start <= now < d.start + t.stale }

  /** A node in the tree; its entry for the source dates from when the request got there. */
  ghost predicate InTree(t: Topology, s: Net, d: Discovery, u: nat)
    requires ShapedNet(t, s) && Proper(t, d) && u < t.n
  {
    && (exists l :: Parent(t, s, d, u, l))
    && Routed(s.tables[u][d.src]) && Timely(t, d, s.tables[u][d.src].stamp)
    && s.tables[u][d.src].highest[d.src] == d.id
    && Depth(t, s, d, u) >= 1
  }

  /** A node the request has not got to is as it was found. */
  ghost predicate TreeAt(t: Topology, s: Net, d: Discovery, u: nat)
    requires ShapedNet(t, s) && Proper(t, d) && u < t.n
  {
    if Reached(t, s, d, u) then InTree(t, s, d, u) else s.tables[u] == d.found.tables[u] && NewTo(t, d, u)
  }

  ghost predicate Tree(t: Topology, s: Net, d: Discovery)
    requires ShapedNet(t, s) && Proper(t, d)
  {
    && s.tables[d.src][d.src] == d.found.tables[d.src][d.src]
    && forall u :: 0 <= u < t.n && u != d.src ==> TreeAt(t, s, d, u)
  }

  /** An RREQ of this discovery, sent by a node of the tree. */
  predicate FloodFrame(t: Topology, s: Net, d: Discovery, f: Frame)
    requires ShapedNet(t, s) && Proper(t, d)
  {
    && ShapedFrame(t, f) && f.from.node < t.n && Reached(t, s, d, f.from.node)
    && f.p == Request(d, Depth(t, s, d, f.from.node), f.p.Rreq? && f.p.replied)
    && (f.p.replied ==> Reached(t, s, d, d.dst))
  }

  ghost predicate Floods(t: Topology, s: Net, d: Discovery)
    requires ShapedNet(t, s) && Proper(t, d)
  {
    forall f :: f in s.frames && f.p.Rreq? ==> FloodFrame(t, s, d, f)
  }

  predicate OnItsWay(frames: seq<Frame>, l: Link) {
    exists i :: 0 <= i < |frames| && frames[i].from == l.a && frames[i].to == l.b && frames[i].p.Rreq?
  }

  /** The second in which a route turns stale: it is no longer fresh and not yet expired. */
  predicate TurnsStale(t: Topology, e: Entry, now: int) { Routed(e) && e.stamp + t.stale == now }

  /** The destination passes an answered request on if it did not know the source, or knew it farther away. */
  predicate Echoes(e: Entry, hops: int) { !Routed(e) || e.hops > hops }

  /** A reached node has passed the request on. A relay does, unless its old route to the destination
      turned stale the very second the request came. */
  predicate Spreads(t: Topology, s: Net, d: Discovery, u: nat)
    requires ShapedNet(t, s) && Proper(t, d) && u < t.n
  {
    if u == d.src then true
    else if u == d.dst then Echoes(d.found.tables[u][d.src], Depth(t, s, d, u))
    else !TurnsStale(t, d.found.tables[u][d.dst], s.tables[u][d.src].stamp)
  }

  /** Every neighbour of a node that passed the request on is reached or has an RREQ on its way. */
  ghost predicate Covered(t: Topology, s: Net, d: Discovery)
    requires ShapedNet(t, s) && Proper(t, d)
  {
    forall l :: l in t.links && l.a.node < t.n && l.b.node < t.n && Reached(t, s, d, l.a.node) && Spreads(t, s, d, l.a.node) ==>
      Reached(t, s, d, l.b.node) || OnItsWay(s.frames, l)
  }

  // ----- following the tables

  /** Node u sends what is meant for another node x over link l: its entry's next hop and interface, and nothing else. */
  ghost predicate Points(t: Topology, s: Net, x: nat, u: nat, l: Link)
    requires ShapedNet(t, s)
  {
    && x < t.n && u < t.n && u != x && Routed(s.tables[u][x])
    && l in t.links && l.a == Port(u, s.tables[u][x].out)
    && l.b in t.mac && t.mac[l.b] == s.tables[u][x].nextHop
  }

  /** Following the entries for x leads from u to v in k steps. */
  ghost predicate Follow(t: Topology, s: Net, x: nat, u: nat, v: nat, k: nat)
    requires ShapedNet(t, s)
    decreases k
  {
    if k == 0 then u == v else exists l :: Points(t, s, x, u, l) && Follow(t, s, x, l.b.node, v, k - 1)
  }

  // ----- the reply

  /** Following next hops towards the destination from u takes exactly k steps, as recorded. */
  ghost predicate Chain(t: Topology, s: Net, d: Discovery, u: nat, k: nat)
    requires ShapedNet(t, s) && Proper(t, d)
    decreases k
  {
    if k == 0 then u == d.dst
    else
      && u < t.n && Routed(s.tables[u][d.dst]) && s.tables[u][d.dst].hops == k
      && exists l :: Points(t, s, d.dst, u, l) && Chain(t, s, d, l.b.node, k - 1)
  }

  /** One step of such a chain, from the tree node u one level down. */
  ghost predicate StepDown(t: Topology, s: Net, d: Discovery, u: nat, l: Link)
    requires ShapedNet(t, s) && Proper(t, d)
  {
    && Points(t, s, d.dst, u, l) && l.b.node < t.n && Reached(t, s, d, u) && Reached(t, s, d, l.b.node)
    && Depth(t, s, d, l.b.node) == Depth(t, s, d, u) + 1
  }

  /** The chain runs down the tree. */
  ghost predicate Descent(t: Topology, s: Net, d: Discovery, u: nat, k: nat)
    requires ShapedNet(t, s) && Proper(t, d)
    decreases k
  {
    if k == 0 then u == d.dst
    else
      && u < t.n && Routed(s.tables[u][d.dst]) && s.tables[u][d.dst].hops == k
      && exists l :: StepDown(t, s, d, u, l) && Descent(t, s, d, l.b.node, k - 1)
  }

  function Replies(frames: seq<Frame>): seq<Frame> {
    if frames == [] then [] else (if frames[0].p.Rrep? then [frames[0]] else []) + Replies(frames[1..])
  }

  /** The RREP on its way up the tree: behind it a finished chain, and, unless it is forced, ahead of it
      no forward pointer. */
  ghost predicate ReplyFrame(t: Topology, s: Net, d: Discovery, f: Frame)
    requires ShapedNet(t, s) && Proper(t, d)
  {
    && f.p.Rrep? && f.p.hop >= 0 && f.p == ReplyPacket(d, f.p.hop)
    && f.from.node < t.n && f.to.node < t.n && f.from.node != d.src && Reached(t, s, d, f.from.node)
    && Parent(t, s, d, f.from.node, Link(f.to, f.from))
    && Descent(t, s, d, f.from.node, f.p.hop)
    && (!d.forced ==> AheadIsOpen(t, s, d, f.to.node))
  }

  /** Forward pointers exist only below u. */
  ghost predicate AheadIsOpen(t: Topology, s: Net, d: Discovery, u: nat)
    requires ShapedNet(t, s) && Proper(t, d) && u < t.n
  {
    forall v :: 0 <= v < t.n && Routed(s.tables[v][d.dst]) ==>
      Reached(t, s, d, v) && Depth(t, s, d, v) > Depth(t, s, d, u)
  }

  function Answers(log: seq<Event>): nat {
    if log == [] then 0 else Answers(log[..|log| - 1]) + if log[|log| - 1].Answered? then 1 else 0
  }

  /** Answers given since the discovery began. */
  function NewAnswers(s: Net, d: Discovery): int { Answers(s.log) - Answers(d.found.log) }

  ghost predicate NoForward(t: Topology, s: Net, d: Discovery)
    requires ShapedNet(t, s) && Proper(t, d)
  {
    forall u :: 0 <= u < t.n ==> !Routed(s.tables[u][d.dst])
  }

  ghost predicate ReplyPhase(t: Topology, s: Net, d: Discovery)
    requires ShapedNet(t, s) && Proper(t, d)
  {
    var replies := Replies(s.frames);
    if !Reached(t, s, d, d.dst) then
      replies == [] && NewAnswers(s, d) == 0 && !Routed(s.tables[d.src][d.dst]) && (!d.forced ==> NoForward(t, s, d))
    else
      && NewAnswers(s, d) == 1
      && if Routed(s.tables[d.src][d.dst]) then
           replies == [] && s.tables[d.src][d.dst].hops >= 1 && Descent(t, s, d, d.src, s.tables[d.src][d.dst].hops)
         else
           |replies| == 1 && ReplyFrame(t, s, d, replies[0])
  }

  ghost predicate Clean(t: Topology, s: Net, d: Discovery) {
    && Legal(t) && Proper(t, d) && Sane(t, s)
    && s.ids[d.src] == d.id
    && Tree(t, s, d) && Floods(t, s, d) && Covered(t, s, d) && ReplyPhase(t, s, d)
  }

  // ----- frames and events

  lemma Regroup(a: seq<Frame>, b: seq<Frame>, c: seq<Frame>)
    ensures (a + b) + c == a + (b + c) && [] + c == c
    ensures a != [] ==> (a + c)[0] == a[0] && (a + c)[1..] == a[1..] + c
  {
  }

  lemma {:induction false} RepliesConcat(a: seq<Frame>, b: seq<Frame>)
    ensures Replies(a + b) == Replies(a) + Replies(b)
    decreases |a|
  {
    Regroup(a, [], b);
    if a == [] {
      Regroup([], [], Replies(b));
    } else {
      RepliesConcat(a[1..], b);
      Regroup(if a[0].p.Rrep? then [a[0]] else [], Replies(a[1..]), Replies(b));
    }
  }

  lemma RepliesWithout(frames: seq<Frame>, i: nat)
    requires i < |frames|
    ensures frames[i].p.Rreq? ==> Replies(Without(frames, i)) == Replies(frames)
    ensures frames[i].p.Rrep? && |Replies(frames)| == 1 ==> Replies(frames) == [frames[i]] && Replies(Without(frames, i)) == []
    ensures frames[i].p.Rrep? ==> Replies(frames) != []
  {
    var a, b := frames[..i], frames[i + 1..];
    assert frames == a + ([frames[i]] + b);
    RepliesConcat(a, [frames[i]] + b);
    RepliesConcat([frames[i]], b);
    RepliesConcat(a, b);
    assert [frames[i]][1..] == [];
    var mid := Replies([frames[i]]);
    assert mid == if frames[i].p.Rrep? then [frames[i]] else [];
    assert Replies(frames) == Replies(a) + (mid + Replies(b));
  }

  lemma {:induction false} NoReplies(frames: seq<Frame>)
    requires forall f :: f in frames ==> f.p.Rreq?
    ensures Replies(frames) == []
  {
    if frames != [] {
      assert frames[0] in frames;
      NoReplies(frames[1..]);
    }
  }

  lemma FloodHasNoReplies(t: Topology, u: nat, p: Packet)
    requires p.Rreq?
    ensures Replies(FloodFrames(t.links, u, p)) == []
  {
    forall f | f in FloodFrames(t.links, u, p) ensures f.p.Rreq? { FloodMember(t.links, u, p, f); }
    NoReplies(FloodFrames(t.links, u, p));
  }

  lemma AnswersSnoc(log: seq<Event>, e: Event)
    ensures Answers(log + [e]) == Answers(log) + if e.Answered? then 1 else 0
  {
    assert (log + [e])[..|log|] == log;
  }

  lemma Remains(frames: seq<Frame>, i: nat, l: Link)
    requires i < |frames| && OnItsWay(frames, l) && !(frames[i].from == l.a && frames[i].to == l.b)
    ensures OnItsWay(Without(frames, i), l)
  {
    var j :| 0 <= j < |frames| && frames[j].from == l.a && frames[j].to == l.b && frames[j].p.Rreq?;
    var k := if j < i then j else j - 1;
    assert Without(frames, i)[k] == frames[j];
  }

  // ----- what one node does

  /** A node already in the tree ignores further copies. */
  lemma CopyIgnored(t: Topology, s: Net, d: Discovery, f: Frame, now: int)
    requires ShapedNet(t, s) && Proper(t, d) && Tree(t, s, d) && Timely(t, d, now)
    requires f.p.Rreq? && FloodFrame(t, s, d, f) && Reached(t, s, d, f.to.node)
    ensures Handled(t, s, f, now) == (s.tables[f.to.node], [])
  {
    var u, p, at := f.to.node, f.p, At(t, f, now);
    if u != d.src {
      var table := s.tables[u];
      assert TreeAt(t, s, d, u);
      assert LearnReverse(table[d.src], p, at) == table[d.src];
      assert table[d.src := table[d.src]] == table;
    }
  }

  /** The first copy makes a node join the tree below the sender. */
  ghost predicate Joined(t: Topology, s: Net, d: Discovery, f: Frame, now: int, table: Table)
    requires ShapedNet(t, s) && Proper(t, d) && ShapedFrame(t, f)
  {
    var before := s.tables[f.to.node];
    && Shaped(table, t.n)
    && table[d.src].nextHop == t.mac[f.from] && table[d.src].out == f.to.iface
    && table[d.src].hops == f.p.hop + 1 && table[d.src].stamp == now
    && table[d.src].highest[d.src] == d.id && table[d.dst].highest[d.src] == d.id
    && table[d.dst].nextHop == before[d.dst].nextHop && table[d.dst].out == before[d.dst].out
    && table[d.dst].hops == before[d.dst].hops
  }

  /** Rest of the packet is fixed; only hop count and the answered flag vary. */
  function Request(d: Discovery, hop: int, replied: bool): Packet { Rreq(d.src, d.dst, hop, replied, d.forced, d.id) }

  function ReplyPacket(d: Discovery, hop: int): Packet { Rrep(d.dst, d.src, hop, d.forced, d.id) }

  /** Whether a node passes on the first copy it gets. */
  predicate PassesOn(t: Topology, d: Discovery, f: Frame, now: int)
    requires Proper(t, d) && f.to.node < t.n
  {
    if f.to.node == d.dst then Echoes(d.found.tables[d.dst][d.src], f.p.hop + 1)
    else !TurnsStale(t, d.found.tables[f.to.node][d.dst], now)
  }

  /** What a new node sends: the destination answers; who passes the request on floods it. */
  function FirstSends(t: Topology, d: Discovery, f: Frame, now: int, table: Table): seq<Send>
    requires Proper(t, d) && f.to.node < t.n && d.src < |table| && f.p.Rreq?
  {
    (if f.to.node == d.dst then [SendBack(table[d.src], ReplyPacket(d, 0))] else [])
    + if PassesOn(t, d, f, now) then [Flood(Request(d, f.p.hop + 1, f.p.replied || f.to.node == d.dst))] else []
  }

  lemma FirstCopy(t: Topology, s: Net, d: Discovery, f: Frame, now: int)
    requires ShapedNet(t, s) && Proper(t, d) && Tree(t, s, d)
    requires f.p.Rreq? && FloodFrame(t, s, d, f) && !Reached(t, s, d, f.to.node)
    ensures var (table, sends) := Handled(t, s, f, now);
      Joined(t, s, d, f, now, table) && sends == FirstSends(t, d, f, now, table)
  {
    var u, p, at := f.to.node, f.p, At(t, f, now);
    assert TreeAt(t, s, d, u);
    var table := s.tables[u];
    var learned := table[d.src := LearnReverse(table[d.src], p, at)];
    assert learned[d.dst] == table[d.dst];
    var marked := learned[d.dst := Mark(learned[d.dst], p)];
    HandleShaped(u, table, p, at);
    if u == d.dst {
      assert !p.replied;
      assert OnRreq(u, table, p, at) == (marked, OdrNode.Answer(marked[d.src], table[d.src], p));
    } else {
      RelayPassesOn(t, d, f, now);
      assert OnRreq(u, table, p, at) == (marked, if PassesOn(t, d, f, now) then [Flood(p.(hop := p.hop + 1))] else []);
    }
  }

  /** The relay's three tests on its route to the destination come to one. */
  lemma RelayPassesOn(t: Topology, d: Discovery, f: Frame, now: int)
    requires Proper(t, d) && ShapedFrame(t, f) && NewTo(t, d, f.to.node) && f.to.node != d.dst
    ensures var e, at := d.found.tables[f.to.node][d.dst], At(t, f, now);
      PassesOn(t, d, f, now) <==> !Routed(e) || Expired(e, at) || (Fresh(e, at) && d.forced)
  {
  }

  /** An RREP makes a node take the sender as next hop, if it is forced or the node has no forward route. */
  lemma ReplyTaken(t: Topology, s: Net, d: Discovery, f: Frame, now: int)
    requires ShapedNet(t, s) && Proper(t, d) && ShapedFrame(t, f)
    requires f.p.Rrep? && f.p == ReplyPacket(d, f.p.hop) && (d.forced || !Routed(s.tables[f.to.node][d.dst]))
    ensures var (table, sends) := Handled(t, s, f, now);
      && Shaped(table, t.n)
      && table == s.tables[f.to.node][d.dst := table[d.dst]]
      && table[d.dst].nextHop == t.mac[f.from] && table[d.dst].out == f.to.iface && table[d.dst].hops == f.p.hop + 1
      && table[d.dst].highest[d.src] == s.tables[f.to.node][d.dst].highest[d.src]
      && sends == if f.to.node == d.src then [] else [SendBack(table[d.src], ReplyPacket(d, f.p.hop + 1))]
  {
    HandleShaped(f.to.node, s.tables[f.to.node], f.p, At(t, f, now));
  }
}
