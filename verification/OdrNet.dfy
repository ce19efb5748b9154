/**
  A network of ODR nodes over an arbitrary topology: frames in flight are delivered in any
  order and may be lost, clients may ask for routes at any time.
 */
module OdrNet {
  import opened OdrNode

  datatype Port = Port(node: nat, iface: int)

  /** A frame sent out of port a arrives at port b. */
  datatype Link = Link(a: Port, b: Port)

  datatype Topology = Topology(n: nat, links: seq<Link>, mac: map<Port, Mac>, stale: int)

  /** Links join ports of existing nodes in both directions; every port has a non-empty address of its own. */
  ghost predicate Legal(t: Topology) {
    && (forall l :: l in t.links ==>
          l.a.node < t.n && l.b.node < t.n && l.a in t.mac && l.b in t.mac && Link(l.b, l.a) in t.links)
    && (forall i, j :: 0 <= i < j < |t.links| ==> t.links[i] != t.links[j])
    && (forall p :: p in t.mac ==> NotEmpty(t.mac[p]))
    && (forall p, q :: p in t.mac && q in t.mac && t.mac[p] == t.mac[q] ==> p == q)
  }

  datatype Frame = Frame(from: Port, to: Port, p: Packet)

  /** A discovery: who asked for whom, and the broadcast id. */
  datatype Key = Key(src: nat, dst: nat, id: int)

  function KeyOf(p: Packet): Key
    requires p.Rreq?
  {
    Key(p.src, p.dst, p.id)
  }

  /** What happened: u flooded, or answered, an RREQ of this discovery. */
  datatype Event = Flooded(u: nat, k: Key) | Answered(u: nat, k: Key)

  datatype Net = Net(tables: seq<Table>, ids: seq<int>, frames: seq<Frame>, log: seq<Event>)

  function Init(t: Topology): Net {
    Net(seq(t.n, _ => seq(t.n, _ => BlankEntry(t.n))), seq(t.n, _ => 0), [], [])
  }

  /** One copy per link that leaves u. */
  function FloodFrames(links: seq<Link>, u: nat, p: Packet): seq<Frame> {
    if links == [] then []
    else (if links[0].a.node == u then [Frame(links[0].a, links[0].b, p)] else []) + FloodFrames(links[1..], u, p)
  }

  /** One copy per link that leaves this port towards this address. */
  function UnicastFrames(links: seq<Link>, mac: map<Port, Mac>, at: Port, to: Mac, p: Packet): seq<Frame> {
    if links == [] then []
    else
      var l := links[0];
      (if l.a == at && l.b in mac && mac[l.b] == to then [Frame(l.a, l.b, p)] else [])
      + UnicastFrames(links[1..], mac, at, to, p)
  }

  function FramesOf(t: Topology, u: nat, s: Send): seq<Frame> {
    match s
    case Flood(p) => FloodFrames(t.links, u, p)
    case Unicast(m, out, p) => UnicastFrames(t.links, t.mac, Port(u, out), m, p)
  }

  function AllFrames(t: Topology, u: nat, sends: seq<Send>): seq<Frame> {
    if sends == [] then [] else FramesOf(t, u, sends[0]) + AllFrames(t, u, sends[1..])
  }

  /** The events of handling a packet: re-floods of an RREQ and RREPs created for it. */
  function Events(u: nat, p: Packet, sends: seq<Send>): seq<Event> {
    if p.Rrep? || sends == [] then []
    else [if sends[0].Flood? then Flooded(u, KeyOf(p)) else Answered(u, KeyOf(p))] + Events(u, p, sends[1..])
  }

  datatype Label =
    | Ask(u: nat, dst: nat, forced: bool, now: int)
    | Deliver(i: nat, now: int)
    | Lose(i: nat)

  function Without(frames: seq<Frame>, i: nat): seq<Frame>
    requires i < |frames|
  {
    frames[..i] + frames[i + 1..]
  }

  predicate ShapedNet(t: Topology, s: Net) {
    && |s.tables| == t.n && |s.ids| == t.n
    && forall u :: 0 <= u < t.n ==> Shaped(s.tables[u], t.n)
  }

  /** A frame between existing ports, about existing nodes. */
  predicate ShapedFrame(t: Topology, f: Frame) {
    Link(f.from, f.to) in t.links && f.from in t.mac && f.to.node < t.n && f.p.src < t.n && f.p.dst < t.n
  }

  predicate Enabled(t: Topology, s: Net, l: Label) {
    match l
    case Ask(u, dst, _, _) => u < t.n && dst < t.n
    case Deliver(i, _) => i < |s.frames|
    case Lose(i) => i < |s.frames|
  }

  predicate Sane(t: Topology, s: Net) {
    ShapedNet(t, s) && forall i :: 0 <= i < |s.frames| ==> ShapedFrame(t, s.frames[i])
  }

  function At(t: Topology, f: Frame, now: int): Arrival
    requires f.from in t.mac
  {
    Arrival(t.mac[f.from], f.to.iface, now, t.stale)
  }

  /** What the receiving node does with a frame. */
  function Handled(t: Topology, s: Net, f: Frame, now: int): (Table, seq<Send>)
    requires ShapedNet(t, s) && ShapedFrame(t, f)
  {
    Handle(f.to.node, s.tables[f.to.node], f.p, At(t, f, now))
  }

  function Next(t: Topology, s: Net, l: Label): Net
    requires Sane(t, s) && Enabled(t, s, l)
  {
    match l
    case Ask(u, dst, forced, now) =>
      var id := s.ids[u] + 1;
      var (table, sends) := OnClient(u, s.tables[u], id, dst, forced, now, t.stale);
      s.(tables := s.tables[u := table], ids := s.ids[u := id], frames := s.frames + AllFrames(t, u, sends))
    case Deliver(i, now) =>
      var f := s.frames[i];
      var u := f.to.node;
      var (table, sends) := Handled(t, s, f, now);
      s.(tables := s.tables[u := table],
         frames := Without(s.frames, i) + AllFrames(t, u, sends),
         log := s.log + Events(u, f.p, sends))
    case Lose(i) => s.(frames := Without(s.frames, i))
  }

  ghost predicate Runs(t: Topology, s: Net, run: seq<Label>, r: Net)
    decreases |run|
  {
    if run == [] then s == r
    else Sane(t, s) && Enabled(t, s, run[0]) && Runs(t, Next(t, s, run[0]), run[1..], r)
  }

  /** What every allowed step keeps while it pays one unit, a run of n steps keeps for n units. */
  lemma {:induction false} Along(t: Topology, allowed: Label -> bool, inv: (Net, int) -> bool,
                                 s: Net, run: seq<Label>, r: Net, w: int)
    requires Runs(t, s, run, r) && inv(s, w) && forall i :: 0 <= i < |run| ==> allowed(run[i])
    requires forall x, l, v :: inv(x, v) && Sane(t, x) && Enabled(t, x, l) && allowed(l) ==> inv(Next(t, x, l), v - 1)
    ensures inv(r, w - |run|)
    decreases |run|
  {
    if run != [] {
      assert allowed(run[0]);
      Along(t, allowed, inv, Next(t, s, run[0]), run[1..], r, w - 1);
    }
  }

  // ----- frames put on the wire

  lemma {:induction false} FloodMember(links: seq<Link>, u: nat, p: Packet, f: Frame)
    ensures f in FloodFrames(links, u, p) <==> Link(f.from, f.to) in links && f.from.node == u && f.p == p
  {
    if links != [] { FloodMember(links[1..], u, p, f); }
  }

  lemma {:induction false} FloodCount(links: seq<Link>, u: nat, p: Packet)
    ensures |FloodFrames(links, u, p)| <= |links|
  {
    if links != [] { FloodCount(links[1..], u, p); }
  }

  lemma {:induction false} UnicastMember(links: seq<Link>, mac: map<Port, Mac>, at: Port, to: Mac, p: Packet, f: Frame)
    ensures f in UnicastFrames(links, mac, at, to, p) <==>
      Link(f.from, f.to) in links && f.from == at && f.to in mac && mac[f.to] == to && f.p == p
  {
    if links != [] { UnicastMember(links[1..], mac, at, to, p, f); }
  }

  lemma {:induction false} UnicastNone(links: seq<Link>, mac: map<Port, Mac>, at: Port, to: Mac, p: Packet)
    requires forall l :: l in links && l.a == at && l.b in mac ==> mac[l.b] != to
    ensures UnicastFrames(links, mac, at, to, p) == []
  {
    if links != [] {
      assert links[0] in links;
      assert forall l :: l in links[1..] ==> l in links;
      UnicastNone(links[1..], mac, at, to, p);
    }
  }

  /** A frame sent to the address of a neighbour reaches that neighbour and nobody else. */
  lemma {:induction false} UnicastOne(links: seq<Link>, mac: map<Port, Mac>, l: Link, p: Packet)
    requires l in links && l.b in mac
    requires forall i, j :: 0 <= i < j < |links| ==> links[i] != links[j]
    requires forall q :: q in mac && mac[q] == mac[l.b] ==> q == l.b
    ensures UnicastFrames(links, mac, l.a, mac[l.b], p) == [Frame(l.a, l.b, p)]
  {
    var rest := links[1..];
    assert forall i, j :: 0 <= i < j < |rest| ==> rest[i] == links[i + 1] && rest[j] == links[j + 1];
    if links[0] == l {
      forall k | k in rest && k.a == l.a && k.b in mac ensures mac[k.b] != mac[l.b] {
        var i :| 0 <= i < |rest| && rest[i] == k;
        assert links[0] != links[i + 1];
      }
      UnicastNone(rest, mac, l.a, mac[l.b], p);
    } else {
      assert l in rest;
      UnicastOne(rest, mac, l, p);
    }
  }

  lemma {:induction false} FramesMember(t: Topology, u: nat, sends: seq<Send>, f: Frame)
    requires f in AllFrames(t, u, sends)
    ensures exists s :: s in sends && f in FramesOf(t, u, s)
    decreases sends
  {
    if f !in FramesOf(t, u, sends[0]) { FramesMember(t, u, sends[1..], f); }
  }

  lemma SentFrame(t: Topology, u: nat, s: Send, f: Frame)
    requires f in FramesOf(t, u, s)
    ensures Link(f.from, f.to) in t.links && f.from.node == u && f.p == s.p
  {
    match s
    case Flood(p) => FloodMember(t.links, u, p, f);
    case Unicast(m, out, p) => UnicastMember(t.links, t.mac, Port(u, out), m, p, f);
  }

  /** Packets a node sends concern the same two nodes as the one it handled. */
  lemma SendsAbout(u: nat, table: Table, p: Packet, at: Arrival, s: Send)
    requires Shaped(table, |table|) && p.src < |table| && p.dst < |table|
    requires s in Handle(u, table, p, at).1
    ensures (s.p.src == p.src && s.p.dst == p.dst) || (s.p.src == p.dst && s.p.dst == p.src)
  {
  }

  lemma FramesShaped(t: Topology, u: nat, sends: seq<Send>, f: Frame)
    requires Legal(t) && f in AllFrames(t, u, sends)
    requires forall s :: s in sends ==> s.p.src < t.n && s.p.dst < t.n
    ensures ShapedFrame(t, f)
  {
    FramesMember(t, u, sends, f);
    var s :| s in sends && f in FramesOf(t, u, s);
    SentFrame(t, u, s, f);
  }

  lemma AskShaped(t: Topology, s: Net, l: Label)
    requires Legal(t) && Sane(t, s) && Enabled(t, s, l) && l.Ask?
    ensures Sane(t, Next(t, s, l))
  {
    var (table, sends) := OnClient(l.u, s.tables[l.u], s.ids[l.u] + 1, l.dst, l.forced, l.now, t.stale);
    forall f | f in AllFrames(t, l.u, sends) ensures ShapedFrame(t, f) { FramesShaped(t, l.u, sends, f); }
  }

  lemma HandledShaped(t: Topology, s: Net, f: Frame, now: int)
    requires Legal(t) && ShapedNet(t, s) && ShapedFrame(t, f)
    ensures var (table, sends) := Handled(t, s, f, now);
      Shaped(table, t.n) && forall g :: g in AllFrames(t, f.to.node, sends) ==> ShapedFrame(t, g)
  {
    var u := f.to.node;
    var (table, sends) := Handled(t, s, f, now);
    HandleShaped(u, s.tables[u], f.p, At(t, f, now));
    forall x | x in sends ensures x.p.src < t.n && x.p.dst < t.n {
      SendsAbout(u, s.tables[u], f.p, At(t, f, now), x);
    }
    forall g | g in AllFrames(t, u, sends) ensures ShapedFrame(t, g) { FramesShaped(t, u, sends, g); }
  }

  lemma AppendShaped(t: Topology, frames: seq<Frame>, more: seq<Frame>)
    requires forall i :: 0 <= i < |frames| ==> ShapedFrame(t, frames[i])
    requires forall g :: g in more ==> ShapedFrame(t, g)
    ensures forall i :: 0 <= i < |frames + more| ==> ShapedFrame(t, (frames + more)[i])
  {
  }

  lemma DeliverShaped(t: Topology, s: Net, l: Label)
    requires Legal(t) && Sane(t, s) && Enabled(t, s, l) && l.Deliver?
    ensures Sane(t, Next(t, s, l))
  {
    var f := s.frames[l.i];
    HandledShaped(t, s, f, l.now);
    AppendShaped(t, Without(s.frames, l.i), AllFrames(t, f.to.node, Handled(t, s, f, l.now).1));
  }

  /** Every step keeps tables and frames well-shaped. */
  lemma StepSane(t: Topology, s: Net, l: Label)
    requires Legal(t) && Sane(t, s) && Enabled(t, s, l)
    ensures Sane(t, Next(t, s, l))
  {
    match l
    case Ask(_, _, _, _) => AskShaped(t, s, l);
    case Deliver(_, _) => DeliverShaped(t, s, l);
    case Lose(_) =>
  }

  lemma InitSane(t: Topology)
    ensures Sane(t, Init(t))
  {
  }
}
