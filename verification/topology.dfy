/**
 * The data side of `Topology3D` (js/lib/Topology3D.js): `initTopologyData` places one
 * box per device record and resolves each record's links into (target, source)
 * pairs; `drawCurves` turns every pair into one line.
 *
 * Devices are identified by their index in the placed list. A link names its target
 * by `dev_id`, except a link of type `cloud`, which names the device whose `dev_id`
 * is "cloud". Identifiers compare with JavaScript's `==`; the model keeps them as
 * optional strings, so that an absent `dev_id` equals another absent one, as
 * `undefined == undefined` does.
 */
module Topology {
  import opened Optional
  import opened Vectors

  datatype Link = Link(linkType: Option<string>, devId: Option<string>)

  /** One element of the data array: `dev_id`, `x`, `y` (already numbers), `ip`, `links`. */
  datatype Record = Record(devId: Option<string>, x: real, y: real, ip: Option<string>, links: seq<Link>)

  /** A placed device: its box's position, its label's text and the label's position. */
  datatype Node = Node(data: Record, position: Vec3, text: string, textPosition: Vec3)

  /** A line to draw, from the target device to the source device. */
  datatype Pair = Pair(target: nat, source: nat)

  /** The accumulated scene: the list `geoObjects` and the list `positions` of the source. */
  datatype Scene = Scene(nodes: seq<Node>, pairs: seq<Pair>)

  datatype Line = Line(from: Vec3, to: Vec3)

  //
  // placement
  //

  /** `d.ip || 'cloud'` (line 59): a missing or empty address reads as "cloud". */
  function Label(ip: Option<string>): (s: string)
    ensures ip.Some? && ip.value != "" ==> s == ip.value
    ensures ip.None? || ip.value == "" ==> s == "cloud"
    ensures s != ""
  {
    match ip
    case Some(a) => if a != "" then a else "cloud"
    case None => "cloud"
  }

  /**
   * Lines 56-77: the box sits at (x/5 - 300, height, y/5), where `height` is the
   * random value the source draws in [0, 100); the label sits 10 units lower on
   * every axis.
   */
  function Place(d: Record, height: real): (n: Node)
    ensures n.data == d && n.position.y == height
    ensures 5.0 * (n.position.x + 300.0) == d.x && 5.0 * n.position.z == d.y
    ensures n.text == Label(d.ip)
    ensures Sub(n.position, n.textPosition) == Vec3(10.0, 10.0, 10.0)
  {
    var p := Vec3(d.x / 5.0 - 300.0, height, d.y / 5.0);
    Node(d, p, Label(d.ip), Vec3(p.x - 10.0, p.y - 10.0, p.z - 10.0))
  }

  function PlaceAll(data: seq<Record>, heights: seq<real>): (ns: seq<Node>)
    requires |heights| == |data|
    ensures |ns| == |data|
    ensures forall i :: 0 <= i < |data| ==> ns[i] == Place(data[i], heights[i])
    decreases |data|
  {
    if data == [] then []
    else [Place(data[0], heights[0])] + PlaceAll(data[1..], heights[1..])
  }

  //
  // link resolution
  //

  /** The identifier a link is looked up by (lines 86-96). */
  function Key(l: Link): (k: Option<string>)
    ensures l.linkType == Some("cloud") ==> k == Some("cloud")
    ensures l.linkType != Some("cloud") ==> k == l.devId
  {
    if l.linkType == Some("cloud") then Some("cloud") else l.devId
  }

  /** Some record carries the identifier. */
  predicate Known(records: seq<Record>, key: Option<string>) {
    exists j :: 0 <= j < |records| && records[j].devId == key
  }

  /** `filter(...)[0]`: the index of the first record, from `from` on, whose `dev_id` equals `key`. */
  function FirstFrom(records: seq<Record>, key: Option<string>, from: nat): (t: Option<nat>)
    requires from <= |records|
    ensures t.Some? ==> from <= t.value < |records| && records[t.value].devId == key
    ensures t.Some? ==> forall j :: from <= j < t.value ==> records[j].devId != key
    ensures t.None? ==> forall j :: from <= j < |records| ==> records[j].devId != key
    decreases |records| - from
  {
    if from == |records| then None
    else if records[from].devId == key then Some(from)
    else FirstFrom(records, key, from + 1)
  }

  function FirstMatch(records: seq<Record>, key: Option<string>): (t: Option<nat>)
    ensures t.Some? <==> Known(records, key)
    ensures t.Some? ==> t.value < |records| && records[t.value].devId == key
    ensures t.Some? ==> forall j :: 0 <= j < t.value ==> records[j].devId != key
  {
    FirstFrom(records, key, 0)
  }

  /** What one link of record `source` contributes: a pair if its key is known, nothing otherwise. */
  function LinkPair(records: seq<Record>, source: nat, l: Link): (ps: seq<Pair>)
    ensures |ps| <= 1
    ensures |ps| == 1 <==> Known(records, Key(l))
    ensures |ps| == 1 ==> ps[0] == Pair(FirstMatch(records, Key(l)).value, source)
  {
    match FirstMatch(records, Key(l))
    case Some(t) => [Pair(t, source)]
    case None => []
  }

  /** The pairs of the first `m` links of record `source`, in link order. */
  function LinkPairs(records: seq<Record>, source: nat, links: seq<Link>, m: nat): seq<Pair>
    requires m <= |links|
    decreases m
  {
    if m == 0 then []
    else LinkPairs(records, source, links, m - 1) + LinkPair(records, source, links[m - 1])
  }

  /** The pairs of the first `n` records, record by record (lines 84-102). */
  function PairsUpTo(records: seq<Record>, n: nat): seq<Pair>
    requires n <= |records|
    decreases n
  {
    if n == 0 then []
    else PairsUpTo(records, n - 1) + LinkPairs(records, n - 1, records[n - 1].links, |records[n - 1].links|)
  }

  /** All pairs of a record list. */
  function Resolve(records: seq<Record>): seq<Pair> {
    PairsUpTo(records, |records|)
  }

  function Records(nodes: seq<Node>): (rs: seq<Record>)
    ensures |rs| == |nodes|
    ensures forall i :: 0 <= i < |nodes| ==> rs[i] == nodes[i].data
    decreases |nodes|
  {
    if nodes == [] then [] else [nodes[0].data] + Records(nodes[1..])
  }

  //
  // counting
  //

  /** How many links the first `m` links hold whose key some record carries. */
  function KnownLinks(records: seq<Record>, links: seq<Link>, m: nat): (k: nat)
    requires m <= |links|
    ensures k <= m
    decreases m
  {
    if m == 0 then 0
    else KnownLinks(records, links, m - 1) + (if Known(records, Key(links[m - 1])) then 1 else 0)
  }

  /** Resolvable links over the first `n` records, and all links over them. */
  function KnownUpTo(records: seq<Record>, n: nat): nat
    requires n <= |records|
    decreases n
  {
    if n == 0 then 0 else KnownUpTo(records, n - 1) + KnownLinks(records, records[n - 1].links, |records[n - 1].links|)
  }

  function LinksUpTo(records: seq<Record>, n: nat): nat
    requires n <= |records|
    decreases n
  {
    if n == 0 then 0 else LinksUpTo(records, n - 1) + |records[n - 1].links|
  }

  lemma {:induction false} LinkPairsCount(records: seq<Record>, source: nat, links: seq<Link>, m: nat)
    requires m <= |links|
    ensures |LinkPairs(records, source, links, m)| == KnownLinks(records, links, m)
    decreases m
  {
    if m > 0 {
      LinkPairsCount(records, source, links, m - 1);
    }
  }

  lemma {:induction false} KnownUpToBound(records: seq<Record>, n: nat)
    requires n <= |records|
    ensures KnownUpTo(records, n) <= LinksUpTo(records, n)
    decreases n
  {
    if n > 0 {
      KnownUpToBound(records, n - 1);
    }
  }

  /**
   * Each link yields exactly one pair when its key is known and none otherwise, so
   * there are as many pairs as resolvable links, and never more than links.
   */
  lemma {:induction false} PairsCount(records: seq<Record>, n: nat)
    requires n <= |records|
    ensures |PairsUpTo(records, n)| == KnownUpTo(records, n)
    ensures |PairsUpTo(records, n)| <= LinksUpTo(records, n)
    decreases n
  {
    if n > 0 {
      PairsCount(records, n - 1);
      LinkPairsCount(records, n - 1, records[n - 1].links, |records[n - 1].links|);
    }
    KnownUpToBound(records, n);
  }

  /** A pair joins a link of its source to the first record carrying that link's key. */
  predicate Justified(records: seq<Record>, p: Pair) {
    && p.target < |records|
    && p.source < |records|
    && exists l :: l in records[p.source].links
         && Key(l) == records[p.target].devId
         && FirstMatch(records, Key(l)) == Some(p.target)
  }

  lemma {:induction false} LinkPairsJustified(records: seq<Record>, source: nat, m: nat)
    requires source < |records| && m <= |records[source].links|
    ensures forall k :: 0 <= k < |LinkPairs(records, source, records[source].links, m)| ==>
      var p := LinkPairs(records, source, records[source].links, m)[k];
      p.source == source && Justified(records, p)
    decreases m
  {
    if m > 0 {
      LinkPairsJustified(records, source, m - 1);
      var l := records[source].links[m - 1];
      var t := FirstMatch(records, Key(l));
      if t.Some? {
        assert l in records[source].links;
        assert Justified(records, Pair(t.value, source));
      }
    }
  }

  /**
   * `ps` lists, in link order, the pairs of the first `m` links of record `source`:
   * pair `k` comes from the link at position `idx[k]`, the positions strictly
   * increase, and every link whose key is known has its pair.
   */
  ghost predicate FollowsLinks(records: seq<Record>, source: nat, links: seq<Link>, m: nat, ps: seq<Pair>, idx: seq<nat>)
    requires m <= |links|
  {
    && |idx| == |ps|
    && (forall k :: 0 <= k < |idx| ==>
         && idx[k] < m
         && ps[k].source == source
         && FirstMatch(records, Key(links[idx[k]])) == Some(ps[k].target))
    && (forall a, b :: 0 <= a < b < |idx| ==> idx[a] < idx[b])
    && (forall j :: 0 <= j < m && Known(records, Key(links[j])) ==> j in idx)
  }

  /** A link whose key is unknown adds no pair and leaves the order intact. */
  lemma SkipUnknownLink(records: seq<Record>, source: nat, links: seq<Link>, m: nat, ps: seq<Pair>, idx: seq<nat>)
    requires m < |links| && !Known(records, Key(links[m]))
    requires FollowsLinks(records, source, links, m, ps, idx)
    ensures FollowsLinks(records, source, links, m + 1, ps, idx)
  {
  }

  /** A link whose key is known adds its pair at the end, after every earlier link's pair. */
  lemma AppendKnownLink(records: seq<Record>, source: nat, links: seq<Link>, m: nat, ps: seq<Pair>, idx: seq<nat>, t: nat)
    requires m < |links| && FirstMatch(records, Key(links[m])) == Some(t)
    requires FollowsLinks(records, source, links, m, ps, idx)
    ensures FollowsLinks(records, source, links, m + 1, ps + [Pair(t, source)], idx + [m])
  {
    var qs := ps + [Pair(t, source)];
    var ix := idx + [m];
    forall k | 0 <= k < |ix|
      ensures ix[k] < m + 1 && qs[k].source == source
      ensures FirstMatch(records, Key(links[ix[k]])) == Some(qs[k].target)
    {
      if k < |idx| {
        assert ix[k] == idx[k] && qs[k] == ps[k];
      }
    }
    forall a, b | 0 <= a < b < |ix|
      ensures ix[a] < ix[b]
    {
      assert ix[a] == idx[a];
      if b < |idx| {
        assert ix[b] == idx[b];
      }
    }
    forall j | 0 <= j < m + 1 && Known(records, Key(links[j]))
      ensures j in ix
    {
      if j < m {
        assert j in idx;
      } else {
        assert ix[|idx|] == m;
      }
    }
  }

  /** One more link keeps the order: its pair, if any, goes after all the others. */
  lemma ExtendOrdered(records: seq<Record>, source: nat, links: seq<Link>, m: nat, prev: seq<nat>)
    returns (idx: seq<nat>)
    requires 0 < m <= |links|
    requires FollowsLinks(records, source, links, m - 1, LinkPairs(records, source, links, m - 1), prev)
    ensures FollowsLinks(records, source, links, m, LinkPairs(records, source, links, m), idx)
  {
    var ps := LinkPairs(records, source, links, m - 1);
    var t := FirstMatch(records, Key(links[m - 1]));
    if t.None? {
      assert LinkPairs(records, source, links, m) == ps;
      SkipUnknownLink(records, source, links, m - 1, ps, prev);
      idx := prev;
    } else {
      assert LinkPairs(records, source, links, m) == ps + [Pair(t.value, source)];
      AppendKnownLink(records, source, links, m - 1, ps, prev, t.value);
      idx := prev + [m - 1];
    }
  }


  /**
   * Link order within one record: the pairs of record `source` come from strictly
   * increasing positions of its link list, each joining its link to the first record
   * carrying that link's key, and no resolvable link is left out.
   */
  lemma {:induction false} LinkPairsOrdered(records: seq<Record>, source: nat, links: seq<Link>, m: nat)
    returns (idx: seq<nat>)
    requires m <= |links|
    ensures FollowsLinks(records, source, links, m, LinkPairs(records, source, links, m), idx)
    decreases m
  {
    if m == 0 {
      idx := [];
    } else {
      var prev := LinkPairsOrdered(records, source, links, m - 1);
      idx := ExtendOrdered(records, source, links, m, prev);
    }
  }


  /**
   * Soundness and order: every pair of the first `n` records links a source among
   * them to the first record matching one of the source's links, and the sources
   * never decrease along the list.
   */
  lemma {:induction false} PairsJustified(records: seq<Record>, n: nat)
    requires n <= |records|
    ensures forall k :: 0 <= k < |PairsUpTo(records, n)| ==>
      PairsUpTo(records, n)[k].source < n && Justified(records, PairsUpTo(records, n)[k])
    ensures forall a, b :: 0 <= a < b < |PairsUpTo(records, n)| ==>
      PairsUpTo(records, n)[a].source <= PairsUpTo(records, n)[b].source
    decreases n
  {
    if n > 0 {
      PairsJustified(records, n - 1);
      LinkPairsJustified(records, n - 1, |records[n - 1].links|);
    }
  }

  /** The last record's links come last: adding a record appends only pairs whose source is that record. */
  lemma PairsGrowAtEnd(records: seq<Record>, n: nat)
    requires 0 < n <= |records|
    ensures PairsUpTo(records, n)[..|PairsUpTo(records, n - 1)|] == PairsUpTo(records, n - 1)
  {
  }

  //
  // operations
  //

  /** A scene whose pairs name placed nodes. */
  predicate Valid(s: Scene) {
    forall k :: 0 <= k < |s.pairs| ==> s.pairs[k].target < |s.nodes| && s.pairs[k].source < |s.nodes|
  }

  /**
   * `initTopologyData` (lines 49-108), after the font has loaded: the new records
   * are placed and appended to the devices already known, and then the links of ALL
   * known devices are resolved again and appended, as the source's lists live as
   * long as the `Topology3D` object.
   */
  function InitTopologyData(s: Scene, data: seq<Record>, heights: seq<real>): (r: Scene)
    requires |heights| == |data|
    requires Valid(s)
    ensures Valid(r)
    ensures r.nodes == s.nodes + PlaceAll(data, heights)
    ensures r.pairs == s.pairs + Resolve(Records(r.nodes))
  {
    var nodes := s.nodes + PlaceAll(data, heights);
    var found := Resolve(Records(nodes));
    PairsJustified(Records(nodes), |nodes|);
    Scene(nodes, s.pairs + found)
  }

  /** On a fresh object, the pairs are exactly the resolution of the data's links, one per resolvable link. */
  lemma FreshScene(data: seq<Record>, heights: seq<real>)
    requires |heights| == |data|
    ensures var r := InitTopologyData(Scene([], []), data, heights);
      && Records(r.nodes) == data
      && r.pairs == Resolve(data)
      && |r.pairs| == KnownUpTo(data, |data|) <= LinksUpTo(data, |data|)
  {
    var r := InitTopologyData(Scene([], []), data, heights);
    assert r.nodes == PlaceAll(data, heights);
    assert Records(r.nodes) == data;
    PairsCount(data, |data|);
  }

  /**
   * The link resolution as the source writes it, two nested loops over records and
   * links pushing onto a list; it produces exactly `Resolve`.
   */
  method ResolveLinks(records: seq<Record>) returns (pairs: seq<Pair>)
    ensures pairs == Resolve(records)
  {
    pairs := [];
    var i := 0;
    while i < |records|
      invariant i <= |records|
      invariant pairs == PairsUpTo(records, i)
    {
      var links := records[i].links;
      var j := 0;
      while j < |links|
        invariant j <= |links|
        invariant pairs == PairsUpTo(records, i) + LinkPairs(records, i, links, j)
      {
        var t := FirstMatch(records, Key(links[j]));
        assert LinkPairs(records, i, links, j + 1) == LinkPairs(records, i, links, j) + LinkPair(records, i, links[j]);
        if t.Some? {
          pairs := pairs + [Pair(t.value, i)];
        }
        j := j + 1;
      }
      assert PairsUpTo(records, i + 1) == PairsUpTo(records, i) + LinkPairs(records, i, links, |links|);
      i := i + 1;
    }
  }

  /** `drawCurves` (lines 166-181): one line per pair, in pair order, from the target's box to the source's. */
  method DrawCurves(s: Scene) returns (lines: seq<Line>)
    requires Valid(s)
    ensures |lines| == |s.pairs|
    ensures forall k :: 0 <= k < |lines| ==>
      lines[k] == Line(s.nodes[s.pairs[k].target].position, s.nodes[s.pairs[k].source].position)
  {
    lines := [];
    var i := 0;
    while i < |s.pairs|
      invariant i <= |s.pairs|
      invariant |lines| == i
      invariant forall k :: 0 <= k < i ==>
        lines[k] == Line(s.nodes[s.pairs[k].target].position, s.nodes[s.pairs[k].source].position)
    {
      var p := s.pairs[i];
      lines := lines + [Line(s.nodes[p.target].position, s.nodes[p.source].position)];
      i := i + 1;
    }
  }
}
