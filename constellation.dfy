/**
 * The procedural constellation generator (src/lib/constellation.ts):
 * a Mulberry32 stream, node generation (five draws per node, bimodal
 * hub / non-hub hierarchy), candidate edges within a distance threshold,
 * a sort by length, and a greedy degree-capped selection whose degree
 * counts are written back onto the nodes.
 *
 * Positions are kept in spherical form: the Fibonacci-sphere angles and
 * the conversion to Cartesian coordinates need trigonometry and are not
 * modelled, and the Euclidean distance between two positions is a
 * parameter (`dist`).
 */
module Constellation {

  import opened Bits
  import opened Constants

  // ---------------------------------------------------------------
  // Mulberry32
  // ---------------------------------------------------------------

  /** The constant each draw adds to the state before mixing. */
  const Increment: bv32 := 0x6D2B79F5

  /** The state update of one draw: `s = (s + 0x6d2b79f5) | 0`, a wrapping 32-bit add. */
  function Step(s: bv32): bv32
  {
    s + Increment
  }

  /** The state after `k` draws. */
  function Advance(s: bv32, k: nat): bv32
  {
    if k == 0 then s else Step(Advance(s, k - 1))
  }

  /**
   * The output word for an already advanced state: the two `Math.imul`
   * rounds and the final xor-shift, all on 32-bit words.
   */
  function Mix(s: bv32): bv32
  {
    var t := (s ^ (s >> 15)) * (1 | s);
    var u := (t + (t ^ (t >> 7)) * (61 | t)) ^ t;
    u ^ (u >> 14)
  }

  /** The unsigned value of the low `n` bits of `w`, least significant bit first (the `>>> 0` reading). */
  function BitsValue(w: bv32, n: nat): nat
    requires n <= 32
  {
    if n == 0 then 0 else (if w & 1 == 1 then 1 else 0) + 2 * BitsValue(w >> 1, n - 1)
  }

  lemma {:induction false} BitsValueBound(w: bv32, n: nat)
    requires n <= 32
    ensures BitsValue(w, n) < Pow2(n)
  {
    if n > 0 {
      BitsValueBound(w >> 1, n - 1);
    }
  }

  /** The value a draw returns for the advanced state `s`: the unsigned output word over 2^32. */
  function Draw(s: bv32): (x: real)
    ensures 0.0 <= x < 1.0
  {
    BitsValueBound(Mix(s), 32);
    Pow2Of32();
    BitsValue(Mix(s), 32) as real / 4294967296.0
  }

  lemma {:induction false} AdvanceAdds(s: bv32, j: nat, k: nat)
    ensures Advance(Advance(s, j), k) == Advance(s, j + k)
  {
    if k > 0 {
      AdvanceAdds(s, j, k - 1);
    }
  }

  /** The generator state is the seed coerced to a 32-bit word, as `s |= 0` does. */
  function SeedWord(seed: int): bv32
  {
    (seed % Word) as bv32
  }

  /** createRNG: the closure and its captured state. */
  class Mulberry32 {
    var s: bv32

    constructor (seed: int)
      ensures s == SeedWord(seed)
    {
      s := (seed % Word) as bv32;
    }

    /** One call of the returned closure. */
    method Next() returns (x: real)
      modifies this
      ensures s == Step(old(s))
      ensures x == Draw(s)
    {
      s := s + Increment;
      x := Draw(s);
    }
  }

  // ---------------------------------------------------------------
  // Nodes
  // ---------------------------------------------------------------

  /**
   * A node position before the spherical-to-Cartesian conversion: the
   * node's Fibonacci index, the random offsets added to its azimuth and
   * polar angle, and its radius.
   */
  datatype Position = Spherical(index: nat, thetaOffset: real, phiOffset: real, radius: real)

  datatype Node = Node(position: Position, hierarchy: real, connections: nat)

  /** The hierarchy weight drawn for a node: a hub test, then a weight in the hub or the normal band. */
  function Hierarchy(hubDraw: real, weightDraw: real, hubProbability: real): real
  {
    if hubDraw < hubProbability then 0.7 + weightDraw * 0.3 else 0.1 + weightDraw * 0.4
  }

  /** The radius for radius draw `d`: the sphere radius times a factor in [1 - v/2, 1 + v/2). */
  function ShellRadius(d: real, cfg: ConstellationConfig): real
  {
    cfg.sphereRadius * (1.0 - cfg.sphereDepthVariation / 2.0 + d * cfg.sphereDepthVariation)
  }

  /** The node built from its five draws, in the order theta jitter, phi jitter, radius, hub test, weight. */
  function NodeFromDraws(i: nat, d1: real, d2: real, d3: real, d4: real, d5: real, cfg: ConstellationConfig): Node
  {
    Node(Spherical(i, (d1 - 0.5) * 0.8, (d2 - 0.5) * 0.3, ShellRadius(d3, cfg)),
         Hierarchy(d4, d5, cfg.hubProbability), 0)
  }

  /** The node with index `i` whose draws start from generator state `s`. */
  function NodeAt(s: bv32, i: nat, cfg: ConstellationConfig): Node
  {
    NodeFromDraws(i, Draw(Advance(s, 1)), Draw(Advance(s, 2)), Draw(Advance(s, 3)), Draw(Advance(s, 4)), Draw(Advance(s, 5)), cfg)
  }

  /** The node list generated from initial state `s0`: node `i` draws after the 5i draws of the nodes before it. */
  function NodesFrom(s0: bv32, cfg: ConstellationConfig): seq<Node>
  {
    seq(cfg.nodeCount, i requires 0 <= i => NodeAt(Advance(s0, 5 * i), i, cfg))
  }

  /**
   * The hub test and the hierarchy agree: hubs get 0.7 + 0.3r in [0.7, 1),
   * others 0.1 + 0.4r in [0.1, 0.5), so `hierarchy >= 0.7` holds exactly
   * for the nodes drawn as hubs.
   */
  lemma HierarchyBands(hubDraw: real, weightDraw: real, p: real)
    requires 0.0 <= weightDraw < 1.0
    ensures hubDraw < p ==> 0.7 <= Hierarchy(hubDraw, weightDraw, p) < 1.0
    ensures !(hubDraw < p) ==> 0.1 <= Hierarchy(hubDraw, weightDraw, p) < 0.5
    ensures Hierarchy(hubDraw, weightDraw, p) >= 0.7 <==> hubDraw < p
  {
  }

  lemma NodeAtIsHubIffDrawnAsHub(s: bv32, i: nat, cfg: ConstellationConfig)
    ensures NodeAt(s, i, cfg).hierarchy >= 0.7 <==> Draw(Advance(s, 4)) < cfg.hubProbability
    ensures 0.1 <= NodeAt(s, i, cfg).hierarchy < 1.0
    ensures NodeAt(s, i, cfg).position.index == i && NodeAt(s, i, cfg).connections == 0
  {
    HierarchyBands(Draw(Advance(s, 4)), Draw(Advance(s, 5)), cfg.hubProbability);
  }

  /** The radius lies in [R(1 - v/2), R(1 + v/2)) for radius R > 0 and depth variation v > 0. */
  lemma RadiusWithinShell(d: real, cfg: ConstellationConfig)
    requires 0.0 <= d < 1.0
    requires cfg.sphereRadius > 0.0 && cfg.sphereDepthVariation > 0.0
    ensures cfg.sphereRadius * (1.0 - cfg.sphereDepthVariation / 2.0) <= ShellRadius(d, cfg)
    ensures ShellRadius(d, cfg) < cfg.sphereRadius * (1.0 + cfg.sphereDepthVariation / 2.0)
  {
    var v := cfg.sphereDepthVariation;
    var big := cfg.sphereRadius;
    PositiveScale(v, 0.0, d);
    PositiveScale(v, d, 1.0);
    assert 0.0 <= v * d < v;
    var rv := 1.0 - v / 2.0 + v * d;
    assert rv == 1.0 - v / 2.0 + d * v;
    PositiveScale(big, 1.0 - v / 2.0, rv);
    PositiveScale(big, rv, 1.0 + v / 2.0);
  }

  lemma PositiveScale(a: real, x: real, y: real)
    requires a > 0.0 && x <= y
    ensures a * x <= a * y
    ensures x < y ==> a * x < a * y
  {
    assert a * y - a * x == a * (y - x);
  }

  /** One iteration of generateNodes' loop: five draws and the node built from them. */
  method GenerateNode(rng: Mulberry32, i: nat, cfg: ConstellationConfig) returns (node: Node)
    modifies rng
    ensures node == NodeAt(old(rng.s), i, cfg)
    ensures rng.s == Advance(old(rng.s), 5)
  {
    ghost var s := rng.s;
    var thetaDraw := rng.Next();
    assert rng.s == Advance(s, 1);
    var phiDraw := rng.Next();
    assert rng.s == Advance(s, 2);
    var radiusDraw := rng.Next();
    assert rng.s == Advance(s, 3);
    var r := ShellRadius(radiusDraw, cfg);
    var hubDraw := rng.Next();
    assert rng.s == Advance(s, 4);
    var isHub := hubDraw < cfg.hubProbability;
    var weightDraw := rng.Next();
    assert rng.s == Advance(s, 5);
    var hierarchy: real;
    if isHub {
      hierarchy := 0.7 + weightDraw * 0.3;
    } else {
      hierarchy := 0.1 + weightDraw * 0.4;
    }
    node := Node(Spherical(i, (thetaDraw - 0.5) * 0.8, (phiDraw - 0.5) * 0.3, r), hierarchy, 0);
  }

  /** generateNodes: `nodeCount` iterations, five draws each, pushed in index order. */
  method GenerateNodes(rng: Mulberry32, cfg: ConstellationConfig) returns (nodes: array<Node>)
    modifies rng
    ensures fresh(nodes)
    ensures nodes[..] == NodesFrom(old(rng.s), cfg)
    ensures rng.s == Advance(old(rng.s), 5 * cfg.nodeCount)
  {
    ghost var s0 := rng.s;
    nodes := new Node[cfg.nodeCount];
    var i := 0;
    while i < cfg.nodeCount
      invariant 0 <= i <= cfg.nodeCount
      invariant rng.s == Advance(s0, 5 * i)
      invariant nodes[..i] == NodesFrom(s0, cfg)[..i]
    {
      var node := GenerateNode(rng, i, cfg);
      AdvanceAdds(s0, 5 * i, 5);
      nodes[i] := node;
      assert nodes[..i + 1] == nodes[..i] + [node];
      i := i + 1;
    }
    assert nodes[..] == nodes[..cfg.nodeCount];
  }

  // ---------------------------------------------------------------
  // Candidate edges
  // ---------------------------------------------------------------

  /** An undirected connection between two node indices and its length. */
  datatype Edge = Edge(from: nat, to: nat, length: real)

  /** The Euclidean distance between two node positions (Math.sqrt over the Cartesian coordinates). */
  type Metric = (Position, Position) -> real

  /** The candidate (at most one) that the inner loop pushes for the node pair (i, j). */
  function Candidate(ns: seq<Node>, thr: real, dist: Metric, i: nat, j: nat): seq<Edge>
    requires i < |ns| && j < |ns|
  {
    var d := dist(ns[i].position, ns[j].position);
    if d < thr then [Edge(i, j, d)] else []
  }

  /** The candidates the inner loop for row `i` has pushed once `j` reaches `upTo`. */
  function Row(ns: seq<Node>, thr: real, dist: Metric, i: nat, upTo: nat): seq<Edge>
    requires i < |ns| && upTo <= |ns|
  {
    if upTo <= i + 1 then [] else Row(ns, thr, dist, i, upTo - 1) + Candidate(ns, thr, dist, i, upTo - 1)
  }

  /** The candidates the outer loop has pushed for rows 0 .. k - 1. */
  function Rows(ns: seq<Node>, thr: real, dist: Metric, k: nat): seq<Edge>
    requires k <= |ns|
  {
    if k == 0 then [] else Rows(ns, thr, dist, k - 1) + Row(ns, thr, dist, k - 1, |ns|)
  }

  function Candidates(ns: seq<Node>, thr: real, dist: Metric): seq<Edge>
  {
    Rows(ns, thr, dist, |ns|)
  }

  /** An edge that joins two distinct nodes i < j, measured by `dist` and shorter than the threshold. */
  predicate ValidCandidate(ns: seq<Node>, thr: real, dist: Metric, e: Edge)
  {
    e.from < e.to < |ns| && e.length == dist(ns[e.from].position, ns[e.to].position) && e.length < thr
  }

  /** `a` comes before `b` in the order the nested loops visit pairs. */
  predicate PairBefore(a: Edge, b: Edge)
  {
    a.from < b.from || (a.from == b.from && a.to < b.to)
  }

  predicate StrictlyPairOrdered(es: seq<Edge>)
  {
    forall a, b :: 0 <= a < b < |es| ==> PairBefore(es[a], es[b])
  }

  /** Row `i` only holds valid candidates leaving node `i`, towards nodes below `upTo`. */
  lemma {:induction false} RowSound(ns: seq<Node>, thr: real, dist: Metric, i: nat, upTo: nat)
    requires i < |ns| && upTo <= |ns|
    ensures forall a :: 0 <= a < |Row(ns, thr, dist, i, upTo)| ==>
      var e := Row(ns, thr, dist, i, upTo)[a]; ValidCandidate(ns, thr, dist, e) && e.from == i && e.to < upTo
  {
    if upTo > i + 1 {
      RowSound(ns, thr, dist, i, upTo - 1);
      var init := Row(ns, thr, dist, i, upTo - 1);
      var next := Candidate(ns, thr, dist, i, upTo - 1);
      assert Row(ns, thr, dist, i, upTo) == init + next;
      forall a | 0 <= a < |init + next|
        ensures ValidCandidate(ns, thr, dist, (init + next)[a]) && (init + next)[a].from == i && (init + next)[a].to < upTo
      {
        if a < |init| {
          assert (init + next)[a] == init[a];
          assert ValidCandidate(ns, thr, dist, init[a]) && init[a].from == i && init[a].to < upTo - 1;
        } else {
          var d := dist(ns[i].position, ns[upTo - 1].position);
          assert next == [Edge(i, upTo - 1, d)] && d < thr;
          assert (init + next)[a] == Edge(i, upTo - 1, d);
        }
      }
    }
  }

  lemma {:induction false} RowsSound(ns: seq<Node>, thr: real, dist: Metric, k: nat)
    requires k <= |ns|
    ensures forall a :: 0 <= a < |Rows(ns, thr, dist, k)| ==>
      var e := Rows(ns, thr, dist, k)[a]; ValidCandidate(ns, thr, dist, e) && e.from < k
  {
    if k > 0 {
      RowsSound(ns, thr, dist, k - 1);
      RowSound(ns, thr, dist, k - 1, |ns|);
      var earlier := Rows(ns, thr, dist, k - 1);
      var row := Row(ns, thr, dist, k - 1, |ns|);
      assert Rows(ns, thr, dist, k) == earlier + row;
      forall a | 0 <= a < |earlier + row|
        ensures ValidCandidate(ns, thr, dist, (earlier + row)[a]) && (earlier + row)[a].from < k
      {
        if a < |earlier| {
          assert (earlier + row)[a] == earlier[a];
          assert ValidCandidate(ns, thr, dist, earlier[a]) && earlier[a].from < k - 1;
        } else {
          assert (earlier + row)[a] == row[a - |earlier|];
          assert ValidCandidate(ns, thr, dist, row[a - |earlier|]) && row[a - |earlier|].from == k - 1;
        }
      }
    }
  }

  lemma InAppend(xs: seq<Edge>, ys: seq<Edge>, e: Edge)
    ensures e in xs + ys <==> e in xs || e in ys
  {
  }

  lemma {:induction false} RowComplete(ns: seq<Node>, thr: real, dist: Metric, i: nat, upTo: nat, e: Edge)
    requires i < |ns| && upTo <= |ns|
    requires ValidCandidate(ns, thr, dist, e) && e.from == i && e.to < upTo
    ensures e in Row(ns, thr, dist, i, upTo)
  {
    var init := Row(ns, thr, dist, i, upTo - 1);
    var next := Candidate(ns, thr, dist, i, upTo - 1);
    assert Row(ns, thr, dist, i, upTo) == init + next;
    InAppend(init, next, e);
    if e.to == upTo - 1 {
      assert next == [e];
    } else {
      RowComplete(ns, thr, dist, i, upTo - 1, e);
    }
  }

  lemma {:induction false} RowsComplete(ns: seq<Node>, thr: real, dist: Metric, k: nat, e: Edge)
    requires k <= |ns|
    requires ValidCandidate(ns, thr, dist, e) && e.from < k
    ensures e in Rows(ns, thr, dist, k)
  {
    var earlier := Rows(ns, thr, dist, k - 1);
    var row := Row(ns, thr, dist, k - 1, |ns|);
    assert Rows(ns, thr, dist, k) == earlier + row;
    InAppend(earlier, row, e);
    if e.from == k - 1 {
      RowComplete(ns, thr, dist, k - 1, |ns|, e);
    } else {
      RowsComplete(ns, thr, dist, k - 1, e);
    }
  }

  /**
   * The candidate list holds exactly the pairs i < j closer than the
   * threshold, each with its distance: nothing else, and none missing.
   */
  lemma CandidatesExactly(ns: seq<Node>, thr: real, dist: Metric)
    ensures forall e :: e in Candidates(ns, thr, dist) <==> ValidCandidate(ns, thr, dist, e)
  {
    var cs := Candidates(ns, thr, dist);
    RowsSound(ns, thr, dist, |ns|);
    forall e
      ensures e in cs <==> ValidCandidate(ns, thr, dist, e)
    {
      if ValidCandidate(ns, thr, dist, e) {
        RowsComplete(ns, thr, dist, |ns|, e);
      }
      if e in cs {
        var a :| 0 <= a < |cs| && cs[a] == e;
      }
    }
  }

  lemma OrderedAppend(xs: seq<Edge>, ys: seq<Edge>)
    requires StrictlyPairOrdered(xs) && StrictlyPairOrdered(ys)
    requires forall a, b :: 0 <= a < |xs| && 0 <= b < |ys| ==> PairBefore(xs[a], ys[b])
    ensures StrictlyPairOrdered(xs + ys)
  {
    forall a, b | 0 <= a < b < |xs + ys|
      ensures PairBefore((xs + ys)[a], (xs + ys)[b])
    {
      if b < |xs| {
        assert (xs + ys)[a] == xs[a] && (xs + ys)[b] == xs[b];
      } else if a >= |xs| {
        assert (xs + ys)[a] == ys[a - |xs|] && (xs + ys)[b] == ys[b - |xs|];
      } else {
        assert (xs + ys)[a] == xs[a] && (xs + ys)[b] == ys[b - |xs|];
      }
    }
  }

  lemma {:induction false} RowOrdered(ns: seq<Node>, thr: real, dist: Metric, i: nat, upTo: nat)
    requires i < |ns| && upTo <= |ns|
    ensures StrictlyPairOrdered(Row(ns, thr, dist, i, upTo))
  {
    if upTo > i + 1 {
      var init := Row(ns, thr, dist, i, upTo - 1);
      var next := Candidate(ns, thr, dist, i, upTo - 1);
      assert Row(ns, thr, dist, i, upTo) == init + next;
      RowOrdered(ns, thr, dist, i, upTo - 1);
      RowSound(ns, thr, dist, i, upTo - 1);
      OrderedAppend(init, next);
    }
  }

  lemma {:induction false} RowsOrdered(ns: seq<Node>, thr: real, dist: Metric, k: nat)
    requires k <= |ns|
    ensures StrictlyPairOrdered(Rows(ns, thr, dist, k))
  {
    if k > 0 {
      var earlier := Rows(ns, thr, dist, k - 1);
      var row := Row(ns, thr, dist, k - 1, |ns|);
      assert StrictlyPairOrdered(earlier + row) by {
        RowsOrdered(ns, thr, dist, k - 1);
        RowOrdered(ns, thr, dist, k - 1, |ns|);
        RowsBeforeRow(ns, thr, dist, k - 1);
        OrderedAppend(earlier, row);
      }
    }
  }

  lemma RowsBeforeRow(ns: seq<Node>, thr: real, dist: Metric, k: nat)
    requires k < |ns|
    ensures forall a, b :: 0 <= a < |Rows(ns, thr, dist, k)| && 0 <= b < |Row(ns, thr, dist, k, |ns|)| ==>
      PairBefore(Rows(ns, thr, dist, k)[a], Row(ns, thr, dist, k, |ns|)[b])
  {
    var earlier, row := Rows(ns, thr, dist, k), Row(ns, thr, dist, k, |ns|);
    RowsSound(ns, thr, dist, k);
    RowSound(ns, thr, dist, k, |ns|);
  }

  /** Candidates come out in the nested loops' pair order, so no pair is listed twice. */
  lemma CandidatesOrdered(ns: seq<Node>, thr: real, dist: Metric)
    ensures StrictlyPairOrdered(Candidates(ns, thr, dist))
    ensures NoRepeats(Candidates(ns, thr, dist))
  {
    RowsOrdered(ns, thr, dist, |ns|);
    OrderedHasNoRepeats(Candidates(ns, thr, dist));
  }

  // ---------------------------------------------------------------
  // Sorting by length
  // ---------------------------------------------------------------

  /**
   * Inserting `e` into a list sorted by length, after every edge of
   * the same length: the step of a stable sort, as Array.prototype.sort is.
   */
  function Insert(s: seq<Edge>, e: Edge): seq<Edge>
  {
    if |s| == 0 then [e]
    else if s[|s| - 1].length <= e.length then s + [e]
    else Insert(s[..|s| - 1], e) + [s[|s| - 1]]
  }

  /** `candidateEdges.sort((a, b) => a.length - b.length)` */
  function SortByLength(cs: seq<Edge>): seq<Edge>
  {
    if |cs| == 0 then [] else Insert(SortByLength(cs[..|cs| - 1]), cs[|cs| - 1])
  }

  predicate SortedByLength(s: seq<Edge>)
  {
    forall a, b :: 0 <= a < b < |s| ==> s[a].length <= s[b].length
  }

  /** The edges of `s` whose length is exactly `len`, in order. */
  function OfLength(s: seq<Edge>, len: real): seq<Edge>
  {
    if |s| == 0 then []
    else OfLength(s[..|s| - 1], len) + (if s[|s| - 1].length == len then [s[|s| - 1]] else [])
  }

  lemma {:induction false} OfLengthAppend(s: seq<Edge>, t: seq<Edge>, len: real)
    ensures OfLength(s + t, len) == OfLength(s, len) + OfLength(t, len)
  {
    if |t| == 0 {
      assert s + t == s;
    } else {
      assert (s + t)[..|s + t| - 1] == s + t[..|t| - 1];
      OfLengthAppend(s, t[..|t| - 1], len);
    }
  }

  lemma {:induction false} InsertMultiset(s: seq<Edge>, e: Edge)
    ensures multiset(Insert(s, e)) == multiset(s) + multiset{e}
  {
    if |s| > 0 && s[|s| - 1].length > e.length {
      var init, last := s[..|s| - 1], s[|s| - 1];
      assert s == init + [last];
      InsertMultiset(init, e);
    }
  }

  lemma {:induction false} InsertSorted(s: seq<Edge>, e: Edge)
    requires SortedByLength(s)
    ensures SortedByLength(Insert(s, e))
  {
    if |s| > 0 && s[|s| - 1].length > e.length {
      var init, last := s[..|s| - 1], s[|s| - 1];
      assert s == init + [last];
      InsertSorted(init, e);
      InsertMultiset(init, e);
      var r := Insert(init, e);
      forall x | x in r
        ensures x.length <= last.length
      {
        assert x in multiset(r);
        assert x in multiset(init) || x == e;
      }
      forall a, b | 0 <= a < b < |r + [last]|
        ensures (r + [last])[a].length <= (r + [last])[b].length
      {
        if b == |r| {
          assert (r + [last])[a] in r;
        } else {
          assert (r + [last])[a] == r[a] && (r + [last])[b] == r[b];
        }
      }
    }
  }

  lemma {:induction false} InsertOfLength(s: seq<Edge>, e: Edge, len: real)
    requires SortedByLength(s)
    ensures OfLength(Insert(s, e), len) == OfLength(s, len) + OfLength([e], len)
  {
    if |s| == 0 {
    } else if s[|s| - 1].length <= e.length {
      OfLengthAppend(s, [e], len);
    } else {
      var init, last := s[..|s| - 1], s[|s| - 1];
      assert s == init + [last];
      InsertOfLength(init, e, len);
      OfLengthAppend(Insert(init, e), [last], len);
      OfLengthAppend(init, [last], len);
    }
  }

  /**
   * The sort returns the candidates sorted by length, as a permutation,
   * and stable: the edges of any one length keep their relative order.
   */
  lemma {:induction false} SortFacts(cs: seq<Edge>, len: real)
    ensures SortedByLength(SortByLength(cs))
    ensures multiset(SortByLength(cs)) == multiset(cs)
    ensures OfLength(SortByLength(cs), len) == OfLength(cs, len)
  {
    if |cs| > 0 {
      var init, last := cs[..|cs| - 1], cs[|cs| - 1];
      assert cs == init + [last];
      SortFacts(init, len);
      InsertSorted(SortByLength(init), last);
      InsertMultiset(SortByLength(init), last);
      InsertOfLength(SortByLength(init), last, len);
      OfLengthAppend(init, [last], len);
    }
  }

  /** A list in which no element occurs twice. */
  ghost predicate NoRepeats(s: seq<Edge>)
  {
    forall x :: multiset(s)[x] <= 1
  }

  /** Two equal entries at different positions make a repeat. */
  lemma RepeatAt(s: seq<Edge>, a: nat, b: nat)
    requires a < b < |s| && s[a] == s[b]
    ensures !NoRepeats(s)
  {
    assert s == s[..b] + [s[b]] + s[b + 1..];
    assert s[..b][a] == s[a];
    assert multiset(s)[s[b]] >= 2;
  }

  lemma {:induction false} OrderedHasNoRepeats(s: seq<Edge>)
    requires StrictlyPairOrdered(s)
    ensures NoRepeats(s)
  {
    if |s| > 0 {
      var init, last := s[..|s| - 1], s[|s| - 1];
      assert s == init + [last];
      assert StrictlyPairOrdered(init) by {
        forall a, b | 0 <= a < b < |init|
          ensures PairBefore(init[a], init[b])
        {
          assert init[a] == s[a] && init[b] == s[b];
        }
      }
      OrderedHasNoRepeats(init);
      forall a | 0 <= a < |init|
        ensures init[a] != last
      {
        assert PairBefore(s[a], s[|s| - 1]);
      }
      assert last !in init;
    }
  }

  lemma SortKeepsNoRepeats(cs: seq<Edge>)
    requires NoRepeats(cs)
    ensures NoRepeats(SortByLength(cs))
  {
    SortFacts(cs, 0.0);
  }

  // ---------------------------------------------------------------
  // Greedy, degree-capped selection
  // ---------------------------------------------------------------

  /** A node's connection limit: hubs (hierarchy at least 0.7) get hubMinConnections + 4. */
  function Cap(n: Node, cfg: ConstellationConfig): nat
  {
    if n.hierarchy >= 0.7 then HubCap(cfg) else cfg.normalMaxConnections
  }

  /** What `connectionCount[v]` holds after the edges `es` were accepted: one per endpoint equal to v. */
  function Degree(es: seq<Edge>, v: nat): nat
  {
    if |es| == 0 then 0
    else Degree(es[..|es| - 1], v) + (if es[|es| - 1].from == v then 1 else 0) + (if es[|es| - 1].to == v then 1 else 0)
  }

  /** Both endpoints of `e` are still below their limits. */
  predicate Admits(ns: seq<Node>, cfg: ConstellationConfig, es: seq<Edge>, e: Edge)
    requires e.from < |ns| && e.to < |ns|
  {
    Degree(es, e.from) < Cap(ns[e.from], cfg) && Degree(es, e.to) < Cap(ns[e.to], cfg)
  }

  predicate InRange(ns: seq<Node>, cs: seq<Edge>)
  {
    forall e :: e in cs ==> e.from < e.to < |ns|
  }

  /** The edges the greedy loop has accepted after visiting the candidates `cs`, in order. */
  function Select(ns: seq<Node>, cfg: ConstellationConfig, cs: seq<Edge>): seq<Edge>
    requires InRange(ns, cs)
  {
    if |cs| == 0 then []
    else
      var es := Select(ns, cfg, cs[..|cs| - 1]);
      var e := cs[|cs| - 1];
      if Admits(ns, cfg, es, e) then es + [e] else es
  }

  lemma DegreeAppend(es: seq<Edge>, e: Edge, v: nat)
    ensures Degree(es + [e], v) == Degree(es, v) + (if e.from == v then 1 else 0) + (if e.to == v then 1 else 0)
  {
    assert (es + [e])[..|es|] == es;
  }

  /** Every node ends with at most its limit of connections. */
  lemma {:induction false} SelectWithinCaps(ns: seq<Node>, cfg: ConstellationConfig, cs: seq<Edge>, v: nat)
    requires InRange(ns, cs) && v < |ns|
    ensures Degree(Select(ns, cfg, cs), v) <= Cap(ns[v], cfg)
  {
    if |cs| > 0 {
      var es := Select(ns, cfg, cs[..|cs| - 1]);
      var e := cs[|cs| - 1];
      SelectWithinCaps(ns, cfg, cs[..|cs| - 1], v);
      if Admits(ns, cfg, es, e) {
        DegreeAppend(es, e, v);
      }
    }
  }

  /** Only candidates are accepted, each at most as often as it occurs among them. */
  lemma {:induction false} SelectFromCandidates(ns: seq<Node>, cfg: ConstellationConfig, cs: seq<Edge>)
    requires InRange(ns, cs)
    ensures multiset(Select(ns, cfg, cs)) <= multiset(cs)
  {
    if |cs| > 0 {
      var init := cs[..|cs| - 1];
      assert cs == init + [cs[|cs| - 1]];
      SelectFromCandidates(ns, cfg, init);
    }
  }

  /** Accepting in candidate order keeps the list sorted by length. */
  lemma {:induction false} SelectSorted(ns: seq<Node>, cfg: ConstellationConfig, cs: seq<Edge>)
    requires InRange(ns, cs) && SortedByLength(cs)
    ensures SortedByLength(Select(ns, cfg, cs))
  {
    if |cs| > 0 {
      var init := cs[..|cs| - 1];
      var e := cs[|cs| - 1];
      var es := Select(ns, cfg, init);
      SelectSorted(ns, cfg, init);
      SelectFromCandidates(ns, cfg, init);
      if Admits(ns, cfg, es, e) {
        forall a, b | 0 <= a < b < |es + [e]|
          ensures (es + [e])[a].length <= (es + [e])[b].length
        {
          if b == |es| {
            var x := es[a];
            assert x in multiset(init);
            var k :| 0 <= k < |init| && init[k] == x;
            assert cs[k] == x;
          } else {
            assert (es + [e])[a] == es[a] && (es + [e])[b] == es[b];
          }
        }
      }
    }
  }

  /** The endpoint limit that stopped `e` is reached in `es`. */
  predicate Saturated(ns: seq<Node>, cfg: ConstellationConfig, es: seq<Edge>, e: Edge)
    requires e.from < |ns| && e.to < |ns|
  {
    Degree(es, e.from) >= Cap(ns[e.from], cfg) || Degree(es, e.to) >= Cap(ns[e.to], cfg)
  }

  /**
   * Greedy maximality: every candidate left out has an endpoint that is
   * full in the final edge list, so no left-out candidate could still be added.
   */
  lemma {:induction false} SelectMaximal(ns: seq<Node>, cfg: ConstellationConfig, cs: seq<Edge>)
    requires InRange(ns, cs)
    ensures forall e :: e in cs && e !in Select(ns, cfg, cs) ==> Saturated(ns, cfg, Select(ns, cfg, cs), e)
  {
    if |cs| > 0 {
      var init := cs[..|cs| - 1];
      var last := cs[|cs| - 1];
      var es := Select(ns, cfg, init);
      SelectMaximal(ns, cfg, init);
      forall e | e in cs && e !in Select(ns, cfg, cs)
        ensures Saturated(ns, cfg, Select(ns, cfg, cs), e)
      {
        if Admits(ns, cfg, es, last) {
          assert e in init && e !in es;
          DegreeAppend(es, last, e.from);
          DegreeAppend(es, last, e.to);
        } else if e != last {
          assert e in init;
        }
      }
    }
  }

  /** `xs` is `ys` with some entries left out, order kept (matched greedily from the end). */
  predicate SubsequenceOf(xs: seq<Edge>, ys: seq<Edge>)
  {
    if |xs| == 0 then true
    else if |ys| == 0 then false
    else if xs[|xs| - 1] == ys[|ys| - 1] then SubsequenceOf(xs[..|xs| - 1], ys[..|ys| - 1])
    else SubsequenceOf(xs, ys[..|ys| - 1])
  }

  lemma {:induction false} SubsequenceExtend(xs: seq<Edge>, ys: seq<Edge>, y: Edge)
    requires SubsequenceOf(xs, ys)
    ensures SubsequenceOf(xs, ys + [y])
    decreases |ys|, 1
  {
    assert (ys + [y])[..|ys|] == ys;
    if |xs| > 0 && xs[|xs| - 1] == y {
      SubsequenceDropLast(xs, ys);
    }
  }

  lemma {:induction false} SubsequenceDropLast(xs: seq<Edge>, ys: seq<Edge>)
    requires |xs| > 0 && SubsequenceOf(xs, ys)
    ensures SubsequenceOf(xs[..|xs| - 1], ys)
    decreases |ys|, 0
  {
    var init := ys[..|ys| - 1];
    assert ys == init + [ys[|ys| - 1]];
    if xs[|xs| - 1] == ys[|ys| - 1] {
      SubsequenceExtend(xs[..|xs| - 1], init, ys[|ys| - 1]);
    } else {
      SubsequenceDropLast(xs, init);
      SubsequenceExtend(xs[..|xs| - 1], init, ys[|ys| - 1]);
    }
  }

  /** The accepted edges are the candidates with some left out, in candidate order. */
  lemma {:induction false} SelectSubsequence(ns: seq<Node>, cfg: ConstellationConfig, cs: seq<Edge>)
    requires InRange(ns, cs)
    ensures SubsequenceOf(Select(ns, cfg, cs), cs)
  {
    if |cs| > 0 {
      var init := cs[..|cs| - 1];
      var es := Select(ns, cfg, init);
      SelectSubsequence(ns, cfg, init);
      assert cs == init + [cs[|cs| - 1]];
      if Admits(ns, cfg, es, cs[|cs| - 1]) {
        assert (es + [cs[|cs| - 1]])[..|es|] == es;
      } else {
        SubsequenceExtend(es, init, cs[|cs| - 1]);
      }
    }
  }

  /** Each accepted edge keeps its two endpoints, so no new pair is created. */
  lemma SelectNoRepeats(ns: seq<Node>, cfg: ConstellationConfig, cs: seq<Edge>)
    requires InRange(ns, cs) && NoRepeats(cs)
    ensures NoRepeats(Select(ns, cfg, cs))
  {
    SelectFromCandidates(ns, cfg, cs);
  }

  // ---------------------------------------------------------------
  // generateEdges and generateConstellation
  // ---------------------------------------------------------------

  lemma SortedCandidatesInRange(ns: seq<Node>, thr: real, dist: Metric)
    ensures InRange(ns, SortByLength(Candidates(ns, thr, dist)))
  {
    CandidatesExactly(ns, thr, dist);
    SortFacts(Candidates(ns, thr, dist), 0.0);
    forall e | e in SortByLength(Candidates(ns, thr, dist))
      ensures e in Candidates(ns, thr, dist)
    {
      assert e in multiset(SortByLength(Candidates(ns, thr, dist)));
    }
  }

  /** The edge list generateEdges returns for the nodes `ns`. */
  function EdgesFor(ns: seq<Node>, cfg: ConstellationConfig, dist: Metric): seq<Edge>
  {
    SortedCandidatesInRange(ns, cfg.connectionThreshold, dist);
    Select(ns, cfg, SortByLength(Candidates(ns, cfg.connectionThreshold, dist)))
  }

  /** The nodes with their connection counts written back. */
  function WithDegrees(ns: seq<Node>, es: seq<Edge>): seq<Node>
  {
    seq(|ns|, i requires 0 <= i < |ns| => ns[i].(connections := Degree(es, i)))
  }

  /** The nested loops of generateEdges: every pair i < j closer than the threshold, in visiting order. */
  method CollectCandidates(nodes: array<Node>, thr: real, dist: Metric) returns (candidates: seq<Edge>)
    ensures candidates == Candidates(nodes[..], thr, dist)
  {
    ghost var ns := nodes[..];
    var n := nodes.Length;
    candidates := [];
    for i := 0 to n
      invariant candidates == Rows(ns, thr, dist, i)
    {
      for j := i + 1 to n
        invariant candidates == Rows(ns, thr, dist, i) + Row(ns, thr, dist, i, j)
      {
        var d := dist(nodes[i].position, nodes[j].position);
        if d < thr {
          candidates := candidates + [Edge(i, j, d)];
        }
      }
    }
  }

  /** The greedy pass of generateEdges, with the per-node connection counters. */
  method AcceptGreedily(nodes: array<Node>, cfg: ConstellationConfig, candidates: seq<Edge>)
    returns (edges: seq<Edge>, connectionCount: array<nat>)
    requires InRange(nodes[..], candidates)
    ensures fresh(connectionCount) && connectionCount.Length == nodes.Length
    ensures edges == Select(nodes[..], cfg, candidates)
    ensures forall v :: 0 <= v < nodes.Length ==> connectionCount[v] == Degree(edges, v)
  {
    ghost var ns := nodes[..];
    var n := nodes.Length;
    connectionCount := new nat[n](_ => 0);
    edges := [];
    for k := 0 to |candidates|
      invariant edges == Select(ns, cfg, candidates[..k])
      invariant forall v :: 0 <= v < n ==> connectionCount[v] == Degree(edges, v)
    {
      var e := candidates[k];
      assert candidates[..k + 1][..k] == candidates[..k];
      var fromLimit := if nodes[e.from].hierarchy >= 0.7 then cfg.hubMinConnections + 4 else cfg.normalMaxConnections;
      var toLimit := if nodes[e.to].hierarchy >= 0.7 then cfg.hubMinConnections + 4 else cfg.normalMaxConnections;
      if connectionCount[e.from] < fromLimit && connectionCount[e.to] < toLimit {
        forall v | 0 <= v < n
          ensures Degree(edges + [e], v) == Degree(edges, v) + (if e.from == v then 1 else 0) + (if e.to == v then 1 else 0)
        {
          DegreeAppend(edges, e, v);
        }
        edges := edges + [e];
        connectionCount[e.from] := connectionCount[e.from] + 1;
        connectionCount[e.to] := connectionCount[e.to] + 1;
      }
    }
    assert candidates[..|candidates|] == candidates;
  }

  /** generateEdges: candidates, the sort, the greedy pass, then each node's count written back. */
  method GenerateEdges(nodes: array<Node>, cfg: ConstellationConfig, dist: Metric) returns (edges: seq<Edge>)
    modifies nodes
    ensures edges == EdgesFor(old(nodes[..]), cfg, dist)
    ensures nodes[..] == WithDegrees(old(nodes[..]), edges)
  {
    ghost var ns := nodes[..];
    var candidates := CollectCandidates(nodes, cfg.connectionThreshold, dist);
    candidates := SortByLength(candidates);
    SortedCandidatesInRange(ns, cfg.connectionThreshold, dist);
    var connectionCount;
    edges, connectionCount := AcceptGreedily(nodes, cfg, candidates);
    for i := 0 to nodes.Length
      invariant forall v :: 0 <= v < i ==> nodes[v] == ns[v].(connections := Degree(edges, v))
      invariant forall v :: i <= v < nodes.Length ==> nodes[v] == ns[v]
      invariant forall v :: 0 <= v < nodes.Length ==> connectionCount[v] == Degree(edges, v)
    {
      nodes[i] := nodes[i].(connections := connectionCount[i]);
    }
  }

  /** The nodes and edges generateConstellation returns for a configuration. */
  function ConstellationOf(cfg: ConstellationConfig, dist: Metric): (seq<Node>, seq<Edge>)
  {
    var ns := NodesFrom(SeedWord(cfg.seed), cfg);
    var es := EdgesFor(ns, cfg, dist);
    (WithDegrees(ns, es), es)
  }

  /** generateConstellation: one generator seeded from the configuration, then nodes, then edges. */
  method GenerateConstellation(cfg: ConstellationConfig, dist: Metric) returns (nodes: seq<Node>, edges: seq<Edge>)
    ensures (nodes, edges) == ConstellationOf(cfg, dist)
  {
    var rng := new Mulberry32(cfg.seed);
    var nodeArray := GenerateNodes(rng, cfg);
    edges := GenerateEdges(nodeArray, cfg, dist);
    nodes := nodeArray[..];
  }

  /** Every edge is a candidate: two distinct nodes, their distance, below the threshold. */
  lemma EdgesAreCandidates(ns: seq<Node>, cfg: ConstellationConfig, dist: Metric)
    ensures forall e :: e in EdgesFor(ns, cfg, dist) ==> ValidCandidate(ns, cfg.connectionThreshold, dist, e)
  {
    var cs := Candidates(ns, cfg.connectionThreshold, dist);
    var sorted := SortByLength(cs);
    SortedCandidatesInRange(ns, cfg.connectionThreshold, dist);
    var es := Select(ns, cfg, sorted);
    CandidatesExactly(ns, cfg.connectionThreshold, dist);
    SortFacts(cs, 0.0);
    SelectFromCandidates(ns, cfg, sorted);
    forall e | e in es
      ensures e in cs
    {
      assert e in multiset(es);
      assert e in multiset(sorted);
    }
  }

  /** Edges come out shortest first. */
  lemma EdgesSorted(ns: seq<Node>, cfg: ConstellationConfig, dist: Metric)
    ensures SortedByLength(EdgesFor(ns, cfg, dist))
  {
    var cs := Candidates(ns, cfg.connectionThreshold, dist);
    SortedCandidatesInRange(ns, cfg.connectionThreshold, dist);
    SortFacts(cs, 0.0);
    SelectSorted(ns, cfg, SortByLength(cs));
  }

  /** No pair of nodes is joined twice. */
  lemma EdgesDistinct(ns: seq<Node>, cfg: ConstellationConfig, dist: Metric)
    ensures forall a, b :: 0 <= a < b < |EdgesFor(ns, cfg, dist)| ==>
      (EdgesFor(ns, cfg, dist)[a].from, EdgesFor(ns, cfg, dist)[a].to) != (EdgesFor(ns, cfg, dist)[b].from, EdgesFor(ns, cfg, dist)[b].to)
  {
    var cs := Candidates(ns, cfg.connectionThreshold, dist);
    var sorted := SortByLength(cs);
    SortedCandidatesInRange(ns, cfg.connectionThreshold, dist);
    var es := Select(ns, cfg, sorted);
    CandidatesOrdered(ns, cfg.connectionThreshold, dist);
    SortKeepsNoRepeats(cs);
    SelectNoRepeats(ns, cfg, sorted);
    EdgesAreCandidates(ns, cfg, dist);
    forall a, b | 0 <= a < b < |es|
      ensures (es[a].from, es[a].to) != (es[b].from, es[b].to)
    {
      if es[a] == es[b] {
        RepeatAt(es, a, b);
      }
      assert ValidCandidate(ns, cfg.connectionThreshold, dist, es[a]);
      assert ValidCandidate(ns, cfg.connectionThreshold, dist, es[b]);
    }
  }

  /**
   * The accepted edges are a subsequence of the candidates sorted by
   * length; with no candidates there are no edges.
   */
  lemma EdgesFromSortedCandidates(ns: seq<Node>, cfg: ConstellationConfig, dist: Metric)
    ensures SubsequenceOf(EdgesFor(ns, cfg, dist), SortByLength(Candidates(ns, cfg.connectionThreshold, dist)))
    ensures |Candidates(ns, cfg.connectionThreshold, dist)| == 0 ==> |EdgesFor(ns, cfg, dist)| == 0
  {
    SortedCandidatesInRange(ns, cfg.connectionThreshold, dist);
    SelectSubsequence(ns, cfg, SortByLength(Candidates(ns, cfg.connectionThreshold, dist)));
  }

  /** Every node's degree stays within its limit, and every candidate left out has a full endpoint. */
  lemma EdgesCappedAndMaximal(ns: seq<Node>, cfg: ConstellationConfig, dist: Metric)
    ensures forall v :: 0 <= v < |ns| ==> Degree(EdgesFor(ns, cfg, dist), v) <= Cap(ns[v], cfg)
    ensures forall e :: ValidCandidate(ns, cfg.connectionThreshold, dist, e) && e !in EdgesFor(ns, cfg, dist) ==>
      Degree(EdgesFor(ns, cfg, dist), e.from) == Cap(ns[e.from], cfg) || Degree(EdgesFor(ns, cfg, dist), e.to) == Cap(ns[e.to], cfg)
  {
    var cs := Candidates(ns, cfg.connectionThreshold, dist);
    var sorted := SortByLength(cs);
    SortedCandidatesInRange(ns, cfg.connectionThreshold, dist);
    var es := Select(ns, cfg, sorted);
    forall v | 0 <= v < |ns|
      ensures Degree(es, v) <= Cap(ns[v], cfg)
    {
      SelectWithinCaps(ns, cfg, sorted, v);
    }
    CandidatesExactly(ns, cfg.connectionThreshold, dist);
    SortFacts(cs, 0.0);
    SelectMaximal(ns, cfg, sorted);
    forall e | ValidCandidate(ns, cfg.connectionThreshold, dist, e) && e !in es
      ensures Degree(es, e.from) == Cap(ns[e.from], cfg) || Degree(es, e.to) == Cap(ns[e.to], cfg)
    {
      assert e in multiset(sorted);
      assert Saturated(ns, cfg, es, e);
    }
  }

  /**
   * The nodes of a generated constellation: `nodeCount` of them in index
   * order, hierarchy in [0.1, 1), and each node's recorded connection
   * count equal to its degree in the edge list and within its limit.
   */
  lemma ConstellationNodes(cfg: ConstellationConfig, dist: Metric)
    ensures |ConstellationOf(cfg, dist).0| == cfg.nodeCount
    ensures forall i :: 0 <= i < |ConstellationOf(cfg, dist).0| ==>
      var n := ConstellationOf(cfg, dist).0[i];
      n.position.index == i && 0.1 <= n.hierarchy < 1.0 && n.connections == Degree(ConstellationOf(cfg, dist).1, i) <= Cap(n, cfg)
  {
    var ns := NodesFrom(SeedWord(cfg.seed), cfg);
    var es := EdgesFor(ns, cfg, dist);
    var nodes := WithDegrees(ns, es);
    assert ConstellationOf(cfg, dist) == (nodes, es);
    EdgesCappedAndMaximal(ns, cfg, dist);
    forall i | 0 <= i < |nodes|
      ensures nodes[i].position.index == i && 0.1 <= nodes[i].hierarchy < 1.0
      ensures nodes[i].connections == Degree(es, i) <= Cap(nodes[i], cfg)
    {
      NodeAtIsHubIffDrawnAsHub(Advance(SeedWord(cfg.seed), 5 * i), i, cfg);
      assert Cap(nodes[i], cfg) == Cap(ns[i], cfg);
    }
  }

  /**
   * The edges of a generated constellation: each a candidate closer than
   * the threshold, shortest first, each pair at most once, and every
   * candidate left out blocked by a full endpoint.
   */
  lemma ConstellationEdges(cfg: ConstellationConfig, dist: Metric)
    ensures var nodes := ConstellationOf(cfg, dist).0;
      forall e :: e in ConstellationOf(cfg, dist).1 ==> ValidCandidate(nodes, cfg.connectionThreshold, dist, e)
    ensures SortedByLength(ConstellationOf(cfg, dist).1)
    ensures var edges := ConstellationOf(cfg, dist).1;
      forall a, b :: 0 <= a < b < |edges| ==> (edges[a].from, edges[a].to) != (edges[b].from, edges[b].to)
    ensures var (nodes, edges) := ConstellationOf(cfg, dist);
      forall e :: ValidCandidate(nodes, cfg.connectionThreshold, dist, e) && e !in edges ==>
        nodes[e.from].connections == Cap(nodes[e.from], cfg) || nodes[e.to].connections == Cap(nodes[e.to], cfg)
  {
    var ns := NodesFrom(SeedWord(cfg.seed), cfg);
    var es := EdgesFor(ns, cfg, dist);
    var nodes := WithDegrees(ns, es);
    assert ConstellationOf(cfg, dist) == (nodes, es);
    EdgesAreCandidates(ns, cfg, dist);
    EdgesSorted(ns, cfg, dist);
    EdgesDistinct(ns, cfg, dist);
    EdgesCappedAndMaximal(ns, cfg, dist);
    // The write-back changes neither positions nor hierarchy.
    forall e
      ensures ValidCandidate(nodes, cfg.connectionThreshold, dist, e) <==> ValidCandidate(ns, cfg.connectionThreshold, dist, e)
      ensures e.from < e.to < |ns| ==> Cap(nodes[e.from], cfg) == Cap(ns[e.from], cfg) && Cap(nodes[e.to], cfg) == Cap(ns[e.to], cfg)
    {
    }
  }
}
