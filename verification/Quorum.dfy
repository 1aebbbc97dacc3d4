// Single and joint cluster configurations and the majorities they ask for.
// This is what ClusterConfiguration counts towards and what the safety of the
// whole protocol rests on: any two quorums share a peer.
module Quorum {
  type PeerId = string

  function Ids(s: seq<PeerId>): set<PeerId> { set x | x in s }

  predicate Distinct(s: seq<PeerId>) {
    forall i, j :: 0 <= i < j < |s| ==> s[i] != s[j]
  }

  // The old and the new cluster of a configuration; `nc` is empty except while the membership changes (Cold,new).
  datatype Config = Config(oc: set<PeerId>, nc: set<PeerId>) {
    predicate Valid() { oc != {} }

    predicate IsTransitional() { nc != {} }

    function Members(): set<PeerId> { oc + nc }
  }

  function MajorityOf(count: nat): nat { count / 2 + 1 }

  predicate IsMajority(peers: set<PeerId>, s: set<PeerId>) {
    |s * peers| >= MajorityOf(|peers|)
  }

  predicate IsQuorum(cfg: Config, s: set<PeerId>) {
    && IsMajority(cfg.oc, s)
    && (cfg.IsTransitional() ==> IsMajority(cfg.nc, s))
  }

  // A majority is more than half, no more and no less.
  lemma MajorityIsMoreThanHalf(peers: set<PeerId>, s: set<PeerId>)
    ensures IsMajority(peers, s) <==> |s * peers| > |peers - s|
  {
    assert peers == s * peers + (peers - s);
  }

  lemma MajoritiesIntersect(peers: set<PeerId>, a: set<PeerId>, b: set<PeerId>) returns (x: PeerId)
    requires IsMajority(peers, a) && IsMajority(peers, b)
    ensures x in peers && x in a && x in b
  {
    var pa, pb := a * peers, b * peers;
    if pa * pb == {} {
      assert |pa + pb| == |pa| + |pb|;
      SubsetCardinality(pa + pb, peers);
      assert false;
    }
    x :| x in pa * pb;
  }

  lemma SubsetCardinality<T>(a: set<T>, b: set<T>)
    requires a <= b
    ensures |a| <= |b|
  {
    assert b == a + (b - a);
    assert |a + (b - a)| == |a| + |b - a|;
  }

  // Two quorums of one configuration, single or joint, share a member.
  lemma QuorumsIntersect(cfg: Config, a: set<PeerId>, b: set<PeerId>) returns (x: PeerId)
    requires IsQuorum(cfg, a) && IsQuorum(cfg, b)
    ensures x in cfg.oc && x in a && x in b
  {
    x := MajoritiesIntersect(cfg.oc, a, b);
  }

  // The configurations a cluster may hold at two consecutive stages of a
  // membership change: Cold, then Cold,new, then Cnew.
  predicate Neighbours(c: Config, d: Config) {
    && !(c.IsTransitional() && d.IsTransitional())
    && (c == d
        || (d.IsTransitional() && (c.oc == d.oc || c.oc == d.nc))
        || (c.IsTransitional() && (d.oc == c.oc || d.oc == c.nc)))
  }

  // A quorum of either stage shares a peer with every quorum of its neighbour,
  // so no decision can be taken behind the back of the other configuration.
  lemma NeighbourQuorumsIntersect(c: Config, d: Config, a: set<PeerId>, b: set<PeerId>) returns (x: PeerId)
    requires Neighbours(c, d) && IsQuorum(c, a) && IsQuorum(d, b)
    ensures x in c.Members() && x in d.Members() && x in a && x in b
  {
    if c.oc == d.oc {
      x := MajoritiesIntersect(c.oc, a, b);
    } else if d.IsTransitional() {
      x := MajoritiesIntersect(c.oc, a, b);
    } else {
      x := MajoritiesIntersect(d.oc, a, b);
    }
  }

  // The joint stage cannot be skipped: with clusters {a, b} and {b, c, d, e} in one
  // go, a majority of the old and a majority of the new have no peer in common.
  lemma DirectChangeIsUnsafe(a: PeerId, b: PeerId, c: PeerId, d: PeerId, e: PeerId)
    requires a != b && c != d && c != e && d != e && {a, b} !! {c, d, e}
    ensures IsQuorum(Config({a, b}, {}), {a, b}) && IsQuorum(Config({b, c, d, e}, {}), {c, d, e})
    ensures {a, b} * {c, d, e} == {}
  {
    assert {a, b} * {a, b} == {a, b} && {c, d, e} * {b, c, d, e} == {c, d, e};
    assert b !in {c, d, e};
  }

  // More members never unmake a quorum.
  lemma QuorumGrows(cfg: Config, a: set<PeerId>, b: set<PeerId>)
    requires IsQuorum(cfg, a) && a <= b
    ensures IsQuorum(cfg, b)
  {
    SubsetCardinality(a * cfg.oc, b * cfg.oc);
    SubsetCardinality(a * cfg.nc, b * cfg.nc);
  }
}
