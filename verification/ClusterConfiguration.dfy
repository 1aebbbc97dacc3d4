// Who is in the cluster, and the counting of votes and of log holders. Peers are
// known by id only; a cluster is kept in the order in which it was given.
module ClusterConfiguration {
  import opened Quorum

  // The argument of replace: an array, or an object with an old and a new array.
  datatype Membership = Single(peers: seq<PeerId>) | Joint(before: seq<PeerId>, after: seq<PeerId>)

  datatype JoinResult = Refused | Malformed | NoChange | Joined(membership: Membership)

  // parsePeers asserts that there is a peer and that ids are not empty and unique.
  predicate Parses(s: seq<PeerId>) { s != [] && Distinct(s) && "" !in s }

  predicate WellFormed(m: Membership) {
    match m
    case Single(peers) => Parses(peers)
    case Joint(before, after) => Parses(before) && Parses(after)
  }

  // The loop of parsePeers: an empty id and the second occurrence of an id are errors.
  method ParsePeers(s: seq<PeerId>) returns (ok: bool)
    ensures ok <==> Parses(s)
  {
    var result: set<PeerId> := {};
    for i := 0 to |s|
      invariant Distinct(s[..i]) && "" !in s[..i] && result == Ids(s[..i])
    {
      if s[i] == "" || s[i] in result { return false; }
      result := result + {s[i]};
      assert s[..i + 1] == s[..i] + [s[i]];
    }
    assert s[..|s|] == s;
    ok := s != [];
    if !ok { assert result == {}; }
  }

  lemma {:induction false} DistinctCount(s: seq<PeerId>)
    requires Distinct(s)
    ensures |Ids(s)| == |s|
  {
    if s == [] {
      assert Ids(s) == {};
    } else {
      var n := |s| - 1;
      DistinctCount(s[..n]);
      assert s == s[..n] + [s[n]];
      assert Ids(s) == Ids(s[..n]) + {s[n]};
    }
  }

  // One more member raises its cluster's count, and no other's.
  lemma CountOneMore(c: set<PeerId>, s: set<PeerId>, x: PeerId)
    requires x !in s
    ensures |(s + {x}) * c| == |s * c| + if x in c then 1 else 0
  {
    if x in c {
      assert (s + {x}) * c == s * c + {x};
    } else {
      assert (s + {x}) * c == s * c;
    }
  }

  // What a first answer does to the counts of cluster c.
  lemma Answered(c: set<PeerId>, asked: set<PeerId>, granted: set<PeerId>, x: PeerId)
    requires granted <= asked
    ensures (asked + {x}) * c == if x in c then asked * c + {x} else asked * c
    ensures x !in asked ==> |(granted + {x}) * c| == |granted * c| + if x in c then 1 else 0
  {
    if x !in asked { CountOneMore(c, granted, x); }
  }

  // The loop's way of counting the holders in a cluster: this peer, then the others.
  ghost function CountedIn(c: set<PeerId>, all: set<PeerId>, me: PeerId, peers: seq<PeerId>, i: nat): nat
    requires i <= |peers|
  {
    if i == 0 then if me in c then 1 else 0
    else CountedIn(c, all, me, peers, i - 1) + if peers[i - 1] in all && peers[i - 1] in c then 1 else 0
  }

  // Those that it counted.
  ghost function SeenIn(c: set<PeerId>, all: set<PeerId>, me: PeerId, peers: seq<PeerId>, i: nat): set<PeerId>
    requires i <= |peers|
  {
    if i == 0 then if me in c then {me} else {}
    else SeenIn(c, all, me, peers, i - 1) + if peers[i - 1] in all && peers[i - 1] in c then {peers[i - 1]} else {}
  }

  lemma {:induction false} SeenInIs(c: set<PeerId>, all: set<PeerId>, me: PeerId, peers: seq<PeerId>, i: nat, x: PeerId)
    requires i <= |peers|
    ensures x in SeenIn(c, all, me, peers, i) <==>
              x in c && (x == me || (x in all && exists k :: 0 <= k < i && peers[k] == x))
  {
    if i > 0 {
      SeenInIs(c, all, me, peers, i - 1, x);
      if x in c && x in all && x == peers[i - 1] { assert x in SeenIn(c, all, me, peers, i); }
    }
  }

  lemma {:induction false} CountedIsSeen(c: set<PeerId>, all: set<PeerId>, me: PeerId, peers: seq<PeerId>, i: nat)
    requires i <= |peers| && Distinct(peers) && me !in peers
    ensures CountedIn(c, all, me, peers, i) == |SeenIn(c, all, me, peers, i)|
  {
    if i > 0 {
      CountedIsSeen(c, all, me, peers, i - 1);
      SeenInIs(c, all, me, peers, i - 1, peers[i - 1]);
    }
  }

  // What was counted on the way is not more than all, and in the end it is all.
  lemma CountedHolders(c: set<PeerId>, all: set<PeerId>, me: PeerId, peers: seq<PeerId>, i: nat)
    requires i <= |peers| && Distinct(peers) && me !in peers && me in all
    requires c <= {me} + Ids(peers)
    ensures CountedIn(c, all, me, peers, i) <= |all * c|
    ensures i == |peers| ==> CountedIn(c, all, me, peers, i) == |all * c|
  {
    CountedIsSeen(c, all, me, peers, i);
    var seen := SeenIn(c, all, me, peers, i);
    forall x ensures x in seen ==> x in all * c
             ensures i == |peers| && x in all * c ==> x in seen
    {
      SeenInIs(c, all, me, peers, i, x);
    }
    SubsetCardinality(seen, all * c);
    if i == |peers| { assert seen == all * c; }
  }

  // The voters and the votes of a cluster stand for those who answered and who granted.
  ghost predicate Stands(c: set<PeerId>, asked: set<PeerId>, granted: set<PeerId>, voted: set<PeerId>, votes: nat) {
    granted <= asked && voted == asked * c && votes == |granted * c|
  }

  // A first answer is added to the voters of a cluster, and to its votes if granted.
  method CountVote(cluster: seq<PeerId>, voted: set<PeerId>, votes: nat, id: PeerId, voteGranted: bool,
                   ghost c: set<PeerId>, ghost asked: set<PeerId>, ghost granted: set<PeerId>,
                   ghost nowAsked: set<PeerId>, ghost nowGranted: set<PeerId>)
    returns (voters: set<PeerId>, count: nat)
    requires c == Ids(cluster) && Stands(c, asked, granted, voted, votes)
    requires nowAsked == asked + {id}
    requires nowGranted == if voteGranted && id !in asked then granted + {id} else granted
    ensures Stands(c, nowAsked, nowGranted, voters, count)
  {
    Answered(c, asked, granted, id);
    voters, count := voted, votes;
    if id in cluster && id !in voted {
      voters := voted + {id};
      if voteGranted { count := votes + 1; }
    }
  }

  // Counts the holders down from both majorities, and stops when nothing is left.
  method EnoughHold(logIndex: nat, matchIndex: map<PeerId, nat>, me: PeerId, peers: seq<PeerId>,
                    ocluster: seq<PeerId>, ncluster: seq<PeerId>, majority: nat, ncMajority: nat,
                    ghost oset: set<PeerId>, ghost nset: set<PeerId>, ghost all: set<PeerId>)
    returns (r: bool)
    requires forall x :: (x in ocluster <==> x in oset) && (x in ncluster <==> x in nset)
    requires Distinct(peers) && me !in peers && oset <= {me} + Ids(peers) && nset <= {me} + Ids(peers)
    requires me in all
    requires forall x :: x in peers ==> (x in all <==> x in matchIndex && matchIndex[x] >= logIndex)
    ensures r <==> |all * oset| >= majority && |all * nset| >= ncMajority
  {
    CountedHolders(oset, all, me, peers, 0);
    CountedHolders(nset, all, me, peers, 0);
    var left: int := if me in ocluster then majority - 1 else majority;
    var ncLeft: int := if me in ncluster then ncMajority - 1 else ncMajority;
    if left <= 0 && ncLeft <= 0 { return true; }
    for i := 0 to |peers|
      invariant left == majority - CountedIn(oset, all, me, peers, i)
      invariant ncLeft == ncMajority - CountedIn(nset, all, me, peers, i)
      invariant left > 0 || ncLeft > 0
    {
      if peers[i] in matchIndex && matchIndex[peers[i]] >= logIndex {
        if peers[i] in ocluster { left := left - 1; }
        if peers[i] in ncluster { ncLeft := ncLeft - 1; }
        if left <= 0 && ncLeft <= 0 {
          CountedHolders(oset, all, me, peers, i + 1);
          CountedHolders(nset, all, me, peers, i + 1);
          return true;
        }
      }
    }
    CountedHolders(oset, all, me, peers, |peers|);
    CountedHolders(nset, all, me, peers, |peers|);
    return false;
  }

  class ClusterConfiguration {
    const peerId: PeerId
    var ocluster: seq<PeerId>
    var ncluster: seq<PeerId>
    var peers: seq<PeerId>
    var majority: nat
    var ncMajority: nat
    var voted: set<PeerId>
    var ncVoted: set<PeerId>
    var votes: nat
    var ncVotes: nat
    ghost var oset: set<PeerId>
    ghost var nset: set<PeerId>
    // Who answered and who granted its vote since the voting started.
    ghost var asked: set<PeerId>
    ghost var granted: set<PeerId>

    // The ghost sets are the members of the clusters.
    ghost predicate Clusters()
      reads this`ocluster, this`ncluster, this`oset, this`nset
    {
      oset == Ids(ocluster) && nset == Ids(ncluster)
    }

    ghost predicate Valid()
      reads this`ocluster, this`ncluster, this`peers, this`majority, this`ncMajority, this`oset, this`nset
    {
      && Clusters() && |oset| == |ocluster| && |nset| == |ncluster|
      && Distinct(peers)
      && Ids(peers) == oset + nset - {peerId}
      && ocluster != [] && majority == MajorityOf(|ocluster|)
      && ncMajority == if ncluster == [] then 0 else MajorityOf(|ncluster|)
    }

    // The counters stand for the votes; not so after a replace in the middle of a voting.
    ghost predicate Counting()
      reads this
    {
      && Stands(oset, asked, granted, voted, votes)
      && Stands(nset, asked, granted, ncVoted, ncVotes)
    }

    ghost function Cfg(): Config
      reads this
    {
      Config(oset, nset)
    }

    predicate IsTransitional()
      reads this
    {
      ncMajority != 0
    }

    // What the program counts towards: in transition a majority of both clusters.
    ghost predicate Suffices(s: set<PeerId>)
      reads this
    {
      IsMajority(oset, s) && (IsTransitional() ==> IsMajority(nset, s))
    }

    constructor (me: PeerId, m: Membership)
      requires WellFormed(m)
      ensures Valid() && Counting() && peerId == me && asked == {} && granted == {}
      ensures Holds(m)
    {
      peerId := me;
      ocluster, ncluster, peers := [], [], [];
      majority, ncMajority := 0, 0;
      voted, ncVoted, votes, ncVotes := {}, {}, 0, 0;
      asked, granted, oset, nset := {}, {}, {}, {};
      new;
      var ok := Replace(m);
      VotingStart();
    }

    ghost predicate Holds(m: Membership)
      reads this
    {
      match m
      case Single(ps) => ocluster == ps && ncluster == [] && !IsTransitional()
      case Joint(before, after) => ocluster == before && ncluster == after && IsTransitional()
    }

    // The new membership, if it parses. What is rejected leaves everything as it was,
    // but a joint membership of which only the new cluster is malformed leaves its old
    // cluster, next to the majority and the peers of before.
    method Replace(m: Membership) returns (ok: bool)
      modifies this`ocluster, this`ncluster, this`oset, this`nset, this`peers, this`majority, this`ncMajority
      ensures ok <==> WellFormed(m)
      ensures ok ==> Valid() && Holds(m)
      ensures !ok ==>
                && majority == old(majority) && ncMajority == old(ncMajority) && peers == old(peers)
                && ncluster == old(ncluster) && nset == old(nset)
                && ocluster == (if m.Joint? && Parses(m.before) then m.before else old(ocluster))
      ensures !ok && old(Clusters()) ==> Clusters()
    {
      match m {
        case Single(ps) =>
          ok := ParsePeers(ps);
          if !ok { return; }
          SetClusters(ps, []);
          majority, ncMajority := |ps| / 2 + 1, 0;
        case Joint(before, after) =>
          ok := ParsePeers(before);
          if !ok { return; }
          ocluster, oset := before, Ids(before);
          ok := ParsePeers(after);
          if !ok { return; }
          SetClusters(before, after);
          majority, ncMajority := |before| / 2 + 1, |after| / 2 + 1;
      }
      UpdatePeers();
    }

    method SetClusters(before: seq<PeerId>, after: seq<PeerId>)
      requires Distinct(before) && Distinct(after)
      modifies this`ocluster, this`ncluster, this`oset, this`nset
      ensures ocluster == before && ncluster == after && Clusters()
      ensures |oset| == |ocluster| && |nset| == |ncluster|
    {
      DistinctCount(before);
      DistinctCount(after);
      ocluster, ncluster := before, after;
      oset, nset := Ids(before), Ids(after);
    }

    // mergeMaps of both clusters, in order and without repetition, and without this peer.
    method UpdatePeers()
      modifies this`peers
      ensures Distinct(peers) && Ids(peers) == Ids(ocluster) + Ids(ncluster) - {peerId}
    {
      peers := [];
      var all := ocluster + ncluster;
      for i := 0 to |all|
        invariant Distinct(peers) && Ids(peers) == Ids(all[..i]) - {peerId}
      {
        assert Ids(all[..i + 1]) == Ids(all[..i]) + {all[i]};
        if all[i] != peerId && all[i] !in peers {
          assert Ids(peers + [all[i]]) == Ids(peers) + {all[i]};
          peers := peers + [all[i]];
        }
      }
      assert all[..|all|] == all;
    }

    // A joint configuration to move through, unless already in one.
    method Join(ps: seq<PeerId>) returns (r: JoinResult)
      requires Valid()
      ensures r == if IsTransitional() then Refused
                   else if !Parses(ps) then Malformed
                   else if ps == ocluster then NoChange
                   else Joined(Joint(ocluster, ps))
    {
      if ncMajority != 0 { return Refused; }
      var ok := ParsePeers(ps);
      if !ok { return Malformed; }
      if |ocluster| == |ps| {
        var same, i := true, 0;
        while i < |ps| && same
          decreases |ps| - i, same
          invariant 0 <= i <= |ps|
          invariant same ==> ocluster[..i] == ps[..i]
          invariant !same ==> ocluster != ps
        {
          if ocluster[i] != ps[i] { same := false; } else { i := i + 1; }
        }
        if same { return NoChange; }
      }
      return Joined(Joint(ocluster, ps));
    }

    method VotingStart()
      modifies this`voted, this`ncVoted, this`votes, this`ncVotes, this`asked, this`granted
      ensures Counting() && asked == {} && granted == {}
    {
      voted, ncVoted, votes, ncVotes := {}, {}, 0, 0;
      asked, granted := {}, {};
      assert {} * oset == {} && {} * nset == {};
    }

    // Only the first answer of a peer counts, in each cluster it is a member of.
    method Vote(id: PeerId, voteGranted: bool)
      requires Clusters() && Counting()
      modifies this`voted, this`ncVoted, this`votes, this`ncVotes, this`asked, this`granted
      ensures Counting() && asked == old(asked) + {id}
      ensures granted == if voteGranted && id !in old(asked) then old(granted) + {id} else old(granted)
    {
      ghost var a := asked + {id};
      ghost var g := if voteGranted && id !in asked then granted + {id} else granted;
      var v, n := CountVote(ocluster, voted, votes, id, voteGranted, oset, asked, granted, a, g);
      var nv, nn := CountVote(ncluster, ncVoted, ncVotes, id, voteGranted, nset, asked, granted, a, g);
      voted, votes, ncVoted, ncVotes := v, n, nv, nn;
      asked, granted := a, g;
    }

    method MajorityHasVoted() returns (r: bool)
      requires Valid() && Counting()
      ensures r <==> Suffices(asked)
    {
      r := |voted| >= majority && |ncVoted| >= ncMajority;
    }

    method HasWonVoting() returns (r: bool)
      requires Valid() && Counting()
      ensures r <==> Suffices(granted)
    {
      r := votes >= majority && ncVotes >= ncMajority;
    }

    // The holders of an index: this peer, and whoever is known to have it.
    ghost function Holders(logIndex: nat, matchIndex: map<PeerId, nat>): set<PeerId> {
      {peerId} + set f | f in matchIndex && matchIndex[f] >= logIndex
    }

    // True exactly when the holders of the index suffice, although the loop stops
    // at the first peer that settles it.
    method MajorityHasLogIndex(logIndex: nat, matchIndex: map<PeerId, nat>) returns (r: bool)
      requires Valid()
      ensures r <==> Suffices(Holders(logIndex, matchIndex))
    {
      SufficesByCounters(Holders(logIndex, matchIndex));
      assert forall x :: x in peers ==> x in Ids(peers);
      r := EnoughHold(logIndex, matchIndex, peerId, peers, ocluster, ncluster, majority, ncMajority,
                      oset, nset, Holders(logIndex, matchIndex));
    }

    lemma SufficesByCounters(s: set<PeerId>)
      requires Valid()
      ensures Suffices(s) <==> |s * oset| >= majority && |s * nset| >= ncMajority
      ensures forall x :: (x in ocluster <==> x in oset) && (x in ncluster <==> x in nset)
      ensures oset <= {peerId} + Ids(peers) && nset <= {peerId} + Ids(peers)
    {
    }

    // What suffices is a quorum of the configuration.
    lemma SufficesIsQuorum(s: set<PeerId>)
      requires Valid()
      ensures Suffices(s) <==> IsQuorum(Cfg(), s)
    {
      if ncluster != [] { assert ncluster[0] in nset; }
    }

    // A configuration can always elect and commit: its members suffice together. It
    // takes members of both clusters when they share none.
    lemma EveryoneSuffices(s: set<PeerId>)
      requires Valid()
      ensures Suffices(oset + nset)
      ensures Suffices(s) ==> s * oset != {} && (IsTransitional() ==> s * nset != {})
    {
      assert (oset + nset) * oset == oset && (oset + nset) * nset == nset;
    }
  }

  // Replacing a single configuration by what join returned, and that in turn by
  // its new cluster alone, are both steps between neighbours: the quorums of each
  // two consecutive stages meet.
  lemma JoinKeepsQuorums(before: seq<PeerId>, after: seq<PeerId>, a: set<PeerId>, b: set<PeerId>, c: set<PeerId>)
    returns (x: PeerId, y: PeerId)
    requires Distinct(before) && Distinct(after) && after != []
    requires var joint := Config(Ids(before), Ids(after));
             && IsQuorum(Config(Ids(before), {}), a) && IsQuorum(joint, b) && IsQuorum(Config(Ids(after), {}), c)
    ensures x in a * b && x in before && y in b * c && y in after
  {
    assert after[0] in Ids(after);
    x := MajoritiesIntersect(Ids(before), a, b);
    y := MajoritiesIntersect(Ids(after), b, c);
  }
}
