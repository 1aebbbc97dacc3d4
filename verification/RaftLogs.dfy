// What the history part of the invariant already says about logs: log matching,
// leader completeness, and that everything committed lies on one line.
module RaftLogs {
  import opened Wrappers
  import opened Quorum
  import opened RaftPeer
  import opened RaftSystem
  import opened RaftInvariant

  lemma TermBound(cfg: Config, h: History, t: nat, k: nat)
    requires HistoryOk(cfg, h) && t in h.terms && k < |h.terms[t].log|
    ensures h.terms[t].log[k].term <= t
  {
    assert TermOk(cfg, h, t, h.terms[t]);
  }

  lemma TermBounds(cfg: Config, h: History, t: nat, x: Log)
    requires HistoryOk(cfg, h) && t in h.terms && x <= h.terms[t].log
    ensures forall i :: 0 <= i < |x| ==> x[i].term <= t
  {
    forall i | 0 <= i < |x| ensures x[i].term <= t { TermBound(cfg, h, t, i); }
  }

  // Terms never decrease along a log.
  lemma TermsMonotone(cfg: Config, h: History, log: Log, j: nat, k: nat)
    requires HistoryOk(cfg, h) && Rooted(h, log) && j <= k < |log|
    ensures log[j].term <= log[k].term
  {
    assert RootedAt(h, log, k);
    var r := h.terms[log[k].term];
    assert log[..k + 1][j] == r.log[..k + 1][j];
    TermBound(cfg, h, log[k].term, j);
  }

  // Log matching: the same term at an index makes two logs identical up to it.
  lemma LogsMatch(h: History, a: Log, b: Log, index: nat)
    requires Rooted(h, a) && Rooted(h, b)
    requires TermAt(a, index).Some? && TermAt(a, index) == TermAt(b, index)
    ensures Agree(a, b, index)
  {
    if index > 0 {
      assert RootedAt(h, a, index - 1) && RootedAt(h, b, index - 1);
    }
  }

  lemma AgreeDown(a: Log, b: Log, j: nat, k: nat)
    requires Agree(a, b, k) && j <= k
    ensures Agree(a, b, j)
  {
    assert a[..j] == a[..k][..j] && b[..j] == b[..k][..j];
  }

  lemma AgreeAt(a: Log, b: Log, j: nat, i: nat)
    requires Agree(a, b, j) && i < j
    ensures a[i] == b[i]
  {
    assert a[..j][i] == b[..j][i];
  }

  lemma AgreeTerm(a: Log, b: Log, j: nat)
    requires Agree(a, b, j)
    ensures TermAt(a, j) == TermAt(b, j)
  {
    if j > 0 { AgreeAt(a, b, j, j - 1); }
  }

  lemma PrefixOfBoth(x: Log, y: Log, z: Log)
    requires x <= z && y <= z
    ensures x <= y || y <= x
  {
    if |x| <= |y| {
      assert x == z[..|x|] == y[..|x|];
    } else {
      assert y == z[..|y|] == x[..|y|];
    }
  }

  lemma RootedPrefix(h: History, log: Log, x: Log)
    requires Rooted(h, log) && x <= log
    ensures Rooted(h, x)
  {
    forall k | 0 <= k < |x| ensures RootedAt(h, x, k) {
      assert RootedAt(h, log, k);
      assert x[..k + 1] == log[..k + 1];
    }
  }

  // A log is a prefix of the log of its last entry's term.
  lemma RootedLast(h: History, log: Log)
    requires Rooted(h, log) && log != []
    ensures LastTerm(log) in h.terms && log <= h.terms[LastTerm(log)].log
  {
    assert RootedAt(h, log, |log| - 1);
    assert log == log[..|log|];
  }

  // The election of a term, taken apart.
  lemma Elected(cfg: Config, h: History, u: nat, f: PeerId) returns (c: Log, v: Log)
    requires HistoryOk(cfg, h) && u in h.terms && f in h.terms[u].voters
    ensures c <= h.terms[u].log && Rooted(h, c) && (c != [] ==> LastTerm(c) < u)
    ensures Rooted(h, v) && UpToDate(|c|, LastTerm(c), v) && Keeps(h, f, v, u, u)
  {
    var r := h.terms[u];
    assert TermOk(cfg, h, u, r);
    c := r.log[..r.base];
    assert VotedFor(h, f, u, r.leader, c);
    v := h.votes[Key(f, u)].log;
    assert VoteOk(cfg, h, Key(f, u), h.votes[Key(f, u)]);
    RootedPrefix(h, r.log, c);
    if c != [] { assert c[|c| - 1] == r.log[r.base - 1]; }
  }

  // A candidate at least as up to date as a voter that has x has x too.
  lemma CandidateCovers(x: Log, v: Log, c: Log, last: Log, t: nat)
    requires x != [] && x <= v && LastTerm(v) >= t
    requires forall i :: 0 <= i < |x| ==> x[i].term <= t
    requires UpToDate(|c|, LastTerm(c), v)
    requires c <= last && (LastTerm(c) == LastTerm(v) ==> v <= last) && (LastTerm(c) > t ==> x <= last)
    requires c != []
    ensures x <= c
  {
    if LastTerm(c) > t {
      assert forall i :: 0 <= i < |x| ==> last[i].term <= t;
      PrefixOfBoth(x, c, last);
    } else {
      PrefixOfBoth(v, c, last);
    }
  }

  // The winner of an election in a later term has everything that a quorum
  // accepted in term t, provided an entry of term t itself closes it.
  lemma {:induction false} LeaderCompleteness(cfg: Config, h: History, t: nat, k: nat, u: nat)
    requires HistoryOk(cfg, h) && Chosen(cfg, h, t, k) && u in h.terms && t < u
    ensures h.terms[t].log[..k] <= h.terms[u].log
    decreases u, 1
  {
    CarriedTo(cfg, h, t, k, u);
    var f := ChooserAndVoter(cfg, h, t, k, u);
    var c, v := Elected(cfg, h, u, f);
    assert KeepsPremise(h, f, u, u, t, k);
    LeaderHas(cfg, h, t, k, u, c, v);
  }

  lemma {:induction false} CarriedTo(cfg: Config, h: History, t: nat, k: nat, u: nat)
    requires HistoryOk(cfg, h) && Chosen(cfg, h, t, k)
    ensures Carried(h, h.terms[t].log[..k], t, u)
    decreases u, 0
  {
    forall w | w in h.terms && t < w < u ensures h.terms[t].log[..k] <= h.terms[w].log {
      LeaderCompleteness(cfg, h, t, k, w);
    }
  }

  lemma ChooserAndVoter(cfg: Config, h: History, t: nat, k: nat, u: nat) returns (f: PeerId)
    requires HistoryOk(cfg, h) && u in h.terms && Chosen(cfg, h, t, k)
    ensures f in h.terms[u].voters && Key(f, t) in h.acc && h.acc[Key(f, t)] >= k
  {
    assert TermOk(cfg, h, u, h.terms[u]);
    var q :| IsQuorum(cfg, q) && AcceptedBy(h, q, t, k);
    f := QuorumsIntersect(cfg, q, h.terms[u].voters);
  }

  lemma LeaderHas(cfg: Config, h: History, t: nat, k: nat, u: nat, c: Log, v: Log)
    requires HistoryOk(cfg, h) && t in h.terms && 0 < k <= |h.terms[t].log| && h.terms[t].log[k - 1].term == t
    requires t < u && u in h.terms && c <= h.terms[u].log && (c != [] ==> LastTerm(c) < u)
    requires Rooted(h, c) && Rooted(h, v) && UpToDate(|c|, LastTerm(c), v)
    requires h.terms[t].log[..k] <= v && Carried(h, h.terms[t].log[..k], t, u)
    ensures h.terms[t].log[..k] <= h.terms[u].log
  {
    var x := h.terms[t].log[..k];
    assert v[k - 1] == x[k - 1];
    TermsMonotone(cfg, h, v, k - 1, |v| - 1);
    assert t > 0 by { assert TermOk(cfg, h, t, h.terms[t]); }
    assert c != [];
    RootedLast(h, c);
    RootedLast(h, v);
    TermBounds(cfg, h, t, x);
    CandidateCovers(x, v, c, h.terms[LastTerm(c)].log, t);
  }

  lemma ChosenInLeader(cfg: Config, h: History, x: Log, t: nat, k: nat, u: nat)
    requires HistoryOk(cfg, h) && ChosenCovers(cfg, h, x, t, k) && t <= u && u in h.terms
    ensures x <= h.terms[u].log
  {
    if t < u {
      LeaderCompleteness(cfg, h, t, k, u);
      assert x <= h.terms[t].log[..k];
    }
  }

  // What is committed up to some term is in the log of every leader from that term on.
  lemma CommittedInLeader(cfg: Config, h: History, x: Log, bound: nat, u: nat)
    requires HistoryOk(cfg, h) && Committed(cfg, h, x, bound) && bound <= u && u in h.terms
    ensures x <= h.terms[u].log
  {
    if x != [] {
      var t: nat, k: nat :| t <= bound && ChosenCovers(cfg, h, x, t, k);
      ChosenInLeader(cfg, h, x, t, k, u);
    }
  }

  // Everything committed anywhere lies on one line.
  lemma CommittedComparable(cfg: Config, h: History, x: Log, a: nat, y: Log, b: nat)
    requires HistoryOk(cfg, h) && Committed(cfg, h, x, a) && Committed(cfg, h, y, b)
    ensures x <= y || y <= x
  {
    if x != [] && y != [] {
      var t: nat, k: nat :| t <= a && ChosenCovers(cfg, h, x, t, k);
      var u: nat, l: nat :| u <= b && ChosenCovers(cfg, h, y, u, l);
      var m := if t < u then u else t;
      ChosenInLeader(cfg, h, x, t, k, m);
      ChosenInLeader(cfg, h, y, u, l, m);
      PrefixOfBoth(x, y, h.terms[m].log);
    }
  }

  lemma CommittedPrefix(cfg: Config, h: History, x: Log, y: Log, bound: nat)
    requires Committed(cfg, h, y, bound) && x <= y
    ensures Committed(cfg, h, x, bound)
  {
    if x != [] {
      var t: nat, k: nat :| t <= bound && ChosenCovers(cfg, h, y, t, k);
      assert ChosenCovers(cfg, h, x, t, k);
    }
  }
}
