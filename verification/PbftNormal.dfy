/** The normal case goes through: with a correct primary, whatever the size of the network and
    even if the faulty replicas stay silent, all correct replicas can execute a request. */
module PbftNormal {
  import opened Common
  import opened PbftQuorum
  import opened PbftCore
  import opened PbftSplit

  // Replica 0 is primary and replicas 0 to m - 1 are correct.
  ghost predicate Healthy(c: Config, m: nat) {
    && c.window >= 1 && c.primary == 0 && 0 < m <= c.n && c.faulty == Reps(m, c.n) && m >= IntersectionQuorum(c.n, c.f)
  }

  lemma IsCorrect(c: Config, m: nat, r: Rep)
    requires Healthy(c, m) && r < m
    ensures r in Correct(c) && r in Start(c).replicas && Start(c).replicas[r] == Untouched
  {
    assert Within(0, r, c.n) && !Within(m, r, c.n);
  }

  /** The request reaches the primary, which proposes it as number 1; in a network so small
      that no prepares are needed it commits at once. */
  lemma Propose(c: Config, m: nat, d: Digest) returns (ops: seq<Op>, s: State)
    requires Healthy(c, m) && d != NullDigest
    ensures Runs(c, Start(c), ops, s) && s.replicas.Keys == Correct(c) && (1, d) in s.prePrepares && Busy(s, 0, d)
    ensures var ct := Cert1(s, 0);
            ct.prePrepare == Some(d) && ct.prepare == map[] && ct.commit == map[] && (Backed(c, ct, d) ==> (1, d, 0) in s.commits)
    ensures NotTold(c, s, 1, m)
  {
    IsCorrect(c, m, 0);
    var op := Request(0, d);
    s := Step(c, Start(c), op);
    OneStep(c, Start(c), op);
    ops := [op];
    forall r: Rep | Within(1, r, m) ensures r in s.replicas && r != c.primary && s.replicas[r] == Untouched {
      IsCorrect(c, m, r);
    }
  }

  /** A correct replica with the pre-prepare, nothing else, and all prepares under way. */
  ghost predicate Informed(c: Config, s: State, i: Rep, d: Digest) {
    && Busy(s, i, d) && Cert1(s, i).prePrepare == Some(d) && Cert1(s, i).prepare == map[] && Cert1(s, i).commit == map[]
    && (Backed(c, Cert1(s, i), d) && i == 0 ==> (1, d, i) in s.commits)
  }

  ghost predicate AllInformed(c: Config, s: State, lo: nat, hi: nat, d: Digest) {
    forall r: Rep :: Within(lo, r, hi) ==> Informed(c, s, r, d)
  }

  lemma Inform(c: Config, m: nat, d: Digest) returns (ops: seq<Op>, s: State)
    requires Healthy(c, m) && d != NullDigest
    ensures Runs(c, Start(c), ops, s) && s.replicas.Keys == Correct(c) && AllInformed(c, s, 0, m, d) && Announced(s, 1, m, d)
  {
    var ops1, s1 := Propose(c, m, d);
    var ops2, s2 := Tell(c, s1, 1, m, d);
    RunsOn(c, Start(c), ops1, s1, ops2, s2);
    ops, s := ops1 + ops2, s2;
    forall r: Rep | Within(0, r, m) ensures Informed(c, s, r, d) {
      if r == 0 {
        assert !Within(1, 0, m) && s2.replicas[0] == s1.replicas[0];
      } else {
        assert Within(1, r, m);
      }
    }
  }

  /** It receives the prepares of all correct backups, and commits. */
  lemma PrepareOne(c: Config, m: nat, s: State, i: Rep, d: Digest) returns (ops: seq<Op>, s': State)
    requires Healthy(c, m) && i < m && Informed(c, s, i, d) && Announced(s, 1, m, d)
    ensures Runs(c, s, ops, s') && OnlyOne(s, s', i) && Poised(c, s', i, d) && (1, d, i) in s'.commits
  {
    forall r: Rep | 1 <= r < m ensures Awaited(c, s, Cert1(s, i), r, d) {
      assert Within(1, r, m);
    }
    ops, s' := Gather(c, s, i, 1, m, d);
    RepsCount(1, m);
    assert Voters(Cert1(s', i).prepare, d) == Reps(1, m);
  }

  ghost predicate AllPoisedFor(c: Config, s: State, lo: nat, hi: nat, d: Digest) {
    forall r: Rep :: Within(lo, r, hi) ==> Poised(c, s, r, d)
  }

  ghost predicate AllSent(s: State, lo: nat, hi: nat, d: Digest) {
    forall r: Rep :: Within(lo, r, hi) ==> (1, d, r) in s.commits
  }

  lemma InformedStays(c: Config, s: State, s': State, i: Rep, r: Rep, d: Digest)
    requires OnlyOne(s, s', i) && r != i && Informed(c, s, r, d)
    ensures Informed(c, s', r, d)
  {
    assert s'.replicas[r] == s.replicas[r];
  }

  lemma {:induction false} PrepareAll(c: Config, m: nat, s: State, lo: nat, d: Digest) returns (ops: seq<Op>, s': State)
    requires Healthy(c, m) && lo <= m && Announced(s, 1, m, d)
    requires AllPoisedFor(c, s, 0, lo, d) && AllSent(s, 0, lo, d) && AllInformed(c, s, lo, m, d)
    ensures Runs(c, s, ops, s') && s'.replicas.Keys == s.replicas.Keys && AllPoisedFor(c, s', 0, m, d) && AllSent(s', 0, m, d)
    decreases m - lo
  {
    if lo == m {
      ops, s' := [], s;
    } else {
      assert Within(lo, lo, m);
      var ops1, mid := PrepareOne(c, m, s, lo, d);
      forall r: Rep | Within(0, r, lo + 1) ensures Poised(c, mid, r, d) && (1, d, r) in mid.commits {
        if r < lo {
          assert Within(0, r, lo);
          PoisedStays(c, s, mid, lo, r, d);
        }
      }
      forall r: Rep | Within(lo + 1, r, m) ensures Informed(c, mid, r, d) {
        assert Within(lo, r, m);
        InformedStays(c, s, mid, lo, r, d);
      }
      var more;
      more, s' := PrepareAll(c, m, mid, lo + 1, d);
      RunsOn(c, s, ops1, mid, more, s');
      ops := ops1 + more;
    }
  }

  /** It counts the commits of all correct replicas, and executes. */
  lemma ExecuteHere(c: Config, m: nat, s: State, i: Rep, d: Digest) returns (ops: seq<Op>, s': State)
    requires Healthy(c, m) && Poised(c, s, i, d) && AllSent(s, 0, m, d)
    ensures Runs(c, s, ops, s') && OnlyOne(s, s', i) && s'.commits == s.commits && s'.replicas[i].executed == [d]
  {
    forall r: Rep | 0 <= r < m ensures CommitAwaited(c, s, Cert1(s, i), r, d) {
      assert Within(0, r, m);
    }
    var ops1, s1 := Count(c, s, i, 0, m, d);
    EnoughCommits(c, m, s, s1, i, d);
    var op;
    op, s' := ExecuteFirst(c, s1, i, d);
    RunsOn(c, s, ops1, s1, [op], s');
    OnlyOneTwice(s, s1, s', i);
    ops := ops1 + [op];
  }

  ghost predicate AllExecuted(s: State, lo: nat, hi: nat, d: Digest) {
    forall r: Rep :: Within(lo, r, hi) ==> r in s.replicas && s.replicas[r].executed == [d]
  }

  lemma {:induction false} ExecuteAll(c: Config, m: nat, s: State, lo: nat, d: Digest) returns (ops: seq<Op>, s': State)
    requires Healthy(c, m) && lo <= m && AllSent(s, 0, m, d)
    requires AllExecuted(s, 0, lo, d) && AllPoisedFor(c, s, lo, m, d)
    ensures Runs(c, s, ops, s') && s'.replicas.Keys == s.replicas.Keys && AllExecuted(s', 0, m, d)
    decreases m - lo
  {
    if lo == m {
      ops, s' := [], s;
    } else {
      assert Within(lo, lo, m);
      var ops1, mid := ExecuteHere(c, m, s, lo, d);
      forall r: Rep | Within(0, r, lo + 1) ensures r in mid.replicas && mid.replicas[r].executed == [d] {
        assert r != lo ==> Within(0, r, lo);
      }
      forall r: Rep | Within(lo + 1, r, m) ensures Poised(c, mid, r, d) {
        assert Within(lo, r, m);
        PoisedStays(c, s, mid, lo, r, d);
      }
      var more;
      more, s' := ExecuteAll(c, m, mid, lo + 1, d);
      RunsOn(c, s, ops1, mid, more, s');
      ops := ops1 + more;
    }
  }

  lemma HealthyConfig(n: nat, f: nat, window: nat) returns (c: Config)
    requires n >= 3 * f + 1 && window >= 1
    ensures c.n == n && c.f == f && c.window == window && ValidConfig(c) && |c.faulty| == f && Healthy(c, n - f)
    ensures Correct(c) == Reps(0, n - f)
  {
    c := Config(n, f, window, 0, Reps(n - f, n));
    RepsCount(n - f, n);
    forall r: Rep ensures r in Correct(c) <==> r in Reps(0, n - f) {
      assert Within(0, r, n) <==> r < n;
    }
  }

  /** For every network that may be configured and every request: with f silent replicas there
      is a run after which every correct replica has executed the request as number 1. */
  lemma RequestsGetExecuted(n: nat, f: nat, window: nat, d: Digest) returns (c: Config, ops: seq<Op>, s: State)
    requires n >= 3 * f + 1 && window >= 1 && d != NullDigest
    ensures c.n == n && c.f == f && c.window == window && ValidConfig(c) && |c.faulty| == f && Runs(c, Start(c), ops, s)
    ensures s.replicas.Keys == Correct(c) && forall r :: r in s.replicas ==> s.replicas[r].executed == [d]
  {
    c := HealthyConfig(n, f, window);
    var m := n - f;
    var ops1, s1 := Inform(c, m, d);
    var ops2, s2 := PrepareAll(c, m, s1, 0, d);
    RunsOn(c, Start(c), ops1, s1, ops2, s2);
    var ops3, s3 := ExecuteAll(c, m, s2, 0, d);
    RunsOn(c, Start(c), ops1 + ops2, s2, ops3, s3);
    ops, s := ops1 + ops2 + ops3, s3;
    forall r | r in s.replicas ensures s.replicas[r].executed == [d] {
      assert r in Reps(0, m);
    }
  }
}
