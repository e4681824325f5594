/** With f >= 1 and n + f even, a faulty primary can have correct replicas execute different
    requests for one number. */
module PbftSplit {
  import opened Common
  import opened PbftQuorum
  import opened PbftCore

  lemma {:induction false} RunsOn(c: Config, s: State, ops: seq<Op>, mid: State, more: seq<Op>, s': State)
    requires Runs(c, s, ops, mid) && Runs(c, mid, more, s')
    ensures Runs(c, s, ops + more, s')
    decreases |ops|
  {
    if ops == [] {
      assert ops + more == more;
    } else {
      assert (ops + more)[1..] == ops[1..] + more;
      RunsOn(c, Step(c, s, ops[0]), ops[1..], mid, more, s');
    }
  }

  lemma OneStep(c: Config, s: State, op: Op)
    requires Enabled(c, s, op)
    ensures Runs(c, s, [op], Step(c, s, op))
  {
    assert [op][1..] == [];
  }

  function Cert1(s: State, i: Rep): Cert
    requires i in s.replicas
  {
    GetCert(s.replicas[i], 1)
  }

  /** Everybody but i is as before. */
  ghost predicate OnlyOne(s: State, s': State, i: Rep) {
    && s'.replicas.Keys == s.replicas.Keys && s'.prepares == s.prepares && s.commits <= s'.commits
    && forall o: Rep :: o in s.replicas && o != i ==> s'.replicas[o] == s.replicas[o]
  }

  // ---------------------------------------------------------------- telling

  /** A replica that has been told request d, and nothing else. */
  function Told(d: Digest): Replica {
    Replica(0, {d}, map[1 := EmptyCert.(prePrepare := Some(d), sentPrepare := true)], [])
  }

  const Untouched := Replica(0, {}, map[], [])

  lemma TellOne(c: Config, s: State, r: Rep, d: Digest) returns (op: Op, s': State)
    requires (c.primary in c.faulty || (1, d) in s.prePrepares) && c.window >= 1 && d != NullDigest
    requires r in s.replicas && r != c.primary && s.replicas[r] == Untouched
    ensures Runs(c, s, [op], s') && s'.replicas == s.replicas[r := Told(d)] && s'.prepares == s.prepares + {(1, d, r)}
    ensures s'.prePrepares == s.prePrepares && s'.commits == s.commits
  {
    op := DeliverPrePrepare(r, 1, d, true);
    s' := Step(c, s, op);
    OneStep(c, s, op);
    assert {} + {d} == {d};
  }

  ghost predicate NotTold(c: Config, s: State, lo: nat, hi: nat) {
    forall r: Rep :: Within(lo, r, hi) ==> r in s.replicas && r != c.primary && s.replicas[r] == Untouched
  }

  /** The replicas of the range hold what they were told, and have announced it. */
  ghost predicate HasBeenTold(s: State, lo: nat, hi: nat, d: Digest) {
    forall r: Rep :: Within(lo, r, hi) ==> r in s.replicas && s.replicas[r] == Told(d)
  }

  ghost predicate Announced(s: State, lo: nat, hi: nat, d: Digest) {
    forall r: Rep :: Within(lo, r, hi) ==> (1, d, r) in s.prepares
  }

  ghost predicate OthersStay(s: State, s': State, lo: nat, hi: nat) {
    && s'.replicas.Keys == s.replicas.Keys && s.prepares <= s'.prepares
    && s'.prePrepares == s.prePrepares && s'.commits == s.commits
    && forall r: Rep :: r in s.replicas && !Within(lo, r, hi) ==> s'.replicas[r] == s.replicas[r]
  }

  lemma ToldBoth(c: Config, s: State, mid: State, s': State, lo: nat, hi: nat, d: Digest)
    requires lo < hi && NotTold(c, s, lo, hi)
    requires mid.replicas == s.replicas[lo := Told(d)] && mid.prepares == s.prepares + {(1, d, lo)}
    requires mid.prePrepares == s.prePrepares && mid.commits == s.commits
    requires OthersStay(mid, s', lo + 1, hi) && HasBeenTold(s', lo + 1, hi, d) && Announced(s', lo + 1, hi, d)
    ensures OthersStay(s, s', lo, hi) && HasBeenTold(s', lo, hi, d) && Announced(s', lo, hi, d)
  {
    assert Within(lo, lo, hi) && !Within(lo + 1, lo, hi);
    forall r: Rep | Within(lo, r, hi) ensures r in s'.replicas && s'.replicas[r] == Told(d) && (1, d, r) in s'.prepares {
      assert r == lo || Within(lo + 1, r, hi);
    }
    forall r: Rep | r in s.replicas && !Within(lo, r, hi) ensures s'.replicas[r] == s.replicas[r] {
      assert !Within(lo + 1, r, hi);
    }
  }

  /** The primary, faulty or bound by what it has proposed, tells the replicas of a range that
      number 1 is request d. */
  lemma {:induction false} Tell(c: Config, s: State, lo: nat, hi: nat, d: Digest) returns (ops: seq<Op>, s': State)
    requires (c.primary in c.faulty || (1, d) in s.prePrepares) && c.window >= 1 && lo <= hi && d != NullDigest
    requires NotTold(c, s, lo, hi)
    ensures Runs(c, s, ops, s') && OthersStay(s, s', lo, hi) && HasBeenTold(s', lo, hi, d) && Announced(s', lo, hi, d)
    decreases hi - lo
  {
    if lo == hi {
      ops, s' := [], s;
    } else {
      assert Within(lo, lo, hi);
      var op, mid := TellOne(c, s, lo, d);
      forall r: Rep | Within(lo + 1, r, hi) ensures r in mid.replicas && r != c.primary && mid.replicas[r] == Untouched {
        assert Within(lo, r, hi);
      }
      var more;
      more, s' := Tell(c, mid, lo + 1, hi, d);
      RunsOn(c, s, [op], mid, more, s');
      ToldBoth(c, s, mid, s', lo, hi, d);
      ops := [op] + more;
    }
  }

  // ---------------------------------------------------------------- preparing

  /** A prepare for request d that a replica has not had is under way. */
  predicate Awaited(c: Config, s: State, ct: Cert, r: Rep, d: Digest) {
    r < c.n && r != c.primary && r !in ct.prepare && (r in c.faulty || (1, d, r) in s.prepares)
  }

  /** A replica knows the request, has executed nothing, and has told of its commit if it
      has sent one. */
  predicate Busy(s: State, i: Rep, d: Digest) {
    i in s.replicas && d in s.replicas[i].reqStore && s.replicas[i].executed == [] &&
    (Cert1(s, i).sentCommit ==> (1, d, i) in s.commits)
  }

  lemma GatherOne(c: Config, s: State, i: Rep, r: Rep, d: Digest) returns (s': State)
    requires c.window >= 1 && Busy(s, i, d) && Awaited(c, s, Cert1(s, i), r, d)
    ensures Runs(c, s, [DeliverPrepare(i, 1, d, r)], s') && OnlyOne(s, s', i) && Busy(s', i, d)
    ensures var ct, ct' := Cert1(s, i), Cert1(s', i);
            && ct'.prePrepare == ct.prePrepare && ct'.prepare == ct.prepare[r := d] && ct'.commit == ct.commit
            && (Backed(c, ct', d) ==> (1, d, i) in s'.commits)
  {
    var op := DeliverPrepare(i, 1, d, r);
    s' := Step(c, s, op);
    OneStep(c, s, op);
  }

  /** Replica i has had the prepares of a range for request d, and committed when they made
      its certificate. */
  ghost predicate Gathered(c: Config, s: State, s': State, i: Rep, lo: nat, hi: nat, d: Digest)
    requires i in s.replicas && i in s'.replicas
  {
    var ct, ct' := Cert1(s, i), Cert1(s', i);
    && ct'.prePrepare == ct.prePrepare && ct'.commit == ct.commit
    && Voters(ct'.prepare, d) == Voters(ct.prepare, d) + Reps(lo, hi)
    && ct'.prepare.Keys == ct.prepare.Keys + Reps(lo, hi)
    && (lo < hi && Backed(c, ct', d) ==> (1, d, i) in s'.commits)
  }

  lemma GatheredNone(c: Config, s: State, i: Rep, lo: nat, d: Digest)
    requires i in s.replicas
    ensures Gathered(c, s, s, i, lo, lo, d)
  {
    assert Reps(lo, lo) == {};
  }

  lemma GatheredOne(c: Config, s: State, mid: State, i: Rep, r: Rep, d: Digest)
    requires i in s.replicas && i in mid.replicas && r !in Cert1(s, i).prepare
    requires var ct, ct' := Cert1(s, i), Cert1(mid, i);
             && ct'.prePrepare == ct.prePrepare && ct'.prepare == ct.prepare[r := d] && ct'.commit == ct.commit
             && (Backed(c, ct', d) ==> (1, d, i) in mid.commits)
    ensures Gathered(c, s, mid, i, r, r + 1, d)
  {
    VotersPlus(Cert1(s, i).prepare, r, d);
    assert Reps(r, r + 1) == {r};
  }

  lemma GatheredBoth(c: Config, s: State, mid: State, s': State, i: Rep, lo: nat, hi: nat, d: Digest)
    requires lo < hi && i in s.replicas && i in mid.replicas && i in s'.replicas && mid.commits <= s'.commits
    requires Gathered(c, s, mid, i, lo, lo + 1, d) && Gathered(c, mid, s', i, lo + 1, hi, d)
    requires lo + 1 == hi ==> s' == mid
    ensures Gathered(c, s, s', i, lo, hi, d)
  {
    assert Reps(lo, hi) == Reps(lo, lo + 1) + Reps(lo + 1, hi);
  }

  lemma StillAwaited(c: Config, s: State, mid: State, i: Rep, lo: nat, hi: nat, d: Digest)
    requires i in s.replicas && OnlyOne(s, mid, i) && Cert1(mid, i).prepare == Cert1(s, i).prepare[lo := d]
    requires forall r: Rep :: lo <= r < hi ==> Awaited(c, s, Cert1(s, i), r, d)
    ensures forall r: Rep :: lo + 1 <= r < hi ==> Awaited(c, mid, Cert1(mid, i), r, d)
  {
    forall r: Rep | lo + 1 <= r < hi ensures Awaited(c, mid, Cert1(mid, i), r, d) {
      assert Awaited(c, s, Cert1(s, i), r, d);
    }
  }

  lemma OnlyOneTwice(s: State, mid: State, s': State, i: Rep)
    requires OnlyOne(s, mid, i) && OnlyOne(mid, s', i)
    ensures OnlyOne(s, s', i)
  {
  }

  lemma {:induction false} Gather(c: Config, s: State, i: Rep, lo: nat, hi: nat, d: Digest) returns (ops: seq<Op>, s': State)
    requires c.window >= 1 && lo <= hi && Busy(s, i, d)
    requires forall r: Rep :: lo <= r < hi ==> Awaited(c, s, Cert1(s, i), r, d)
    ensures Runs(c, s, ops, s') && OnlyOne(s, s', i) && Busy(s', i, d) && Gathered(c, s, s', i, lo, hi, d)
    ensures lo == hi ==> s' == s
    decreases hi - lo
  {
    if lo == hi {
      ops, s' := [], s;
      GatheredNone(c, s, i, lo, d);
    } else {
      var op := DeliverPrepare(i, 1, d, lo);
      assert Awaited(c, s, Cert1(s, i), lo, d);
      var mid := GatherOne(c, s, i, lo, d);
      GatheredOne(c, s, mid, i, lo, d);
      StillAwaited(c, s, mid, i, lo, hi, d);
      var more;
      more, s' := Gather(c, mid, i, lo + 1, hi, d);
      RunsOn(c, s, [op], mid, more, s');
      OnlyOneTwice(s, mid, s', i);
      GatheredBoth(c, s, mid, s', i, lo, hi, d);
      ops := [op] + more;
    }
  }

  lemma VotersPlus(votes: map<Rep, Digest>, r: Rep, d: Digest)
    requires r !in votes
    ensures Voters(votes[r := d], d) == Voters(votes, d) + {r}
  {
  }

  // ---------------------------------------------------------------- the plan

  // Replicas 0 to f - 1 are faulty and 0 is primary; replicas up to q are told request 1,
  // the others request 2.
  ghost predicate Plan(c: Config, q: nat) {
    && c.window >= 1 && c.primary == 0 && c.f >= 1 && c.faulty == Reps(0, c.f) && c.f < q < c.n
    && q == IntersectionQuorum(c.n, c.f) && c.f + c.n - q >= q
  }

  lemma TellBoth(c: Config, q: nat) returns (ops: seq<Op>, s: State)
    requires Plan(c, q)
    ensures Runs(c, Start(c), ops, s) && s.replicas.Keys == Correct(c)
    ensures HasBeenTold(s, c.f, q, 1) && HasBeenTold(s, q, c.n, 2)
    ensures Announced(s, c.f, q, 1) && Announced(s, q, c.n, 2)
  {
    assert 0 in Reps(0, c.f);
    forall r: Rep | Within(c.f, r, c.n) ensures r in Correct(c) && r != 0 {
      assert Within(0, r, c.n);
    }
    var ops1, s1 := Tell(c, Start(c), c.f, q, 1);
    forall r: Rep | Within(q, r, c.n) ensures r in s1.replicas && s1.replicas[r] == Untouched {
      assert Within(c.f, r, c.n) && !Within(c.f, r, q);
    }
    var ops2, s2 := Tell(c, s1, q, c.n, 2);
    RunsOn(c, Start(c), ops1, s1, ops2, s2);
    StayTold(s1, s2, c.f, q, c.n, 1);
    ops, s := ops1 + ops2, s2;
  }

  lemma StayTold(s: State, s': State, lo: nat, mid: nat, hi: nat, d: Digest)
    requires HasBeenTold(s, lo, mid, d) && Announced(s, lo, mid, d) && OthersStay(s, s', mid, hi)
    ensures HasBeenTold(s', lo, mid, d) && Announced(s', lo, mid, d)
  {
    forall r: Rep | Within(lo, r, mid) ensures r in s'.replicas && s'.replicas[r] == Told(d) {
      assert !Within(mid, r, hi);
    }
  }

  /** One replica of the first half gathers its prepares, and so commits to request 1. */
  lemma PrepareOne(c: Config, q: nat, s: State, i: Rep) returns (ops: seq<Op>, s': State)
    requires Plan(c, q) && c.f <= i < q && i in s.replicas && s.replicas[i] == Told(1) && Announced(s, c.f, q, 1)
    ensures Runs(c, s, ops, s') && OnlyOne(s, s', i) && Busy(s', i, 1) && (1, 1, i) in s'.commits
    ensures Backed(c, Cert1(s', i), 1) && Cert1(s', i).commit == map[]
  {
    forall r: Rep | 1 <= r < q ensures Awaited(c, s, Cert1(s, i), r, 1) {
      assert Within(0, r, c.f) || Within(c.f, r, q);
    }
    ops, s' := Gather(c, s, i, 1, q, 1);
    RepsCount(1, q);
    assert Voters(Cert1(s', i).prepare, 1) == Reps(1, q);
  }

  /** The prepares of one replica of the second half: those of the faulty and of its half. */
  lemma PrepareOther(c: Config, q: nat, s: State, j: Rep) returns (ops: seq<Op>, s': State)
    requires Plan(c, q) && q <= j < c.n && j in s.replicas && s.replicas[j] == Told(2) && Announced(s, q, c.n, 2)
    ensures Runs(c, s, ops, s') && OnlyOne(s, s', j) && Busy(s', j, 2)
    ensures Backed(c, Cert1(s', j), 2) && Cert1(s', j).commit == map[]
  {
    forall r: Rep | 1 <= r < c.f ensures Awaited(c, s, Cert1(s, j), r, 2) {
      assert Within(0, r, c.f);
    }
    var ops1, s1 := Gather(c, s, j, 1, c.f, 2);
    forall r: Rep | q <= r < c.n ensures Awaited(c, s1, Cert1(s1, j), r, 2) {
      assert Within(q, r, c.n) && r !in Reps(1, c.f);
    }
    var ops2;
    ops2, s' := Gather(c, s1, j, q, c.n, 2);
    RunsOn(c, s, ops1, s1, ops2, s');
    OnlyOneTwice(s, s1, s', j);
    ops := ops1 + ops2;
    RepsCount(1, c.f);
    RepsCount(q, c.n);
    assert Voters(Cert1(s', j).prepare, 2) == Reps(1, c.f) + Reps(q, c.n);
    assert Reps(1, c.f) !! Reps(q, c.n);
  }

  /** A replica that has prepared request d and had no commit yet. */
  ghost predicate Poised(c: Config, s: State, i: Rep, d: Digest) {
    Busy(s, i, d) && Backed(c, Cert1(s, i), d) && Cert1(s, i).commit == map[]
  }

  ghost predicate AllPoised(c: Config, s: State, lo: nat, hi: nat) {
    forall r: Rep :: lo <= r < hi ==> Poised(c, s, r, 1) && (1, 1, r) in s.commits
  }

  lemma PoisedStays(c: Config, s: State, s': State, i: Rep, o: Rep, d: Digest)
    requires OnlyOne(s, s', i) && o != i && Poised(c, s, o, d)
    ensures Poised(c, s', o, d)
  {
    assert s'.replicas[o] == s.replicas[o];
  }

  lemma TheRestStays(s: State, mid: State, lo: nat, q: nat, n: nat)
    requires lo < q && OnlyOne(s, mid, lo) && HasBeenTold(s, lo, q, 1) && HasBeenTold(s, q, n, 2)
    ensures HasBeenTold(mid, lo + 1, q, 1) && HasBeenTold(mid, q, n, 2)
  {
    forall r: Rep | Within(lo + 1, r, q) ensures r in mid.replicas && mid.replicas[r] == Told(1) {
      assert Within(lo, r, q);
    }
    forall r: Rep | Within(q, r, n) ensures r in mid.replicas && mid.replicas[r] == Told(2) {
      assert r != lo;
    }
  }

  /** So does the whole first half, one replica after the other. */
  lemma {:induction false} PrepareHalf(c: Config, q: nat, s: State, lo: nat) returns (ops: seq<Op>, s': State)
    requires Plan(c, q) && c.f <= lo <= q && AllPoised(c, s, c.f, lo) && HasBeenTold(s, lo, q, 1)
    requires HasBeenTold(s, q, c.n, 2) && Announced(s, c.f, q, 1) && Announced(s, q, c.n, 2)
    ensures Runs(c, s, ops, s') && s'.replicas.Keys == s.replicas.Keys && AllPoised(c, s', c.f, q)
    ensures HasBeenTold(s', q, c.n, 2) && Announced(s', q, c.n, 2)
    decreases q - lo
  {
    if lo == q {
      ops, s' := [], s;
    } else {
      assert Within(lo, lo, q);
      var ops1, mid := PrepareOne(c, q, s, lo);
      TheRestStays(s, mid, lo, q, c.n);
      forall r: Rep | c.f <= r < lo + 1 ensures Poised(c, mid, r, 1) && (1, 1, r) in mid.commits {
        if r < lo {
          PoisedStays(c, s, mid, lo, r, 1);
        }
      }
      var more;
      more, s' := PrepareHalf(c, q, mid, lo + 1);
      RunsOn(c, s, ops1, mid, more, s');
      ops := ops1 + more;
    }
  }

  // ---------------------------------------------------------------- committing

  /** A commit that a replica has not had is under way, whatever it names. */
  predicate CommitAwaited(c: Config, s: State, ct: Cert, r: Rep, e: Digest) {
    r < c.n && r !in ct.commit && (r in c.faulty || (1, e, r) in s.commits)
  }

  /** Replica i has had commits of a range; nothing else has changed. */
  ghost predicate Counted(s: State, s': State, i: Rep, lo: nat, hi: nat) {
    && OnlyOne(s, s', i) && i in s.replicas && s'.commits == s.commits
    && s'.replicas[i].reqStore == s.replicas[i].reqStore && s'.replicas[i].executed == s.replicas[i].executed
    && Cert1(s', i).prePrepare == Cert1(s, i).prePrepare && Cert1(s', i).prepare == Cert1(s, i).prepare
    && Cert1(s', i).commit.Keys == Cert1(s, i).commit.Keys + Reps(lo, hi)
  }

  lemma CountOne(c: Config, s: State, i: Rep, r: Rep, e: Digest) returns (op: Op, s': State)
    requires c.window >= 1 && i in s.replicas && CommitAwaited(c, s, Cert1(s, i), r, e)
    ensures Runs(c, s, [op], s') && Counted(s, s', i, r, r + 1)
  {
    op := DeliverCommit(i, 1, e, r);
    s' := Step(c, s, op);
    OneStep(c, s, op);
    assert Reps(r, r + 1) == {r};
  }

  lemma CountedBoth(s: State, mid: State, s': State, i: Rep, lo: nat, hi: nat)
    requires lo < hi && Counted(s, mid, i, lo, lo + 1) && Counted(mid, s', i, lo + 1, hi)
    ensures Counted(s, s', i, lo, hi)
  {
    OnlyOneTwice(s, mid, s', i);
    assert Reps(lo, hi) == Reps(lo, lo + 1) + Reps(lo + 1, hi);
  }

  lemma {:induction false} Count(c: Config, s: State, i: Rep, lo: nat, hi: nat, e: Digest) returns (ops: seq<Op>, s': State)
    requires c.window >= 1 && lo <= hi && i in s.replicas
    requires forall r: Rep :: lo <= r < hi ==> CommitAwaited(c, s, Cert1(s, i), r, e)
    ensures Runs(c, s, ops, s') && Counted(s, s', i, lo, hi)
    decreases hi - lo
  {
    if lo == hi {
      ops, s' := [], s;
      assert Reps(lo, hi) == {};
    } else {
      assert CommitAwaited(c, s, Cert1(s, i), lo, e);
      var op, mid := CountOne(c, s, i, lo, e);
      forall r: Rep | lo + 1 <= r < hi ensures CommitAwaited(c, mid, Cert1(mid, i), r, e) {
        assert CommitAwaited(c, s, Cert1(s, i), r, e);
        assert r !in Reps(lo, lo + 1);
      }
      var more;
      more, s' := Count(c, mid, i, lo + 1, hi, e);
      RunsOn(c, s, [op], mid, more, s');
      CountedBoth(s, mid, s', i, lo, hi);
      ops := [op] + more;
    }
  }

  /** A poised replica counts the commits of the faulty and of the first half, and executes. */
  lemma CountAll(c: Config, q: nat, s: State, i: Rep, d: Digest) returns (ops: seq<Op>, s': State)
    requires Plan(c, q) && Poised(c, s, i, d) && forall r: Rep :: c.f <= r < q ==> (1, 1, r) in s.commits
    ensures Runs(c, s, ops, s') && Counted(s, s', i, 0, q)
  {
    forall r: Rep | 0 <= r < q ensures CommitAwaited(c, s, Cert1(s, i), r, 1) {
      assert r < c.f ==> Within(0, r, c.f);
    }
    ops, s' := Count(c, s, i, 0, q, 1);
  }

  lemma EnoughCommits(c: Config, q: nat, s: State, s': State, i: Rep, d: Digest)
    requires q >= IntersectionQuorum(c.n, c.f) && Poised(c, s, i, d) && Counted(s, s', i, 0, q)
    ensures Committed(c, s'.replicas[i].reqStore, Cert1(s', i), d) && s'.replicas[i].executed == []
  {
    RepsCount(0, q);
    var commits := Cert1(s', i).commit;
    assert commits.Keys == Reps(0, q);
    assert |commits| == |commits.Keys|;
  }

  lemma ExecuteFirst(c: Config, s: State, i: Rep, d: Digest) returns (op: Op, s': State)
    requires i in s.replicas && Committed(c, s.replicas[i].reqStore, Cert1(s, i), d) && s.replicas[i].executed == []
    ensures Runs(c, s, [op], s') && OnlyOne(s, s', i) && s'.commits == s.commits
    ensures s'.replicas[i].executed == [d] && Committed(c, s'.replicas[i].reqStore, Cert1(s', i), d)
  {
    op := Execute(i);
    assert CanExecute(c, s.replicas[i]);
    s' := Step(c, s, op);
    OneStep(c, s, op);
  }

  lemma Conclude(c: Config, q: nat, s: State, i: Rep, d: Digest) returns (ops: seq<Op>, s': State)
    requires Plan(c, q) && Poised(c, s, i, d) && forall r: Rep :: c.f <= r < q ==> (1, 1, r) in s.commits
    ensures Runs(c, s, ops, s') && OnlyOne(s, s', i) && s'.commits == s.commits
    ensures s'.replicas[i].executed == [d] && Committed(c, s'.replicas[i].reqStore, Cert1(s', i), d)
  {
    var ops1, s1 := CountAll(c, q, s, i, d);
    EnoughCommits(c, q, s, s1, i, d);
    var op;
    op, s' := ExecuteFirst(c, s1, i, d);
    RunsOn(c, s, ops1, s1, [op], s');
    OnlyOneTwice(s, s1, s', i);
    ops := ops1 + [op];
  }

  // ---------------------------------------------------------------- the split

  /** Both halves ready: the first has committed, one replica of the second has prepared. */
  lemma GetReady(c: Config, q: nat) returns (ops: seq<Op>, s: State)
    requires Plan(c, q)
    ensures Runs(c, Start(c), ops, s) && Poised(c, s, c.f, 1) && Poised(c, s, q, 2)
    ensures forall r: Rep :: c.f <= r < q ==> (1, 1, r) in s.commits
  {
    var ops1, s1 := TellBoth(c, q);
    var ops2, s2 := PrepareHalf(c, q, s1, c.f);
    RunsOn(c, Start(c), ops1, s1, ops2, s2);
    assert Within(q, q, c.n);
    var ops3, s3 := PrepareOther(c, q, s2, q);
    RunsOn(c, Start(c), ops1 + ops2, s2, ops3, s3);
    assert Poised(c, s2, c.f, 1);
    PoisedStays(c, s2, s3, q, c.f, 1);
    ops, s := ops1 + ops2 + ops3, s3;
  }

  lemma PlanFor(n: nat, f: nat, window: nat) returns (c: Config, q: nat)
    requires n >= 3 * f + 1 && f >= 1 && (n + f) % 2 == 0 && window >= 1
    ensures c.n == n && c.f == f && c.window == window && ValidConfig(c) && Plan(c, q)
  {
    q := IntersectionQuorum(n, f);
    HalfUp(n, f);
    c := Config(n, f, window, 0, Reps(0, f));
    RepsCount(0, f);
  }

  /** Correct replicas of the two halves prepare, commit and execute different requests as
      number 1. */
  lemma Split(n: nat, f: nat, window: nat) returns (c: Config, ops: seq<Op>, s: State, i: Rep, j: Rep)
    requires n >= 3 * f + 1 && f >= 1 && (n + f) % 2 == 0 && window >= 1
    ensures c.n == n && c.f == f && c.window == window && ValidConfig(c) && Runs(c, Start(c), ops, s)
    ensures i in s.replicas && j in s.replicas
    ensures forall l :: Decided(c, l, s.replicas[i], 1, 1) && Decided(c, l, s.replicas[j], 1, 2)
  {
    var q;
    c, q := PlanFor(n, f, window);
    var ops1, s1 := GetReady(c, q);
    var ops2, s2 := Conclude(c, q, s1, f, 1);
    RunsOn(c, Start(c), ops1, s1, ops2, s2);
    PoisedStays(c, s1, s2, f, q, 2);
    var ops3, s3 := Conclude(c, q, s2, q, 2);
    RunsOn(c, Start(c), ops1 + ops2, s2, ops3, s3);
    ops, s, i, j := ops1 + ops2 + ops3, s3, f, q;
    assert s3.replicas[f] == s2.replicas[f];
  }

  /** For every network that may be configured, and whether asked of what is prepared, what
      is committed or what is executed: correct replicas agree in every run, whoever is
      primary and whoever is faulty, if and only if no fault is to be tolerated or n + f is
      odd. */
  lemma AgreementIff(n: nat, f: nat, window: nat, l: Level)
    requires n >= 3 * f + 1 && window >= 1
    ensures (forall c: Config :: ValidConfig(c) && c.n == n && c.f == f && c.window == window ==> Agreement(c, l))
            <==> f == 0 || (n + f) % 2 == 1
  {
    if f == 0 || (n + f) % 2 == 1 {
      forall c: Config | ValidConfig(c) && c.n == n && c.f == f && c.window == window ensures Agreement(c, l) {
        AgreementHolds(c, l);
      }
    } else {
      var c, ops, s, i, j := Split(n, f, window);
      assert Decided(c, l, s.replicas[i], 1, 1) && Decided(c, l, s.replicas[j], 1, 2);
      assert !Agreement(c, l);
    }
  }
}
