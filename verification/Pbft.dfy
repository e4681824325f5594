/** Quorums of the PBFT core, as arithmetic on sets of replicas. */
module PbftQuorum {

  type Rep = nat

  function IntersectionQuorum(n: nat, f: nat): nat {
    (n + f + 1) / 2
  }

  predicate Within(lo: nat, r: Rep, hi: nat) {
    lo <= r < hi
  }

  function Reps(lo: nat, hi: nat): set<Rep> {
    set r: Rep | r < hi && Within(lo, r, hi)
  }

  lemma {:induction false} RepsCount(lo: nat, hi: nat)
    requires lo <= hi
    ensures |Reps(lo, hi)| == hi - lo
    decreases hi
  {
    if lo < hi {
      RepsCount(lo, hi - 1);
      assert Reps(lo, hi) == Reps(lo, hi - 1) + {hi - 1};
    } else {
      assert Reps(lo, hi) == {};
    }
  }

  lemma {:induction false} SubsetCount(a: set<Rep>, b: set<Rep>)
    requires a <= b
    ensures |a| <= |b|
    decreases |a|
  {
    if a != {} {
      var x :| x in a;
      SubsetCount(a - {x}, b - {x});
    }
  }

  lemma UnionCount(a: set<Rep>, b: set<Rep>)
    ensures |a| + |b| == |a + b| + |a * b|
  {
    assert a + b == a + (b - a) && (b - a) + (a * b) == b;
  }

  /** Two quorums of n replicas share a correct one, whichever f are faulty. */
  ghost predicate QuorumsShareCorrect(n: nat, f: nat) {
    forall a: set<Rep>, b: set<Rep>, faulty: set<Rep> ::
      && a <= Reps(0, n) && b <= Reps(0, n) && |faulty| <= f
      && |a| >= IntersectionQuorum(n, f) && |b| >= IntersectionQuorum(n, f)
      ==> exists r :: r in a && r in b && r !in faulty
  }

  lemma SharedCorrect(n: nat, f: nat, a: set<Rep>, b: set<Rep>, faulty: set<Rep>) returns (r: Rep)
    requires (n + f) % 2 == 1 && a <= Reps(0, n) && b <= Reps(0, n) && |faulty| <= f
    requires |a| >= IntersectionQuorum(n, f) && |b| >= IntersectionQuorum(n, f)
    ensures r in a && r in b && r !in faulty
  {
    UnionCount(a, b);
    RepsCount(0, n);
    SubsetCount(a + b, Reps(0, n));
    if a * b <= faulty {
      SubsetCount(a * b, faulty);
      assert false;
    }
    r :| r in a * b && r !in faulty;
  }

  /** The quorum does what its documentation says, for every network that may be
      configured, if and only if n + f is odd: the division rounds down. */
  lemma QuorumsShareCorrectIff(n: nat, f: nat)
    requires n >= 3 * f + 1
    ensures QuorumsShareCorrect(n, f) <==> (n + f) % 2 == 1
  {
    if (n + f) % 2 == 1 {
      forall a: set<Rep>, b: set<Rep>, faulty: set<Rep> |
        && a <= Reps(0, n) && b <= Reps(0, n) && |faulty| <= f
        && |a| >= IntersectionQuorum(n, f) && |b| >= IntersectionQuorum(n, f)
        ensures exists r :: r in a && r in b && r !in faulty
      {
        var r := SharedCorrect(n, f, a, b, faulty);
      }
    } else {
      HalfUp(n, f);
      var a, b, faulty := FaultyOverlap(n, f, IntersectionQuorum(n, f));
      assert !QuorumsShareCorrect(n, f);
    }
  }

  lemma HalfUp(n: nat, f: nat)
    requires (n + f) % 2 == 0
    ensures 2 * IntersectionQuorum(n, f) == n + f
  {
  }

  /** With n + f even, the first and the last replicas make quorums that share just f. */
  lemma FaultyOverlap(n: nat, f: nat, q: nat) returns (a: set<Rep>, b: set<Rep>, faulty: set<Rep>)
    requires n >= 3 * f + 1 && 2 * q == n + f
    ensures a <= Reps(0, n) && b <= Reps(0, n) && |faulty| <= f && |a| >= q && |b| >= q
    ensures forall r :: r in a && r in b ==> r in faulty
  {
    a, b, faulty := Reps(0, q), Reps(n - q, n), Reps(n - q, q);
    RepsCount(0, q);
    RepsCount(n - q, n);
    RepsCount(n - q, q);
  }

  /** The other quorum is documented as the number of correct replicas, n - f; it is that
      exactly in the smallest network for f. */
  lemma AllCorrectReplicasQuorumIff(n: nat, f: nat)
    requires n >= 3 * f + 1
    ensures (n + f + 1) / 2 == n - f <==> n == 3 * f + 1
  {
  }
}

/** The normal case of one view: pre-prepare, prepare, commit and execution among n replicas
    of which up to f may send anything under their own names.  Messages are delivered in any
    order, any number of times, or never. */
module PbftCore {
  import opened Common
  import opened PbftQuorum

  type Digest = nat
  type Seq = nat

  const NullDigest: Digest := 0   // the empty digest, of the null request

  datatype Config = Config(n: nat, f: nat, window: nat, primary: Rep, faulty: set<Rep>)

  ghost predicate ValidConfig(c: Config) {
    c.n >= 3 * c.f + 1 && c.primary < c.n && c.faulty <= Reps(0, c.n) && |c.faulty| <= c.f
  }

  // The certificate of a sequence number: the first prepare and commit of each replica.
  datatype Cert = Cert(
    prePrepare: Option<Digest>,
    sentPrepare: bool,
    prepare: map<Rep, Digest>,
    sentCommit: bool,
    commit: map<Rep, Digest>)

  const EmptyCert := Cert(None, false, map[], false, map[])

  // `executed` holds the digests executed so far; its length is lastExec.
  datatype Replica = Replica(seqNo: Seq, reqStore: set<Digest>, certStore: map<Seq, Cert>, executed: seq<Digest>)

  function GetCert(p: Replica, n: Seq): Cert {
    if n in p.certStore then p.certStore[n] else EmptyCert
  }

  // The correct replicas, and what they have broadcast.
  datatype State = State(
    replicas: map<Rep, Replica>,
    prePrepares: set<(Seq, Digest)>,
    prepares: set<(Seq, Digest, Rep)>,
    commits: set<(Seq, Digest, Rep)>)

  function Correct(c: Config): set<Rep> {
    Reps(0, c.n) - c.faulty
  }

  function Start(c: Config): State {
    State(map r: Rep | r in Correct(c) :: Replica(0, {}, map[], []), {}, {}, {})
  }

  // ---------------------------------------------------------------- one replica

  function Voters(votes: map<Rep, Digest>, d: Digest): set<Rep> {
    set r | r in votes && votes[r] == d
  }

  predicate PrePrepared(reqs: set<Digest>, ct: Cert, d: Digest) {
    (d == NullDigest || d in reqs) && ct.prePrepare == Some(d)
  }

  /** A pre-prepare and enough prepares for the same digest. */
  predicate Backed(c: Config, ct: Cert, d: Digest) {
    ct.prePrepare == Some(d) && |Voters(ct.prepare, d)| >= IntersectionQuorum(c.n, c.f) - 1
  }

  predicate Prepared(c: Config, reqs: set<Digest>, ct: Cert, d: Digest) {
    PrePrepared(reqs, ct, d) && Backed(c, ct, d)
  }

  /** Commits are counted whatever digest they name. */
  predicate Committed(c: Config, reqs: set<Digest>, ct: Cert, d: Digest) {
    Prepared(c, reqs, ct, d) && |ct.commit| >= IntersectionQuorum(c.n, c.f)
  }

  predicate InW(c: Config, n: Seq) {
    0 < n <= c.window
  }

  /** `recvPrePrepare`: the first digest stays; the request attached must be genuine, that
      is match the digest and validate, unless it is known already; and at most one prepare
      is sent.  The new request store, the new certificate and whether a prepare is sent. */
  function OnPrePrepare(reqs: set<Digest>, ct: Cert, d: Digest, genuine: bool): (set<Digest>, Cert, bool) {
    var ct' := if ct.prePrepare.Some? && ct.prePrepare.value != d then ct else ct.(prePrepare := Some(d));
    if d !in reqs && !genuine then (reqs, ct', false)
    else if ct'.prePrepare == Some(d) && !ct'.sentPrepare then (reqs + {d}, ct'.(sentPrepare := true), true)
    else (reqs + {d}, ct', false)
  }

  /** `maybeSendCommit`. */
  function MaybeSendCommit(c: Config, reqs: set<Digest>, ct: Cert, d: Digest): (Cert, bool) {
    if Prepared(c, reqs, ct, d) && !ct.sentCommit then (ct.(sentCommit := true), true) else (ct, false)
  }

  /** `recvPrepare`: the first prepare of a replica counts, later ones are ignored. */
  function OnPrepare(c: Config, reqs: set<Digest>, ct: Cert, d: Digest, r: Rep): (Cert, bool) {
    if r in ct.prepare then (ct, false) else MaybeSendCommit(c, reqs, ct.(prepare := ct.prepare[r := d]), d)
  }

  function OnCommit(ct: Cert, d: Digest, r: Rep): Cert {
    if r in ct.commit then ct else ct.(commit := ct.commit[r := d])
  }

  /** How many prepares a replica sends for one number, given these pre-prepares. */
  function PreparesSent(reqs: set<Digest>, ct: Cert, msgs: seq<(Digest, bool)>): nat
    decreases |msgs|
  {
    if msgs == [] then 0
    else
      var (reqs', ct', sends) := OnPrePrepare(reqs, ct, msgs[0].0, msgs[0].1);
      (if sends then 1 else 0) + PreparesSent(reqs', ct', msgs[1..])
  }

  /** How many commits it sends, given these prepares. */
  function CommitsSent(c: Config, reqs: set<Digest>, ct: Cert, msgs: seq<(Digest, Rep)>): nat
    decreases |msgs|
  {
    if msgs == [] then 0
    else
      var (ct', sends) := OnPrepare(c, reqs, ct, msgs[0].0, msgs[0].1);
      (if sends then 1 else 0) + CommitsSent(c, reqs, ct', msgs[1..])
  }

  /** Whatever arrives, in whatever order and however often: one prepare per number at most. */
  lemma {:induction false} OnePreparePerNumber(reqs: set<Digest>, ct: Cert, msgs: seq<(Digest, bool)>)
    ensures PreparesSent(reqs, ct, msgs) <= if ct.sentPrepare then 0 else 1
    decreases |msgs|
  {
    if msgs != [] {
      var (reqs', ct', _) := OnPrePrepare(reqs, ct, msgs[0].0, msgs[0].1);
      OnePreparePerNumber(reqs', ct', msgs[1..]);
    }
  }

  /** And one commit. */
  lemma {:induction false} OneCommitPerNumber(c: Config, reqs: set<Digest>, ct: Cert, msgs: seq<(Digest, Rep)>)
    ensures CommitsSent(c, reqs, ct, msgs) <= if ct.sentCommit then 0 else 1
    decreases |msgs|
  {
    if msgs != [] {
      var (ct', _) := OnPrepare(c, reqs, ct, msgs[0].0, msgs[0].1);
      OneCommitPerNumber(c, reqs, ct', msgs[1..]);
    }
  }

  /** `executeOne` for the number after the last one executed. */
  predicate CanExecute(c: Config, p: Replica) {
    var ct := GetCert(p, |p.executed| + 1);
    ct.prePrepare.Some? && Committed(c, p.reqStore, ct, ct.prePrepare.value)
  }

  function NextExecuted(p: Replica): seq<Digest>
    requires GetCert(p, |p.executed| + 1).prePrepare.Some?
  {
    p.executed + [GetCert(p, |p.executed| + 1).prePrepare.value]
  }

  // ---------------------------------------------------------------- the network

  datatype Op =
    | Request(i: Rep, d: Digest)                          // a request that validates reaches a replica
    | DeliverPrePrepare(i: Rep, n: Seq, d: Digest, genuine: bool)
    | DeliverPrepare(i: Rep, n: Seq, d: Digest, r: Rep)
    | DeliverCommit(i: Rep, n: Seq, d: Digest, r: Rep)
    | Execute(i: Rep)

  /** No pre-prepare for the same digest is around under another number. */
  predicate NoOther(p: Replica, d: Digest, n: Seq) {
    forall m :: m in p.certStore && m != n ==> p.certStore[m].prePrepare != Some(d)
  }

  /** The primary gives the request the next number. */
  predicate Proposes(c: Config, p: Replica, i: Rep, d: Digest) {
    i == c.primary && InW(c, p.seqNo + 1) && NoOther(p, d, p.seqNo + 1)
  }

  predicate Enabled(c: Config, s: State, op: Op) {
    op.i in s.replicas &&
    match op
    case Request(i, d) => d != NullDigest
    case DeliverPrePrepare(i, n, d, genuine) =>
      i != c.primary && InW(c, n) && (c.primary in c.faulty || (n, d) in s.prePrepares) && (genuine ==> d != NullDigest)
    case DeliverPrepare(i, n, d, r) =>
      r < c.n && r != c.primary && InW(c, n) && (r in c.faulty || (n, d, r) in s.prepares)
    case DeliverCommit(i, n, d, r) =>
      r < c.n && InW(c, n) && (r in c.faulty || (n, d, r) in s.commits)
    case Execute(i) => CanExecute(c, s.replicas[i])
  }

  function SetReplica(s: State, i: Rep, p: Replica): State {
    s.(replicas := s.replicas[i := p])
  }

  function SetCert(p: Replica, n: Seq, ct: Cert): Replica {
    p.(certStore := p.certStore[n := ct])
  }

  function Step(c: Config, s: State, op: Op): State
    requires Enabled(c, s, op)
  {
    var p := s.replicas[op.i];
    match op
    case Request(i, d) =>
      var p1 := p.(reqStore := p.reqStore + {d});
      if !Proposes(c, p1, i, d) then SetReplica(s, i, p1)
      else
        var n := p.seqNo + 1;
        var (ct, commits) := MaybeSendCommit(c, p1.reqStore, GetCert(p, n).(prePrepare := Some(d)), d);
        SetReplica(s, i, SetCert(p1, n, ct).(seqNo := n)).(
          prePrepares := s.prePrepares + {(n, d)}, commits := if commits then s.commits + {(n, d, i)} else s.commits)
    case DeliverPrePrepare(i, n, d, genuine) =>
      var (reqs, ct, prepares) := OnPrePrepare(p.reqStore, GetCert(p, n), d, genuine);
      SetReplica(s, i, SetCert(p, n, ct).(reqStore := reqs)).(
        prepares := if prepares then s.prepares + {(n, d, i)} else s.prepares)
    case DeliverPrepare(i, n, d, r) =>
      var (ct, commits) := OnPrepare(c, p.reqStore, GetCert(p, n), d, r);
      SetReplica(s, i, SetCert(p, n, ct)).(commits := if commits then s.commits + {(n, d, i)} else s.commits)
    case DeliverCommit(i, n, d, r) => SetReplica(s, i, SetCert(p, n, OnCommit(GetCert(p, n), d, r)))
    case Execute(i) => SetReplica(s, i, p.(executed := NextExecuted(p)))
  }

  // ---------------------------------------------------------------- the invariant

  /** What a certificate of a correct replica rests on. */
  ghost predicate CertOk(c: Config, s: State, i: Rep, n: Seq, ct: Cert) {
    && (ct.prePrepare.Some? && c.primary !in c.faulty ==> (n, ct.prePrepare.value) in s.prePrepares)
    && (forall d :: (n, d, i) in s.prepares ==> ct.sentPrepare && ct.prePrepare == Some(d))
    && (forall r :: r in ct.prepare ==>
          r < c.n && r != c.primary && (r !in c.faulty ==> (n, ct.prepare[r], r) in s.prepares))
    && (forall r :: r in ct.commit ==> r < c.n && (r !in c.faulty ==> (n, ct.commit[r], r) in s.commits))
  }

  /** A certificate that may be executed: backed, known, and with a quorum of commits. */
  ghost predicate Executable(c: Config, p: Replica, ct: Cert, d: Digest) {
    Backed(c, ct, d) && (d == NullDigest || d in p.reqStore) && 2 * |ct.commit| >= c.n + c.f
  }

  /** Whatever was executed still has its certificate. */
  ghost predicate ExecOk(c: Config, p: Replica) {
    forall k :: 0 <= k < |p.executed| ==> Executable(c, p, GetCert(p, k + 1), p.executed[k])
  }

  /** A correct primary assigns each number once, and each request one number. */
  ghost predicate PrimaryOk(c: Config, s: State) {
    c.primary in s.replicas ==>
      var p := s.replicas[c.primary];
      && (forall n, d :: (n, d) in s.prePrepares ==> n <= p.seqNo && GetCert(p, n).prePrepare == Some(d))
      && (forall n, m, d :: (n, d) in s.prePrepares && (m, d) in s.prePrepares ==> n == m)
  }

  /** What a correct replica has sent: prepares for requests it knows, commits for requests
      it has a certificate for. */
  ghost predicate SentOk(c: Config, s: State) {
    && (forall n, d, i :: (n, d, i) in s.prepares && i in s.replicas ==> d in s.replicas[i].reqStore)
    && (forall n, d, i :: (n, d, i) in s.commits && i in s.replicas ==> Backed(c, GetCert(s.replicas[i], n), d))
  }

  ghost predicate Inv(c: Config, s: State) {
    && s.replicas.Keys == Correct(c)
    && (forall i, n :: i in s.replicas ==> CertOk(c, s, i, n, GetCert(s.replicas[i], n)))
    && PrimaryOk(c, s) && SentOk(c, s)
    && (forall i :: i in s.replicas ==> ExecOk(c, s.replicas[i]))
  }

  lemma StartInv(c: Config)
    ensures Inv(c, Start(c))
  {
  }

  /** Nothing a certificate holds is ever replaced. */
  ghost predicate Grows(ct: Cert, ct': Cert) {
    && (ct.prePrepare.Some? ==> ct'.prePrepare == ct.prePrepare)
    && (forall r :: r in ct.prepare ==> r in ct'.prepare && ct'.prepare[r] == ct.prepare[r])
    && ct.commit.Keys <= ct'.commit.Keys
  }

  lemma BackedGrows(c: Config, ct: Cert, ct': Cert, d: Digest)
    requires Backed(c, ct, d) && Grows(ct, ct')
    ensures Backed(c, ct', d)
  {
    SubsetCount(Voters(ct.prepare, d), Voters(ct'.prepare, d));
  }

  lemma CertGrows(c: Config, reqs: set<Digest>, ct: Cert, d: Digest, genuine: bool, r: Rep)
    ensures Grows(ct, OnPrePrepare(reqs, ct, d, genuine).1) && Grows(ct, OnPrepare(c, reqs, ct, d, r).0)
    ensures Grows(ct, OnCommit(ct, d, r))
  {
  }

  /** The next number of a correct primary is unused. */
  lemma NextIsFree(c: Config, s: State) returns (n: Seq)
    requires Inv(c, s) && c.primary in s.replicas
    ensures n == s.replicas[c.primary].seqNo + 1 && GetCert(s.replicas[c.primary], n).prePrepare == None
    ensures forall d :: (n, d, c.primary) !in s.prepares
  {
    n := s.replicas[c.primary].seqNo + 1;
    assert CertOk(c, s, c.primary, n, GetCert(s.replicas[c.primary], n));
  }

  /** What a request does: it is stored, and at a primary that proposes it the next number is
      given to it. */
  lemma RequestEffect(c: Config, s: State, op: Op)
    requires Enabled(c, s, op) && op.Request?
    ensures var s', p, p' := Step(c, s, op), s.replicas[op.i], Step(c, s, op).replicas[op.i];
            && s'.prepares == s.prepares && s.commits <= s'.commits && (p'.seqNo != p.seqNo ==> op.i == c.primary)
            && (p'.seqNo == p.seqNo ==> s'.prePrepares == s.prePrepares && p'.certStore == p.certStore)
            && (p'.seqNo != p.seqNo ==>
                  && p'.seqNo == p.seqNo + 1 && NoOther(p, op.d, p'.seqNo)
                  && s'.prePrepares == s.prePrepares + {(p'.seqNo, op.d)} && GetCert(p', p'.seqNo).prePrepare == Some(op.d)
                  && GetCert(p', p'.seqNo).prepare == GetCert(p, p'.seqNo).prepare
                  && GetCert(p', p'.seqNo).commit == GetCert(p, p'.seqNo).commit
                  && GetCert(p', p'.seqNo).sentPrepare == GetCert(p, p'.seqNo).sentPrepare
                  && forall m :: m != p'.seqNo ==> GetCert(p', m) == GetCert(p, m))
  {
  }

  lemma RequestGrows(c: Config, s: State, op: Op, n: Seq)
    requires Inv(c, s) && Enabled(c, s, op) && op.Request?
    ensures Grows(GetCert(s.replicas[op.i], n), GetCert(Step(c, s, op).replicas[op.i], n))
  {
    RequestEffect(c, s, op);
    if op.i == c.primary {
      var m := NextIsFree(c, s);
    }
  }

  lemma DeliveryGrows(c: Config, s: State, op: Op, n: Seq)
    requires Enabled(c, s, op) && !op.Request?
    ensures Grows(GetCert(s.replicas[op.i], n), GetCert(Step(c, s, op).replicas[op.i], n))
  {
    var p := s.replicas[op.i];
    match op
    case DeliverPrePrepare(_, m, d, genuine) => CertGrows(c, p.reqStore, GetCert(p, m), d, genuine, 0);
    case DeliverPrepare(_, m, d, r) => CertGrows(c, p.reqStore, GetCert(p, m), d, false, r);
    case DeliverCommit(_, m, d, r) => CertGrows(c, p.reqStore, GetCert(p, m), d, false, r);
    case Execute(_) =>
  }

  lemma StepGrows(c: Config, s: State, op: Op, n: Seq)
    requires Inv(c, s) && Enabled(c, s, op)
    ensures Grows(GetCert(s.replicas[op.i], n), GetCert(Step(c, s, op).replicas[op.i], n))
  {
    if op.Request? {
      RequestGrows(c, s, op, n);
    } else {
      DeliveryGrows(c, s, op, n);
    }
  }

  lemma ExecutableGrows(c: Config, p: Replica, p': Replica, ct: Cert, ct': Cert, d: Digest)
    requires Executable(c, p, ct, d) && Grows(ct, ct') && p.reqStore <= p'.reqStore
    ensures Executable(c, p', ct', d)
  {
    BackedGrows(c, ct, ct', d);
    SubsetCount(ct.commit.Keys, ct'.commit.Keys);
    assert |ct.commit| == |ct.commit.Keys| && |ct'.commit| == |ct'.commit.Keys|;
  }

  lemma StepLearns(c: Config, s: State, op: Op)
    requires Enabled(c, s, op)
    ensures s.replicas[op.i].reqStore <= Step(c, s, op).replicas[op.i].reqStore
  {
  }

  /** A step either leaves what was executed alone or executes the next number. */
  lemma ExecutedAfter(c: Config, s: State, op: Op)
    requires Enabled(c, s, op)
    ensures var p, p' := s.replicas[op.i], Step(c, s, op).replicas[op.i];
            || p'.executed == p.executed
            || (&& p'.certStore == p.certStore && p'.reqStore == p.reqStore && CanExecute(c, p) && p'.executed == NextExecuted(p))
  {
  }

  lemma NextIsExecutable(c: Config, p: Replica)
    requires CanExecute(c, p)
    ensures Executable(c, p, GetCert(p, |p.executed| + 1), NextExecuted(p)[|p.executed|])
  {
  }

  lemma StepKeepsExecutable(c: Config, s: State, op: Op, k: nat)
    requires Inv(c, s) && Enabled(c, s, op) && k < |s.replicas[op.i].executed|
    ensures var p' := Step(c, s, op).replicas[op.i]; Executable(c, p', GetCert(p', k + 1), s.replicas[op.i].executed[k])
  {
    var p, p' := s.replicas[op.i], Step(c, s, op).replicas[op.i];
    assert ExecOk(c, p);
    StepLearns(c, s, op);
    StepGrows(c, s, op, k + 1);
    ExecutableGrows(c, p, p', GetCert(p, k + 1), GetCert(p', k + 1), p.executed[k]);
  }

  lemma StepExecutes(c: Config, s: State, op: Op, k: nat)
    requires Inv(c, s) && Enabled(c, s, op) && k < |Step(c, s, op).replicas[op.i].executed|
    ensures var p' := Step(c, s, op).replicas[op.i]; Executable(c, p', GetCert(p', k + 1), p'.executed[k])
  {
    ExecutedAfter(c, s, op);
    if k < |s.replicas[op.i].executed| {
      StepKeepsExecutable(c, s, op, k);
    } else {
      NextIsExecutable(c, s.replicas[op.i]);
    }
  }

  lemma StepExecOk(c: Config, s: State, op: Op, i: Rep)
    requires Inv(c, s) && Enabled(c, s, op) && i in s.replicas
    ensures ExecOk(c, Step(c, s, op).replicas[i])
  {
    assert ExecOk(c, s.replicas[i]);
    var p' := Step(c, s, op).replicas[i];
    if op.i == i {
      forall k | 0 <= k < |p'.executed| ensures Executable(c, p', GetCert(p', k + 1), p'.executed[k]) {
        StepExecutes(c, s, op, k);
      }
    }
  }

  /** A commit goes out with its certificate, and a prepare with its request. */
  lemma StepSends(c: Config, s: State, op: Op, n: Seq, d: Digest)
    requires Enabled(c, s, op)
    ensures var s' := Step(c, s, op);
            && s'.replicas.Keys == s.replicas.Keys
            && (forall i :: i in s.replicas && i != op.i ==> s'.replicas[i] == s.replicas[i])
            && ((n, d, op.i) in s'.prepares ==> (n, d, op.i) in s.prepares || d in s'.replicas[op.i].reqStore)
            && ((n, d, op.i) in s'.commits ==> (n, d, op.i) in s.commits || Backed(c, GetCert(s'.replicas[op.i], n), d))
            && (forall i :: i != op.i ==> ((n, d, i) in s'.prepares <==> (n, d, i) in s.prepares)
                                          && ((n, d, i) in s'.commits <==> (n, d, i) in s.commits))
  {
  }

  lemma StepSentOk(c: Config, s: State, op: Op)
    requires Inv(c, s) && Enabled(c, s, op)
    ensures SentOk(c, Step(c, s, op))
  {
    var s' := Step(c, s, op);
    StepLearns(c, s, op);
    forall n, d, i | (n, d, i) in s'.prepares && i in s'.replicas ensures d in s'.replicas[i].reqStore {
      StepSends(c, s, op, n, d);
    }
    forall n, d, i | (n, d, i) in s'.commits && i in s'.replicas ensures Backed(c, GetCert(s'.replicas[i], n), d) {
      StepSends(c, s, op, n, d);
      if i == op.i && (n, d, i) in s.commits {
        StepGrows(c, s, op, n);
        BackedGrows(c, GetCert(s.replicas[i], n), GetCert(s'.replicas[i], n), d);
      }
    }
  }

  ghost predicate CertsOk(c: Config, s: State) {
    forall i, n :: i in s.replicas ==> CertOk(c, s, i, n, GetCert(s.replicas[i], n))
  }

  /** Messages only become more, and those of others are not this replica's. */
  ghost predicate Louder(s: State, s': State, i: Rep, n: Seq) {
    && s.prePrepares <= s'.prePrepares && s.prepares <= s'.prepares && s.commits <= s'.commits
    && forall d :: (n, d, i) in s'.prepares ==> (n, d, i) in s.prepares
  }

  lemma CertOkLouder(c: Config, s: State, s': State, i: Rep, n: Seq, ct: Cert)
    requires CertOk(c, s, i, n, ct) && Louder(s, s', i, n)
    ensures CertOk(c, s', i, n, ct)
  {
  }

  lemma RequestCertOk(c: Config, s: State, op: Op, n: Seq)
    requires Inv(c, s) && Enabled(c, s, op) && op.Request?
    ensures CertOk(c, Step(c, s, op), op.i, n, GetCert(Step(c, s, op).replicas[op.i], n))
  {
    assert CertOk(c, s, op.i, n, GetCert(s.replicas[op.i], n));
    RequestEffect(c, s, op);
    if op.i == c.primary {
      var m := NextIsFree(c, s);
    }
  }

  lemma PrePrepareCertOk(c: Config, s: State, op: Op, n: Seq)
    requires Enabled(c, s, op) && op.DeliverPrePrepare? && CertOk(c, s, op.i, n, GetCert(s.replicas[op.i], n))
    ensures CertOk(c, Step(c, s, op), op.i, n, GetCert(Step(c, s, op).replicas[op.i], n))
  {
  }

  lemma PrepareCertOk(c: Config, s: State, op: Op, n: Seq)
    requires Enabled(c, s, op) && op.DeliverPrepare? && CertOk(c, s, op.i, n, GetCert(s.replicas[op.i], n))
    ensures CertOk(c, Step(c, s, op), op.i, n, GetCert(Step(c, s, op).replicas[op.i], n))
  {
  }

  lemma CommitCertOk(c: Config, s: State, op: Op, n: Seq)
    requires Enabled(c, s, op) && (op.DeliverCommit? || op.Execute?) && CertOk(c, s, op.i, n, GetCert(s.replicas[op.i], n))
    ensures CertOk(c, Step(c, s, op), op.i, n, GetCert(Step(c, s, op).replicas[op.i], n))
  {
  }

  lemma StepLouder(c: Config, s: State, op: Op, i: Rep, n: Seq)
    requires Enabled(c, s, op) && i != op.i
    ensures Louder(s, Step(c, s, op), i, n)
    ensures i in s.replicas ==> i in Step(c, s, op).replicas && Step(c, s, op).replicas[i] == s.replicas[i]
    ensures Step(c, s, op).replicas.Keys == s.replicas.Keys
  {
  }

  lemma StepCertsOk(c: Config, s: State, op: Op)
    requires Inv(c, s) && Enabled(c, s, op)
    ensures CertsOk(c, Step(c, s, op)) && Step(c, s, op).replicas.Keys == s.replicas.Keys
  {
    var s' := Step(c, s, op);
    forall i, n | i in s.replicas ensures i in s'.replicas && CertOk(c, s', i, n, GetCert(s'.replicas[i], n)) {
      assert CertOk(c, s, i, n, GetCert(s.replicas[i], n));
      if i != op.i {
        StepLouder(c, s, op, i, n);
        CertOkLouder(c, s, s', i, n, GetCert(s.replicas[i], n));
      } else if op.Request? {
        RequestCertOk(c, s, op, n);
      } else if op.DeliverPrePrepare? {
        PrePrepareCertOk(c, s, op, n);
      } else if op.DeliverPrepare? {
        PrepareCertOk(c, s, op, n);
      } else {
        CommitCertOk(c, s, op, n);
      }
    }
  }

  lemma ProposalPrimaryOk(c: Config, s: State, op: Op)
    requires Inv(c, s) && Enabled(c, s, op) && op.Request? && op.i == c.primary
    ensures PrimaryOk(c, Step(c, s, op))
  {
    RequestEffect(c, s, op);
    var p := s.replicas[op.i];
    forall n | (n, op.d) in s.prePrepares && NoOther(p, op.d, p.seqNo + 1) ensures n == p.seqNo + 1 {
      assert GetCert(p, n).prePrepare == Some(op.d);
      assert n in p.certStore;
    }
  }

  lemma SilentPrimary(c: Config, s: State, op: Op)
    requires Enabled(c, s, op) && c.primary in s.replicas && !(op.Request? && op.i == c.primary)
    ensures var s' := Step(c, s, op);
            s'.prePrepares == s.prePrepares && c.primary in s'.replicas && s'.replicas[c.primary].seqNo == s.replicas[c.primary].seqNo
  {
  }

  lemma StepPrimaryOk(c: Config, s: State, op: Op)
    requires Inv(c, s) && Enabled(c, s, op) && Step(c, s, op).replicas.Keys == s.replicas.Keys
    ensures PrimaryOk(c, Step(c, s, op))
  {
    if c.primary in s.replicas {
      if op.Request? && op.i == c.primary {
        ProposalPrimaryOk(c, s, op);
      } else {
        SilentPrimary(c, s, op);
        var p, p' := s.replicas[c.primary], Step(c, s, op).replicas[c.primary];
        forall n, d | (n, d) in s.prePrepares ensures GetCert(p', n).prePrepare == Some(d) {
          assert GetCert(p, n).prePrepare == Some(d);
          if op.i == c.primary {
            StepGrows(c, s, op, n);
          } else {
            StepLouder(c, s, op, c.primary, n);
          }
        }
      }
    }
  }

  lemma StepKeepsInv(c: Config, s: State, op: Op)
    requires Inv(c, s) && Enabled(c, s, op)
    ensures Inv(c, Step(c, s, op))
  {
    StepCertsOk(c, s, op);
    StepPrimaryOk(c, s, op);
    StepSentOk(c, s, op);
    forall i | i in s.replicas ensures ExecOk(c, Step(c, s, op).replicas[i]) {
      StepExecOk(c, s, op, i);
    }
  }

  ghost predicate Runs(c: Config, s: State, ops: seq<Op>, s': State)
    decreases |ops|
  {
    if ops == [] then s' == s else Enabled(c, s, ops[0]) && Runs(c, Step(c, s, ops[0]), ops[1..], s')
  }

  lemma {:induction false} RunKeepsInv(c: Config, s: State, ops: seq<Op>, s': State)
    requires Inv(c, s) && Runs(c, s, ops, s')
    ensures Inv(c, s')
    decreases |ops|
  {
    if ops != [] {
      StepKeepsInv(c, s, ops[0]);
      RunKeepsInv(c, Step(c, s, ops[0]), ops[1..], s');
    }
  }

  // ---------------------------------------------------------------- agreement

  /** The replicas that stand behind a certificate: its voters and the primary. */
  lemma Backing(c: Config, s: State, i: Rep, n: Seq, d: Digest)
    requires ValidConfig(c) && Inv(c, s) && i in s.replicas && Backed(c, GetCert(s.replicas[i], n), d)
    ensures var votes := Voters(GetCert(s.replicas[i], n).prepare, d) + {c.primary};
            votes <= Reps(0, c.n) && |votes| >= IntersectionQuorum(c.n, c.f)
  {
    var ct := GetCert(s.replicas[i], n);
    assert CertOk(c, s, i, n, ct);
    assert c.primary !in Voters(ct.prepare, d);
  }

  /** Two correct replicas with a certificate for the same number have it for the same
      request, if quorums intersect properly or nobody is faulty. */
  lemma BackedAgree(c: Config, s: State, i: Rep, j: Rep, n: Seq, d: Digest, e: Digest)
    requires ValidConfig(c) && Inv(c, s) && i in s.replicas && j in s.replicas
    requires Backed(c, GetCert(s.replicas[i], n), d) && Backed(c, GetCert(s.replicas[j], n), e)
    requires c.f == 0 || (c.n + c.f) % 2 == 1
    ensures d == e
  {
    var ci, cj := GetCert(s.replicas[i], n), GetCert(s.replicas[j], n);
    assert CertOk(c, s, i, n, ci) && CertOk(c, s, j, n, cj);
    if c.primary in c.faulty {
      Backing(c, s, i, n, d);
      Backing(c, s, j, n, e);
      var r := SharedCorrect(c.n, c.f, Voters(ci.prepare, d) + {c.primary}, Voters(cj.prepare, e) + {c.primary}, c.faulty);
      assert (n, d, r) in s.prepares && (n, e, r) in s.prepares;
      assert CertOk(c, s, r, n, GetCert(s.replicas[r], n));
    } else {
      assert (n, d) in s.prePrepares && (n, e) in s.prePrepares;
    }
  }

  // Correct replicas may be asked to agree on what they have prepared, what they have
  // committed, or what they have executed.
  datatype Level = AtPrepared | AtCommitted | AtExecuted

  /** The replica stands by request d for number n. */
  predicate Decided(c: Config, l: Level, p: Replica, n: Seq, d: Digest) {
    match l
    case AtPrepared => Prepared(c, p.reqStore, GetCert(p, n), d)
    case AtCommitted => Committed(c, p.reqStore, GetCert(p, n), d)
    case AtExecuted => 1 <= n <= |p.executed| && p.executed[n - 1] == d
  }

  /** No run lets two correct replicas decide differently for one number. */
  ghost predicate Agreement(c: Config, l: Level) {
    forall ops, s, i, j, n, d, e ::
      && Runs(c, Start(c), ops, s) && i in s.replicas && j in s.replicas
      && Decided(c, l, s.replicas[i], n, d) && Decided(c, l, s.replicas[j], n, e)
      ==> d == e
  }

  lemma DecidedIsBacked(c: Config, l: Level, s: State, i: Rep, n: Seq, d: Digest)
    requires Inv(c, s) && i in s.replicas && Decided(c, l, s.replicas[i], n, d)
    ensures Backed(c, GetCert(s.replicas[i], n), d)
  {
    assert ExecOk(c, s.replicas[i]);
    if l == AtExecuted {
      assert Executable(c, s.replicas[i], GetCert(s.replicas[i], (n - 1) + 1), s.replicas[i].executed[n - 1]);
    }
  }

  // ---------------------------------------------------------------- what a decision rests on

  lemma CommitsCounted(c: Config, l: Level, s: State, i: Rep, n: Seq, d: Digest)
    requires Inv(c, s) && i in s.replicas && l != AtPrepared && Decided(c, l, s.replicas[i], n, d)
    ensures 2 * |GetCert(s.replicas[i], n).commit| >= c.n + c.f
  {
    assert ExecOk(c, s.replicas[i]);
    if l == AtExecuted {
      assert Executable(c, s.replicas[i], GetCert(s.replicas[i], (n - 1) + 1), s.replicas[i].executed[n - 1]);
    }
  }

  /** The replica has sent a commit for number n, with a pre-prepare and enough prepares for
      the request it names. */
  ghost predicate StandsBehind(c: Config, s: State, r: Rep, n: Seq, e: Digest) {
    && r in s.replicas && (n, e, r) in s.commits
    && GetCert(s.replicas[r], n).prePrepare == Some(e)
    && |Voters(GetCert(s.replicas[r], n).prepare, e)| + 1 >= (c.n + c.f + 1) / 2
  }

  /** In every run: once a correct replica has committed or executed a number, at least
      (n + f + 1) / 2 less the faulty replicas, and so at least f + 1 correct ones, have sent
      a commit for it on the strength of a certificate; and they all stand behind the same
      request if quorums intersect properly. */
  lemma DecisionRestsOnCommits(c: Config, ops: seq<Op>, s: State, l: Level, i: Rep, n: Seq, d: Digest)
    returns (behind: map<Rep, Digest>)
    requires ValidConfig(c) && Runs(c, Start(c), ops, s) && i in s.replicas
    requires l != AtPrepared && Decided(c, l, s.replicas[i], n, d)
    ensures |behind.Keys| >= (c.n + c.f + 1) / 2 - |c.faulty| && |behind.Keys| >= c.f + 1
    ensures forall r :: r in behind ==> StandsBehind(c, s, r, n, behind[r])
    ensures c.f == 0 || (c.n + c.f) % 2 == 1 ==> forall r :: r in behind ==> behind[r] == d
  {
    StartInv(c);
    RunKeepsInv(c, Start(c), ops, s);
    CommitsCounted(c, l, s, i, n, d);
    DecidedIsBacked(c, l, s, i, n, d);
    var commit := GetCert(s.replicas[i], n).commit;
    behind := map r | r in commit && r !in c.faulty :: commit[r];
    CorrectShare(commit, c.faulty, behind);
    assert CertOk(c, s, i, n, GetCert(s.replicas[i], n));
    forall r | r in behind ensures StandsBehind(c, s, r, n, behind[r]) && (c.f == 0 || (c.n + c.f) % 2 == 1 ==> behind[r] == d) {
      CorrectCommitStands(c, s, r, n, behind[r]);
      if c.f == 0 || (c.n + c.f) % 2 == 1 {
        BackedAgree(c, s, i, r, n, d, behind[r]);
      }
    }
  }

  lemma CorrectCommitStands(c: Config, s: State, r: Rep, n: Seq, e: Digest)
    requires Inv(c, s) && r < c.n && r !in c.faulty && (n, e, r) in s.commits
    ensures StandsBehind(c, s, r, n, e) && Backed(c, GetCert(s.replicas[r], n), e)
  {
    assert Within(0, r, c.n);
    assert r in Correct(c);
  }

  lemma CorrectShare(commit: map<Rep, Digest>, faulty: set<Rep>, behind: map<Rep, Digest>)
    requires behind == map r | r in commit && r !in faulty :: commit[r]
    ensures |behind.Keys| >= |commit| - |faulty|
  {
    assert commit.Keys <= behind.Keys + faulty;
    SubsetCount(commit.Keys, behind.Keys + faulty);
    UnionCount(behind.Keys, faulty);
    assert |commit| == |commit.Keys|;
  }

  /** Whether this step has replica i validate request d. */
  predicate Validates(op: Op, i: Rep, d: Digest) {
    op == Request(i, d) || (op.DeliverPrePrepare? && op.i == i && op.d == d && op.genuine)
  }

  lemma {:induction false} KnownIsValidated(c: Config, s: State, ops: seq<Op>, s': State, i: Rep, d: Digest)
    requires Runs(c, s, ops, s') && i in s.replicas && i in s'.replicas && d in s'.replicas[i].reqStore
    ensures d in s.replicas[i].reqStore || exists k :: 0 <= k < |ops| && Validates(ops[k], i, d)
    decreases |ops|
  {
    if ops != [] {
      var mid := Step(c, s, ops[0]);
      KnownIsValidated(c, mid, ops[1..], s', i, d);
      if k :| 0 <= k < |ops[1..]| && Validates(ops[1..][k], i, d) {
        assert Validates(ops[k + 1], i, d);
      } else if d !in s.replicas[i].reqStore {
        assert Validates(ops[0], i, d);
      }
    }
  }

  /** In every run: what a correct replica has prepared, committed or executed, and what it has
      sent a prepare for, is the null request or one that it has validated itself. */
  lemma OnlyValidatedRequests(c: Config, ops: seq<Op>, s: State, l: Level, i: Rep, n: Seq, d: Digest)
    requires Runs(c, Start(c), ops, s) && i in s.replicas
    requires Decided(c, l, s.replicas[i], n, d) || (n, d, i) in s.prepares
    ensures d == NullDigest || exists k :: 0 <= k < |ops| && Validates(ops[k], i, d)
  {
    StartInv(c);
    RunKeepsInv(c, Start(c), ops, s);
    assert ExecOk(c, s.replicas[i]);
    if l == AtExecuted && Decided(c, l, s.replicas[i], n, d) {
      assert Executable(c, s.replicas[i], GetCert(s.replicas[i], (n - 1) + 1), s.replicas[i].executed[n - 1]);
    }
    if d != NullDigest {
      KnownIsValidated(c, Start(c), ops, s, i, d);
    }
  }

  /** In every run: a correct primary gives a number to one request, and a request one number. */
  lemma PrimaryAssignsOnce(c: Config, ops: seq<Op>, s: State, n: Seq, d: Digest, m: Seq, e: Digest)
    requires Runs(c, Start(c), ops, s) && c.primary in s.replicas && (n, d) in s.prePrepares && (m, e) in s.prePrepares
    ensures n == m <==> d == e
  {
    StartInv(c);
    RunKeepsInv(c, Start(c), ops, s);
  }

  lemma AgreementHolds(c: Config, l: Level)
    requires ValidConfig(c) && (c.f == 0 || (c.n + c.f) % 2 == 1)
    ensures Agreement(c, l)
  {
    forall ops, s, i, j, n, d, e |
      && Runs(c, Start(c), ops, s) && i in s.replicas && j in s.replicas
      && Decided(c, l, s.replicas[i], n, d) && Decided(c, l, s.replicas[j], n, e)
      ensures d == e
    {
      StartInv(c);
      RunKeepsInv(c, Start(c), ops, s);
      DecidedIsBacked(c, l, s, i, n, d);
      DecidedIsBacked(c, l, s, j, n, e);
      BackedAgree(c, s, i, j, n, d, e);
    }
  }
}

/** The replica as an object: votes are kept in lists, and quorums counted by loops. */
module PbftObject {
  import opened Common
  import opened PbftQuorum
  import opened PbftCore

  datatype Vote = Vote(replica: Rep, digest: Digest)

  datatype MsgCert = MsgCert(
    prePrepare: Option<Digest>, sentPrepare: bool, prepare: seq<Vote>, sentCommit: bool, commit: seq<Vote>)

  /** One vote per replica. */
  ghost predicate Single(votes: seq<Vote>) {
    forall i, j :: 0 <= i < j < |votes| ==> votes[i].replica != votes[j].replica
  }

  function Tally(votes: seq<Vote>): map<Rep, Digest> {
    if votes == [] then map[]
    else Tally(votes[..|votes| - 1])[votes[|votes| - 1].replica := votes[|votes| - 1].digest]
  }

  lemma {:induction false} TallyKeys(votes: seq<Vote>, r: Rep)
    ensures r in Tally(votes) <==> exists i :: 0 <= i < |votes| && votes[i].replica == r
    decreases |votes|
  {
    if votes != [] {
      var n := |votes| - 1;
      TallyKeys(votes[..n], r);
      if i :| 0 <= i < |votes| && votes[i].replica == r {
        assert i < n ==> votes[..n][i] == votes[i];
      }
    }
  }

  function Abstract(ct: MsgCert): Cert {
    Cert(ct.prePrepare, ct.sentPrepare, Tally(ct.prepare), ct.sentCommit, Tally(ct.commit))
  }

  ghost predicate ValidCert(ct: MsgCert) {
    Single(ct.prepare) && Single(ct.commit)
  }

  method HasVote(votes: seq<Vote>, r: Rep) returns (b: bool)
    ensures b <==> r in Tally(votes)
  {
    TallyKeys(votes, r);
    for i := 0 to |votes|
      invariant forall j :: 0 <= j < i ==> votes[j].replica != r
    {
      if votes[i].replica == r {
        return true;
      }
    }
    b := false;
  }

  /** The loop of `prepared`: with one vote per replica it counts replicas. */
  method CountVotes(votes: seq<Vote>, d: Digest) returns (quorum: nat)
    requires Single(votes)
    ensures quorum == |Voters(Tally(votes), d)|
  {
    quorum := 0;
    var i := 0;
    while i < |votes|
      invariant 0 <= i <= |votes| && quorum == |Voters(Tally(votes[..i]), d)|
    {
      OneMore(votes, i, d);
      if votes[i].digest == d {
        quorum := quorum + 1;
      }
      i := i + 1;
    }
    assert votes[..i] == votes;
  }

  lemma OneMore(votes: seq<Vote>, i: nat, d: Digest)
    requires Single(votes) && i < |votes|
    ensures |Voters(Tally(votes[..i + 1]), d)| == |Voters(Tally(votes[..i]), d)| + (if votes[i].digest == d then 1 else 0)
  {
    var before, v := Tally(votes[..i]), votes[i];
    assert votes[..i + 1][..i] == votes[..i];
    TallyKeys(votes[..i], v.replica);
    assert v.replica !in before;
    assert Voters(before[v.replica := v.digest], d) == Voters(before, d) + (if v.digest == d then {v.replica} else {});
  }

  lemma {:induction false} TallySize(votes: seq<Vote>)
    requires Single(votes)
    ensures |Tally(votes)| == |votes|
    decreases |votes|
  {
    if votes != [] {
      var n := |votes| - 1;
      TallySize(votes[..n]);
      TallyKeys(votes[..n], votes[n].replica);
    }
  }

  class PbftReplica {
    const c: Config
    const id: Rep
    var reqStore: set<Digest>
    var certs: map<Seq, MsgCert>
    var executed: seq<Digest>   // its length is lastExec

    constructor (c: Config, id: Rep)
      ensures this.c == c && this.id == id && reqStore == {} && certs == map[] && executed == [] && Valid()
    {
      this.c, this.id, reqStore, certs, executed := c, id, {}, map[], [];
    }

    ghost predicate Valid()
      reads this
    {
      forall n :: n in certs ==> ValidCert(certs[n])
    }

    function CertAt(n: Seq): MsgCert
      reads this`certs
    {
      if n in certs then certs[n] else MsgCert(None, false, [], false, [])
    }

    method IsPrepared(d: Digest, n: Seq) returns (b: bool)
      requires Valid()
      ensures b == Prepared(c, reqStore, Abstract(CertAt(n)), d)
    {
      var ct := CertAt(n);
      if d != NullDigest && d !in reqStore {
        return false;
      }
      if ct.prePrepare != Some(d) {
        return false;
      }
      var quorum := CountVotes(ct.prepare, d);
      b := quorum >= IntersectionQuorum(c.n, c.f) - 1;
    }

    method IsCommitted(d: Digest, n: Seq) returns (b: bool)
      requires Valid()
      ensures b == Committed(c, reqStore, Abstract(CertAt(n)), d)
    {
      b := IsPrepared(d, n);
      TallySize(CertAt(n).commit);
      if b {
        b := |CertAt(n).commit| >= IntersectionQuorum(c.n, c.f);
      }
    }

    method RecvPrePrepare(n: Seq, d: Digest, genuine: bool) returns (prepares: bool)
      requires Valid()
      modifies this
      ensures Valid() && executed == old(executed)
      ensures (reqStore, Abstract(CertAt(n)), prepares) == OnPrePrepare(old(reqStore), Abstract(old(CertAt(n))), d, genuine)
      ensures forall m :: m != n ==> CertAt(m) == old(CertAt(m))
    {
      var ct := CertAt(n);
      if !(ct.prePrepare.Some? && ct.prePrepare.value != d) {
        ct := ct.(prePrepare := Some(d));
      }
      certs := certs[n := ct];
      if d !in reqStore {
        if !genuine {
          return false;
        }
        reqStore := reqStore + {d};
      }
      assert reqStore == old(reqStore) + {d};
      prepares := ct.prePrepare == Some(d) && !ct.sentPrepare;
      if prepares {
        certs := certs[n := ct.(sentPrepare := true)];
      }
    }

    method RecvPrepare(n: Seq, d: Digest, r: Rep) returns (commits: bool)
      requires Valid()
      modifies this`certs
      ensures Valid() && (Abstract(CertAt(n)), commits) == OnPrepare(c, reqStore, Abstract(old(CertAt(n))), d, r)
      ensures forall m :: m != n ==> CertAt(m) == old(CertAt(m))
    {
      var dup := HasVote(CertAt(n).prepare, r);
      if dup {
        return false;
      }
      AddPrepare(n, Vote(r, d));
      commits := MaybeSend(n, d);
    }

    method AddPrepare(n: Seq, v: Vote)
      requires Valid() && v.replica !in Tally(CertAt(n).prepare)
      modifies this`certs
      ensures Valid() && forall m :: m != n ==> CertAt(m) == old(CertAt(m))
      ensures var ct := Abstract(old(CertAt(n)));
              Abstract(CertAt(n)) == ct.(prepare := ct.prepare[v.replica := v.digest])
    {
      AddVote(CertAt(n).prepare, v);
      certs := certs[n := CertAt(n).(prepare := CertAt(n).prepare + [v])];
    }

    /** `maybeSendCommit`: the commit is sent once, when the request is prepared. */
    method MaybeSend(n: Seq, d: Digest) returns (commits: bool)
      requires Valid()
      modifies this`certs
      ensures Valid() && forall m :: m != n ==> CertAt(m) == old(CertAt(m))
      ensures (Abstract(CertAt(n)), commits) == MaybeSendCommit(c, reqStore, Abstract(old(CertAt(n))), d)
    {
      commits := IsPrepared(d, n);
      commits := commits && !CertAt(n).sentCommit;
      if commits {
        certs := certs[n := CertAt(n).(sentCommit := true)];
      }
    }

    method RecvCommit(n: Seq, d: Digest, r: Rep)
      requires Valid()
      modifies this`certs
      ensures Valid() && Abstract(CertAt(n)) == OnCommit(Abstract(old(CertAt(n))), d, r)
      ensures forall m :: m != n ==> CertAt(m) == old(CertAt(m))
    {
      var ct := CertAt(n);
      var dup := HasVote(ct.commit, r);
      if !dup {
        AddVote(ct.commit, Vote(r, d));
        certs := certs[n := ct.(commit := ct.commit + [Vote(r, d)])];
      }
    }

    /** Number n is committed, on the request it was pre-prepared as. */
    ghost predicate Ready(n: Seq)
      reads this`certs, this`reqStore
    {
      CertAt(n).prePrepare.Some? && Committed(c, reqStore, Abstract(CertAt(n)), CertAt(n).prePrepare.value)
    }

    ghost predicate ReadyAs(n: Seq, d: Digest)
      reads this`certs, this`reqStore
    {
      Ready(n) && CertAt(n).prePrepare == Some(d)
    }

    /** `executeOne` on the certificate of the next number. */
    method ExecuteOne() returns (did: bool)
      requires Valid()
      modifies this`executed
      ensures did == old(Ready(|executed| + 1))
      ensures executed == if did then old(executed) + [CertAt(|old(executed)| + 1).prePrepare.value] else old(executed)
    {
      var n := |executed| + 1;
      if CertAt(n).prePrepare.None? {
        return false;
      }
      var d := CertAt(n).prePrepare.value;
      did := IsCommitted(d, n);
      if did {
        executed := executed + [d];
      }
    }

    /** `executeOutstanding`: requests are executed in the order of their numbers, without a
        hole, each one committed, until the next one is not. */
    method ExecuteOutstanding()
      requires Valid()
      modifies this`executed
      ensures old(executed) <= executed && !Ready(|executed| + 1)
      ensures forall k :: |old(executed)| <= k < |executed| ==> ReadyAs(k + 1, executed[k])
    {
      var retry := true;
      while retry
        invariant old(executed) <= executed
        invariant forall k :: |old(executed)| <= k < |executed| ==> ReadyAs(k + 1, executed[k])
        invariant !retry ==> !Ready(|executed| + 1)
        decreases Above(certs.Keys, |executed|), retry
      {
        ghost var before := |executed|;
        retry := ExecuteOne();
        if retry {
          assert before + 1 in certs;
          AboveShrinks(certs.Keys, before);
        }
      }
    }
  }

  /** How many numbers are above n. */
  ghost function Above(keys: set<Seq>, n: Seq): nat {
    |set k | k in keys && k > n|
  }

  lemma AboveShrinks(keys: set<Seq>, n: Seq)
    requires n + 1 in keys
    ensures Above(keys, n + 1) < Above(keys, n)
  {
    assert (set k | k in keys && k > n) == (set k | k in keys && k > n + 1) + {n + 1};
  }

  lemma AddVote(votes: seq<Vote>, v: Vote)
    requires Single(votes) && v.replica !in Tally(votes)
    ensures Single(votes + [v]) && Tally(votes + [v]) == Tally(votes)[v.replica := v.digest]
  {
    assert (votes + [v])[..|votes|] == votes;
    TallyKeys(votes, v.replica);
  }
}
