/** The client's pool of transaction certificates: an array used as a stack, filled from the
    authority a batch at a time, and kept in a database table while the client is down. */
module TCertPool {

  type Cert = nat   // certificates, numbered as the authority issues them

  // A client that was initialised: what is left in its pool, tCerts[:len], and whether that
  // has been stored in the table.  Closing a client leaves its pool as it is, and a program
  // that has kept the client may go on drawing from it.
  datatype Handle = Handle(pool: seq<Cert>, shared: bool)

  datatype State = State(
    up: bool,               // the last client is open
    handles: seq<Handle>,   // every client of this process, in the order of initialisation
    stored: seq<Cert>,      // the table of unused certificates
    handed: seq<Cert>,      // every certificate ever handed out
    issued: nat)            // how many the authority has ever issued

  const Start0 := State(false, [], [], [], 0)

  datatype Op =
    // starting up: the table may be unreadable, and rows may fail to scan or to validate
    | Start(readable: bool, scans: Cert -> bool, valid: Cert -> bool, batch: seq<nat>)
    | GetNext(h: nat, batch: seq<nat>)
    | Stop(saved: bool)
    | Crash

  /** The certificates of a batch that pass the client's checks, by their place in it. */
  predicate IsBatch(batch: seq<nat>, size: nat) {
    && |batch| <= size
    && (forall i :: 0 <= i < |batch| ==> batch[i] < size)
    && (forall i, j :: 0 <= i < j < |batch| ==> batch[i] < batch[j])
  }

  predicate Enabled(s: State, size: nat, op: Op) {
    match op
    case Start(_, _, _, batch) => !s.up && IsBatch(batch, size)
    case GetNext(h, batch) => h < |s.handles| && IsBatch(batch, size)
    case Stop(_) => s.up && s.handles != []
    case Crash => true
  }

  function Filter(certs: seq<Cert>, keep: Cert -> bool): seq<Cert> {
    if certs == [] then []
    else
      var init := Filter(certs[..|certs| - 1], keep);
      if keep(certs[|certs| - 1]) then init + [certs[|certs| - 1]] else init
  }

  /** The certificates of a new batch. */
  function Issue(issued: nat, batch: seq<nat>): seq<Cert> {
    seq(|batch|, i requires 0 <= i < |batch| => issued + batch[i])
  }

  /** What a starting client finds: the rows that scan and validate, or a new batch. */
  function Loaded(s: State, op: Op): seq<Cert>
    requires op.Start?
  {
    var rows := Filter(s.stored, op.scans);
    if rows == [] then Issue(s.issued, op.batch) else Filter(rows, op.valid)
  }

  /** An empty pool is filled with a new batch, which nobody else has. */
  function Filled(s: State, size: nat, h: nat, batch: seq<nat>): State
    requires h < |s.handles|
  {
    if s.handles[h].pool != [] then s
    else s.(handles := s.handles[h := Handle(Issue(s.issued, batch), false)], issued := s.issued + size)
  }

  /** The top of a pool is handed out. */
  function HandOut(s: State, h: nat): State
    requires h < |s.handles| && s.handles[h].pool != []
  {
    var x := s.handles[h];
    var n := |x.pool| - 1;
    s.(handles := s.handles[h := x.(pool := x.pool[..n])], handed := s.handed + [x.pool[n]])
  }

  function Step(s: State, size: nat, op: Op): State
    requires Enabled(s, size, op)
  {
    match op
    case Start(readable, scans, _, _) =>
      if !readable then s
      else s.(up := true, handles := s.handles + [Handle(Loaded(s, op), false)], stored := [],
              issued := if Filter(s.stored, scans) == [] then s.issued + size else s.issued)
    case GetNext(h, batch) =>
      var filled := Filled(s, size, h, batch);
      if filled.handles[h].pool == [] then filled else HandOut(filled, h)
    case Stop(saved) =>
      var n := |s.handles| - 1;
      var x := s.handles[n];
      if saved then s.(up := false, handles := s.handles[n := x.(shared := true)], stored := s.stored + x.pool)
      else s.(up := false)
    case Crash => s.(up := false, handles := [])
  }

  // ---------------------------------------------------------------- the invariant

  ghost predicate Distinct(certs: seq<Cert>) {
    forall i, j :: 0 <= i < j < |certs| ==> certs[i] != certs[j]
  }

  predicate Apart(a: seq<Cert>, b: seq<Cert>) {
    forall c :: c in a ==> c !in b
  }

  /** A table or pool of certificates that exist, none twice. */
  ghost predicate Sound(certs: seq<Cert>, size: nat, issued: nat) {
    |certs| <= size && Distinct(certs) && forall c :: c in certs ==> c < issued
  }

  /** A pool that holds what nothing else holds. */
  ghost predicate Alone(s: State, h: nat)
    requires h < |s.handles|
  {
    var pool := s.handles[h].pool;
    && Apart(pool, s.handed) && Apart(pool, s.stored)
    && forall g :: 0 <= g < |s.handles| && g != h && !s.handles[g].shared ==> Apart(pool, s.handles[g].pool)
  }

  ghost predicate HandleOk(s: State, size: nat, h: nat)
    requires h < |s.handles|
  {
    Sound(s.handles[h].pool, size, s.issued) && (!s.handles[h].shared ==> Alone(s, h))
  }

  ghost predicate Inv(s: State, size: nat) {
    && Distinct(s.handed) && (forall c :: c in s.handed ==> c < s.issued)
    && Sound(s.stored, size, s.issued) && Apart(s.stored, s.handed)
    && (s.up ==> s.stored == [] && s.handles != [] && !s.handles[|s.handles| - 1].shared)
    && forall h :: 0 <= h < |s.handles| ==> HandleOk(s, size, h)
  }

  lemma {:induction false} FilterIs(certs: seq<Cert>, keep: Cert -> bool, c: Cert)
    ensures c in Filter(certs, keep) <==> c in certs && keep(c)
    decreases |certs|
  {
    if certs != [] {
      var init, last := certs[..|certs| - 1], certs[|certs| - 1];
      assert certs == init + [last];
      FilterIs(init, keep, c);
    }
  }

  lemma TopLeaves(pool: seq<Cert>, size: nat, issued: nat)
    requires pool != [] && Sound(pool, size, issued)
    ensures var n := |pool| - 1;
            && Sound(pool[..n], size, issued) && pool[n] !in pool[..n] && pool[n] < issued
            && forall c :: c in pool[..n] ==> c in pool
  {
    var n := |pool| - 1;
    assert pool[n] in pool;
    assert pool == pool[..n] + [pool[n]];
    assert forall c :: c in pool[..n] ==> c in pool;
    assert Distinct(pool[..n]);
  }

  lemma {:induction false} FilterSound(certs: seq<Cert>, keep: Cert -> bool, size: nat, issued: nat)
    requires Sound(certs, size, issued)
    ensures Sound(Filter(certs, keep), size, issued) && |Filter(certs, keep)| <= |certs|
    decreases |certs|
  {
    if certs != [] {
      var init, last := certs[..|certs| - 1], certs[|certs| - 1];
      TopLeaves(certs, size, issued);
      FilterSound(init, keep, size, issued);
      FilterIs(init, keep, last);
      AddSound(Filter(init, keep), last, issued);
    }
  }

  lemma AddSound(certs: seq<Cert>, c: Cert, issued: nat)
    requires Sound(certs, |certs|, issued) && c !in certs && c < issued
    ensures Sound(certs + [c], |certs| + 1, issued)
  {
  }

  lemma {:induction false} FilterAll(certs: seq<Cert>, keep: Cert -> bool)
    requires forall c :: keep(c)
    ensures Filter(certs, keep) == certs
    decreases |certs|
  {
    if certs != [] {
      FilterAll(certs[..|certs| - 1], keep);
      assert certs == certs[..|certs| - 1] + [certs[|certs| - 1]];
    }
  }

  lemma IssuedAreNew(issued: nat, batch: seq<nat>, size: nat)
    requires IsBatch(batch, size)
    ensures Sound(Issue(issued, batch), size, issued + size) && forall c :: c in Issue(issued, batch) ==> c >= issued
  {
  }

  /** What a starting client finds is in the table, or new. */
  lemma LoadedIs(s: State, size: nat, op: Op)
    requires Inv(s, size) && op.Start? && IsBatch(op.batch, size)
    ensures var rows := Filter(s.stored, op.scans);
            && Sound(Loaded(s, op), size, if rows == [] then s.issued + size else s.issued)
            && forall c :: c in Loaded(s, op) ==> (if rows == [] then c >= s.issued else c in s.stored)
  {
    var rows := Filter(s.stored, op.scans);
    if rows == [] {
      IssuedAreNew(s.issued, op.batch, size);
    } else {
      FilterSound(s.stored, op.scans, size, s.issued);
      FilterSound(rows, op.valid, size, s.issued);
      forall c | c in Loaded(s, op) ensures c in s.stored {
        FilterIs(rows, op.valid, c);
        FilterIs(s.stored, op.scans, c);
      }
    }
  }

  lemma StartKeeps(s: State, size: nat, op: Op)
    requires Inv(s, size) && Enabled(s, size, op) && op.Start?
    ensures Inv(Step(s, size, op), size)
  {
    if op.readable {
      LoadedIs(s, size, op);
      var s', n := Step(s, size, op), |s.handles|;
      assert s'.handles[n].pool == Loaded(s, op);
      forall h | 0 <= h < n ensures HandleOk(s', size, h) {
        assert HandleOk(s, size, h) && s'.handles[h] == s.handles[h];
      }
      forall g | 0 <= g < n && !s.handles[g].shared ensures Apart(s'.handles[n].pool, s.handles[g].pool) {
        assert HandleOk(s, size, g);
      }
    }
  }

  lemma FilledKeeps(s: State, size: nat, h: nat, batch: seq<nat>)
    requires Inv(s, size) && h < |s.handles| && IsBatch(batch, size)
    ensures Inv(Filled(s, size, h, batch), size)
  {
    var s' := Filled(s, size, h, batch);
    if s.handles[h].pool == [] {
      IssuedAreNew(s.issued, batch, size);
      forall g | 0 <= g < |s.handles| ensures HandleOk(s', size, g) {
        assert HandleOk(s, size, g);
        if g == h {
          forall k | 0 <= k < |s.handles| && k != h && !s.handles[k].shared ensures Apart(s'.handles[h].pool, s.handles[k].pool) {
            assert HandleOk(s, size, k);
          }
        }
      }
    }
  }

  /** The certificate on top is nowhere but in pools that are shared. */
  ghost predicate Gone(s: State, c: Cert) {
    && c !in s.handed && c !in s.stored
    && forall g :: 0 <= g < |s.handles| && !s.handles[g].shared ==> c !in s.handles[g].pool
  }

  function Top(x: Handle): Cert
    requires x.pool != []
  {
    x.pool[|x.pool| - 1]
  }

  /** Handing out the top of a pool keeps the invariant if no other holds it. */
  lemma HandOutKeeps(s: State, size: nat, h: nat)
    requires Inv(s, size) && h < |s.handles| && s.handles[h].pool != []
    requires !s.handles[h].shared || Gone(s, Top(s.handles[h]))
    ensures Inv(HandOut(s, h), size)
  {
    var s', c := HandOut(s, h), Top(s.handles[h]);
    assert HandleOk(s, size, h);
    TopLeaves(s.handles[h].pool, size, s.issued);
    assert c in s.handles[h].pool;
    forall g | 0 <= g < |s.handles| ensures HandleOk(s', size, g) {
      HandleAfter(s, size, h, g);
    }
  }

  lemma HandleAfter(s: State, size: nat, h: nat, g: nat)
    requires Inv(s, size) && h < |s.handles| && g < |s.handles| && s.handles[h].pool != []
    requires !s.handles[h].shared || Gone(s, Top(s.handles[h]))
    ensures HandleOk(HandOut(s, h), size, g)
  {
    var s', c := HandOut(s, h), Top(s.handles[h]);
    assert HandleOk(s, size, h) && HandleOk(s, size, g);
    TopLeaves(s.handles[h].pool, size, s.issued);
    assert c in s.handles[h].pool;
    assert forall k :: 0 <= k < |s.handles| && k != h ==> s'.handles[k] == s.handles[k];
  }

  lemma GetNextKeeps(s: State, size: nat, op: Op)
    requires Inv(s, size) && Enabled(s, size, op) && op.GetNext? && Proper(s, op)
    ensures Inv(Step(s, size, op), size)
  {
    FilledKeeps(s, size, op.h, op.batch);
    var filled := Filled(s, size, op.h, op.batch);
    if filled.handles[op.h].pool != [] {
      HandOutKeeps(filled, size, op.h);
    }
  }

  lemma StopKeeps(s: State, size: nat, op: Op)
    requires Inv(s, size) && Enabled(s, size, op) && (op.Stop? || op.Crash?)
    ensures Inv(Step(s, size, op), size)
  {
    if op.Stop? {
      var s', n := Step(s, size, op), |s.handles| - 1;
      assert HandleOk(s, size, n);
      assert s.stored + s.handles[n].pool == s.handles[n].pool;
      forall h | 0 <= h < |s'.handles| ensures HandleOk(s', size, h) {
        assert HandleOk(s, size, h);
      }
    }
  }

  // ---------------------------------------------------------------- every run

  /** Nothing is drawn that is in the table as well. */
  predicate Proper(s: State, op: Op) {
    op.GetNext? ==> op.h < |s.handles| && (!s.handles[op.h].shared || s.handles[op.h].pool == [])
  }

  /** The runs of the client, all of them or only those that draw properly. */
  ghost predicate Runs(s: State, size: nat, ops: seq<Op>, s': State, proper: bool)
    decreases |ops|
  {
    if ops == [] then s' == s
    else Enabled(s, size, ops[0]) && (proper ==> Proper(s, ops[0])) && Runs(Step(s, size, ops[0]), size, ops[1..], s', proper)
  }

  lemma {:induction false} RunKeepsInv(s: State, size: nat, ops: seq<Op>, s': State)
    requires Inv(s, size) && Runs(s, size, ops, s', true)
    ensures Inv(s', size)
    decreases |ops|
  {
    if ops != [] {
      var op := ops[0];
      if op.Start? {
        StartKeeps(s, size, op);
      } else if op.GetNext? {
        GetNextKeeps(s, size, op);
      } else {
        StopKeeps(s, size, op);
      }
      RunKeepsInv(Step(s, size, op), size, ops[1..], s');
    }
  }

  /** Over any sequence of starts, hand-outs, stops and crashes in which no stored pool is
      drawn from: no pool outgrows its array, no certificate is handed out twice, and none
      that was handed out is in the table or in a pool that is not stored. */
  lemma EveryRunHandsOutOnce(size: nat, ops: seq<Op>, s: State)
    requires Runs(Start0, size, ops, s, true)
    ensures Distinct(s.handed) && |s.stored| <= size && Apart(s.stored, s.handed)
    ensures forall h :: 0 <= h < |s.handles| ==>
              |s.handles[h].pool| <= size && (!s.handles[h].shared ==> Apart(s.handles[h].pool, s.handed))
  {
    RunKeepsInv(Start0, size, ops, s);
    forall h | 0 <= h < |s.handles|
      ensures |s.handles[h].pool| <= size && (!s.handles[h].shared ==> Apart(s.handles[h].pool, s.handed))
    {
      assert HandleOk(s, size, h);
    }
  }

  // ---------------------------------------------------------------- where certificates come from

  /** `a` is `b` with some elements left out: these are the places of the ones kept. */
  ghost predicate Picks(a: seq<Cert>, b: seq<Cert>, places: seq<nat>) {
    && |places| == |a|
    && (forall i :: 0 <= i < |a| ==> places[i] < |b| && a[i] == b[places[i]])
    && (forall i, j :: 0 <= i < j < |a| ==> places[i] < places[j])
  }

  lemma {:induction false} FilterPicks(certs: seq<Cert>, keep: Cert -> bool) returns (places: seq<nat>)
    ensures Picks(Filter(certs, keep), certs, places)
    decreases |certs|
  {
    if certs == [] {
      places := [];
    } else {
      var n := |certs| - 1;
      places := FilterPicks(certs[..n], keep);
      PicksOn(Filter(certs[..n], keep), certs, places);
      if keep(certs[n]) {
        places := places + [n];
      }
    }
  }

  lemma PicksOn(a: seq<Cert>, certs: seq<Cert>, places: seq<nat>)
    requires certs != [] && Picks(a, certs[..|certs| - 1], places)
    ensures Picks(a, certs, places) && Picks(a + [certs[|certs| - 1]], certs, places + [|certs| - 1])
  {
  }

  lemma PicksOfPicks(a: seq<Cert>, b: seq<Cert>, c: seq<Cert>, ab: seq<nat>, bc: seq<nat>) returns (ac: seq<nat>)
    requires Picks(a, b, ab) && Picks(b, c, bc)
    ensures Picks(a, c, ac)
  {
    ac := seq(|a|, i requires 0 <= i < |a| && |ab| == |a| && ab[i] < |bc| => bc[ab[i]]);
  }

  ghost predicate SomeScan(s: State, scans: Cert -> bool) {
    exists c :: c in s.stored && scans(c)
  }

  /** A client that starts on a table with a row that scans takes over just the certificates
      that scan and validate, in the order of the table; on any other table it takes just the
      accepted ones of a new batch, in the order of the batch.  Either way the table is empty
      afterwards. */
  lemma StartTakesJustTheValid(s: State, size: nat, op: Op)
    requires Enabled(s, size, op) && op.Start? && op.readable
    ensures var s' := Step(s, size, op);
            |s'.handles| == |s.handles| + 1 && s'.handles[..|s.handles|] == s.handles && s'.stored == [] && s'.handed == s.handed
    ensures var pool := Step(s, size, op).handles[|s.handles|].pool;
            if SomeScan(s, op.scans) then
              && (forall c :: c in pool <==> c in s.stored && op.scans(c) && op.valid(c))
              && exists places :: Picks(pool, s.stored, places)
            else |pool| == |op.batch| && forall i :: 0 <= i < |pool| ==> pool[i] == s.issued + op.batch[i]
  {
    var rows := Filter(s.stored, op.scans);
    forall c ensures (c in rows <==> c in s.stored && op.scans(c)) && (c in Filter(rows, op.valid) <==> c in rows && op.valid(c)) {
      FilterIs(s.stored, op.scans, c);
      FilterIs(rows, op.valid, c);
    }
    assert rows != [] ==> rows[0] in rows;
    if SomeScan(s, op.scans) {
      var c :| c in s.stored && op.scans(c);
      assert c in rows;
      var bc := FilterPicks(s.stored, op.scans);
      var ab := FilterPicks(rows, op.valid);
      var ac := PicksOfPicks(Filter(rows, op.valid), rows, s.stored, ab, bc);
    }
  }

  /** The step takes this certificate into a pool, having found it good: it is an accepted one
      of a batch issued now, or a row that scans and validates. */
  ghost predicate Vouches(s: State, size: nat, op: Op, c: Cert) {
    && Enabled(s, size, op)
    && match op
       case Start(readable, scans, valid, batch) =>
         readable && (if SomeScan(s, scans) then c in s.stored && scans(c) && valid(c) else InBatch(s.issued, batch, c))
       case GetNext(h, batch) => s.handles[h].pool == [] && InBatch(s.issued, batch, c)
       case _ => false
  }

  ghost predicate InBatch(issued: nat, batch: seq<nat>, c: Cert) {
    exists i :: 0 <= i < |batch| && c == issued + batch[i]
  }

  /** The certificate is in a pool or was handed out. */
  ghost predicate Taken(s: State, c: Cert) {
    c in s.handed || exists h :: 0 <= h < |s.handles| && c in s.handles[h].pool
  }

  lemma TakenBefore(s: State, size: nat, op: Op, c: Cert)
    requires Enabled(s, size, op) && Taken(Step(s, size, op), c)
    ensures Taken(s, c) || Vouches(s, size, op, c)
  {
    match op
    case Start(_, _, _, _) =>
      if op.readable {
        StartTakesJustTheValid(s, size, op);
        StartTaken(s, size, op, c);
      }
    case GetNext(h, batch) => NextTaken(s, size, h, batch, c);
    case Stop(_) => StopTaken(s, size, op, c);
    case Crash =>
  }

  lemma StartTaken(s: State, size: nat, op: Op, c: Cert)
    requires Enabled(s, size, op) && op.Start? && op.readable && Taken(Step(s, size, op), c)
    ensures Taken(s, c) || Vouches(s, size, op, c)
  {
    StartTakesJustTheValid(s, size, op);
    var s' := Step(s, size, op);
    if c !in s.handed {
      var h :| 0 <= h < |s'.handles| && c in s'.handles[h].pool;
      if h < |s.handles| {
        assert s'.handles[h] == s.handles[h];
      } else if !SomeScan(s, op.scans) {
        var i :| 0 <= i < |s'.handles[h].pool| && s'.handles[h].pool[i] == c;
        assert c == s.issued + op.batch[i];
      }
    }
  }

  lemma StopTaken(s: State, size: nat, op: Op, c: Cert)
    requires Enabled(s, size, op) && op.Stop? && Taken(Step(s, size, op), c)
    ensures Taken(s, c)
  {
    var s' := Step(s, size, op);
    if c !in s.handed {
      var h :| 0 <= h < |s'.handles| && c in s'.handles[h].pool;
      assert s.handles[h].pool == s'.handles[h].pool;
    }
  }

  lemma NextTaken(s: State, size: nat, h: nat, batch: seq<nat>, c: Cert)
    requires Enabled(s, size, GetNext(h, batch)) && Taken(Step(s, size, GetNext(h, batch)), c)
    ensures Taken(s, c) || Vouches(s, size, GetNext(h, batch), c)
  {
    var filled, s' := Filled(s, size, h, batch), Step(s, size, GetNext(h, batch));
    if filled.handles[h].pool != [] {
      HandedTaken(filled, h, c);
    }
    if !Taken(s, c) {
      var g :| 0 <= g < |filled.handles| && c in filled.handles[g].pool;
      assert g == h && s.handles[h].pool == [];
      var i :| 0 <= i < |batch| && Issue(s.issued, batch)[i] == c;
    }
  }

  lemma HandedTaken(s: State, h: nat, c: Cert)
    requires h < |s.handles| && s.handles[h].pool != [] && Taken(HandOut(s, h), c)
    ensures Taken(s, c)
  {
    var s', pool := HandOut(s, h), s.handles[h].pool;
    if c !in s.handed {
      if c == pool[|pool| - 1] {
        assert c in s.handles[h].pool;
      } else {
        var g :| 0 <= g < |s'.handles| && c in s'.handles[g].pool;
        assert c in s.handles[g].pool;
      }
    }
  }

  lemma {:induction false} TakenWasVouchedFor(s: State, size: nat, ops: seq<Op>, s': State, proper: bool, c: Cert)
    requires Runs(s, size, ops, s', proper) && Taken(s', c) && !Taken(s, c)
    ensures exists k, mid :: 0 <= k < |ops| && Runs(s, size, ops[..k], mid, proper) && Vouches(mid, size, ops[k], c)
    decreases |ops|
  {
    var op, next, rest := ops[0], Step(s, size, ops[0]), ops[1..];
    if Taken(next, c) {
      TakenBefore(s, size, op, c);
      assert Runs(s, size, ops[..0], s, proper);
    } else {
      TakenWasVouchedFor(next, size, rest, s', proper, c);
      var k, mid :| 0 <= k < |rest| && Runs(next, size, rest[..k], mid, proper) && Vouches(mid, size, rest[k], c);
      assert ops[..k + 1][1..] == rest[..k] && ops[..k + 1][0] == op;
      assert Runs(s, size, ops[..k + 1], mid, proper);
    }
  }

  /** In every run, proper or not: whatever is handed out was an accepted certificate of a
      batch when it was issued, or scanned and validated when a client loaded it. */
  lemma HandedOutWasVouchedFor(size: nat, ops: seq<Op>, s: State, proper: bool, c: Cert)
    requires Runs(Start0, size, ops, s, proper) && c in s.handed
    ensures exists k, mid :: 0 <= k < |ops| && Runs(Start0, size, ops[..k], mid, proper) && Vouches(mid, size, ops[k], c)
  {
    TakenWasVouchedFor(Start0, size, ops, s, proper, c);
  }

  /** Stopping and starting again, with everything stored and read back, carries the pool over
      to the new client as it was. */
  lemma RestartKeepsPool(s: State, size: nat, scans: Cert -> bool, valid: Cert -> bool, batch: seq<nat>)
    requires s.up && s.handles != [] && s.stored == [] && s.handles[|s.handles| - 1].pool != []
    requires IsBatch(batch, size) && (forall c :: scans(c)) && forall c :: valid(c)
    ensures var stopped := Step(s, size, Stop(true)); var s' := Step(stopped, size, Start(true, scans, valid, batch));
            s'.handles == stopped.handles + [Handle(s.handles[|s.handles| - 1].pool, false)] && s'.stored == [] && s'.issued == s.issued
  {
    var pool := s.handles[|s.handles| - 1].pool;
    assert [] + pool == pool;
    FilterAll(pool, scans);
    FilterAll(pool, valid);
  }

  function Reversed(certs: seq<Cert>): seq<Cert> {
    if certs == [] then [] else Reversed(certs[1..]) + [certs[0]]
  }

  lemma {:induction false} ReversedLast(certs: seq<Cert>)
    requires certs != []
    ensures Reversed(certs) == [certs[|certs| - 1]] + Reversed(certs[..|certs| - 1])
    decreases |certs|
  {
    if |certs| > 1 {
      ReversedLast(certs[1..]);
      assert certs[1..][..|certs| - 2] == certs[..|certs| - 1][1..];
    } else {
      assert certs[1..] == [] && certs[..0] == [];
    }
  }

  /** The hand-outs that empty a pool. */
  function Emptied(s: State, size: nat, h: nat): State
    requires h < |s.handles|
    decreases |s.handles[h].pool|
  {
    if s.handles[h].pool == [] then s else Emptied(Step(s, size, GetNext(h, [])), size, h)
  }

  /** A pool is a stack: drawn from until it is empty, it hands out all its certificates, the
      last one added first. */
  lemma {:induction false} PoolIsAStack(s: State, size: nat, h: nat)
    requires h < |s.handles|
    ensures Emptied(s, size, h).handed == s.handed + Reversed(s.handles[h].pool)
    decreases |s.handles[h].pool|
  {
    var pool := s.handles[h].pool;
    if pool != [] {
      var s' := Step(s, size, GetNext(h, []));
      assert s' == HandOut(s, h);
      PoolIsAStack(s', size, h);
      ReversedLast(pool);
      var n := |pool| - 1;
      assert s.handed + [pool[n]] + Reversed(pool[..n]) == s.handed + ([pool[n]] + Reversed(pool[..n]));
    } else {
      assert s.handed + [] == s.handed;
    }
  }

  // ---------------------------------------------------------------- drawing from a closed client

  /** Whatever happens from here on, drawn properly, no certificate is handed out twice. */
  ghost predicate Safe(s: State, size: nat) {
    forall ops, s' :: Runs(s, size, ops, s', true) ==> Distinct(s'.handed)
  }

  lemma InvIsSafe(s: State, size: nat)
    requires Inv(s, size)
    ensures Safe(s, size)
  {
    forall ops, s' | Runs(s, size, ops, s', true) ensures Distinct(s'.handed) {
      RunKeepsInv(s, size, ops, s');
    }
  }

  lemma UnsafeBefore(s: State, size: nat, op: Op)
    requires Enabled(s, size, op) && Proper(s, op) && !Safe(Step(s, size, op), size)
    ensures !Safe(s, size)
  {
    var ops, s' :| Runs(Step(s, size, op), size, ops, s', true) && !Distinct(s'.handed);
    assert ([op] + ops)[1..] == ops;
    assert Runs(s, size, [op] + ops, s', true);
  }

  lemma TwiceIsUnsafe(s: State, size: nat)
    requires !Distinct(s.handed)
    ensures !Safe(s, size)
  {
    var none: seq<Op> := [];
    assert Runs(s, size, none, s, true);
  }

  /** A certificate that was handed out and is in a pool that may be drawn from comes again. */
  lemma {:induction false} ComesAgain(s: State, size: nat, h: nat, c: Cert)
    requires h < |s.handles| && !s.handles[h].shared && c in s.handles[h].pool && c in s.handed
    ensures !Safe(s, size)
    decreases if h < |s.handles| then |s.handles[h].pool| else 0
  {
    var op := GetNext(h, []);
    var s', pool := HandOut(s, h), s.handles[h].pool;
    assert Step(s, size, op) == s';
    if Top(s.handles[h]) == c {
      var i :| 0 <= i < |s.handed| && s.handed[i] == c;
      assert s'.handed[i] == s'.handed[|s.handed|];
      TwiceIsUnsafe(s', size);
    } else {
      assert pool == pool[..|pool| - 1] + [Top(s.handles[h])];
      assert s'.handed == s.handed + [Top(s.handles[h])];
      ComesAgain(s', size, h, c);
    }
    UnsafeBefore(s, size, op);
  }

  lemma StoredComesAgain(s: State, size: nat, c: Cert)
    requires !s.up && c in s.stored && c in s.handed
    ensures !Safe(s, size)
  {
    var op := Start(true, c => true, c => true, []);
    FilterAll(s.stored, op.scans);
    FilterAll(s.stored, op.valid);
    var s' := Step(s, size, op);
    assert s'.handles[|s.handles|] == Handle(s.stored, false);
    ComesAgain(s', size, |s.handles|, c);
    UnsafeBefore(s, size, op);
  }

  /** Drawing once more from a client, open or closed, stays safe if and only if its pool is
      not stored, or empty, or nothing else holds the certificate on top. */
  lemma DrawSafeIff(s: State, size: nat, h: nat, batch: seq<nat>)
    requires Inv(s, size) && h < |s.handles| && IsBatch(batch, size)
    ensures Safe(Step(s, size, GetNext(h, batch)), size)
            <==> !s.handles[h].shared || s.handles[h].pool == [] || Gone(s, Top(s.handles[h]))
  {
    var op := GetNext(h, batch);
    if Proper(s, op) {
      GetNextKeeps(s, size, op);
      InvIsSafe(Step(s, size, op), size);
    } else if Gone(s, Top(s.handles[h])) {
      HandOutKeeps(s, size, h);
      InvIsSafe(Step(s, size, op), size);
    } else {
      DrawUnsafe(s, size, h, Top(s.handles[h]));
    }
  }

  lemma DrawUnsafe(s: State, size: nat, h: nat, c: Cert)
    requires Inv(s, size) && h < |s.handles| && s.handles[h].shared && s.handles[h].pool != []
    requires c == Top(s.handles[h]) && !Gone(s, c)
    ensures !Safe(HandOut(s, h), size)
  {
    var s' := HandOut(s, h);
    assert s'.handed[|s.handed|] == c;
    if c in s.handed {
      var i :| 0 <= i < |s.handed| && s.handed[i] == c;
      assert s'.handed[i] == s'.handed[|s.handed|];
      TwiceIsUnsafe(s', size);
    } else if c in s.stored {
      StoredComesAgain(s', size, c);
    } else {
      var g :| 0 <= g < |s.handles| && !s.handles[g].shared && c in s.handles[g].pool;
      assert s'.handles[g] == s.handles[g];
      ComesAgain(s', size, g, c);
    }
  }

  /** Right after a stop, drawing from the client just closed stays safe if and only if its
      certificates could not be stored or there are none left. */
  lemma DrawAfterStopSafeIff(s: State, size: nat, saved: bool, batch: seq<nat>)
    requires Inv(s, size) && s.up && IsBatch(batch, size)
    ensures var s', n := Step(s, size, Stop(saved)), |s.handles| - 1;
            Safe(Step(s', size, GetNext(n, batch)), size) <==> !saved || s.handles[n].pool == []
  {
    var s', n := Step(s, size, Stop(saved)), |s.handles| - 1;
    StopKeeps(s, size, Stop(saved));
    DrawSafeIff(s', size, n, batch);
    if saved && s.handles[n].pool != [] {
      assert Top(s'.handles[n]) in s'.stored;
    }
  }

  lemma {:induction false} Loosen(s: State, size: nat, ops: seq<Op>, s': State)
    requires Runs(s, size, ops, s', true)
    ensures Runs(s, size, ops, s', false)
    decreases |ops|
  {
    if ops != [] {
      Loosen(Step(s, size, ops[0]), size, ops[1..], s');
    }
  }

  lemma Prepend(s: State, size: nat, op: Op, ops: seq<Op>, s': State)
    requires Enabled(s, size, op) && Runs(Step(s, size, op), size, ops, s', false)
    ensures Runs(s, size, [op] + ops, s', false)
  {
    assert ([op] + ops)[1..] == ops;
  }

  /** A client that is started, stopped and then drawn from once more: some run from there
      hands a certificate out twice. */
  lemma ClosedClientHandsOutTwice(size: nat)
    requires size > 0
    ensures exists ops, s :: Runs(Start0, size, ops, s, false) && !Distinct(s.handed)
  {
    var start := Start(true, c => true, c => true, [0]);
    StartKeeps(Start0, size, start);
    var s1 := Step(Start0, size, start);
    assert s1.handles[0].pool == [0];
    DrawAfterStopSafeIff(s1, size, true, []);
    var s2 := Step(s1, size, Stop(true));
    var s3 := Step(s2, size, GetNext(0, []));
    var ops, s :| Runs(s3, size, ops, s, true) && !Distinct(s.handed);
    Loosen(s3, size, ops, s);
    Prepend(s2, size, GetNext(0, []), ops, s);
    Prepend(s1, size, Stop(true), [GetNext(0, [])] + ops, s);
    Prepend(Start0, size, start, [Stop(true)] + ([GetNext(0, [])] + ops), s);
  }

  // ---------------------------------------------------------------- the pool and its table

  class KeyStore {
    var rows: seq<Cert>

    constructor ()
      ensures rows == []
    {
      rows := [];
    }

    /** One transaction: a row that cannot be inserted, or a failing commit, takes back the
        rows inserted before it, so that all certificates are stored or none. */
    method StoreUnusedTCerts(certs: seq<Cert>, begins: bool, inserts: nat -> bool, commits: bool) returns (ok: bool)
      modifies this
      ensures ok <==> certs == [] || (begins && commits && forall i :: 0 <= i < |certs| ==> inserts(i))
      ensures rows == if ok then old(rows) + certs else old(rows)
    {
      if |certs| == 0 {
        return true;
      }
      if !begins {
        return false;
      }
      var rollback := rows;
      var i := 0;
      while i < |certs|
        invariant 0 <= i <= |certs| && rows == old(rows) + certs[..i]
        invariant forall j :: 0 <= j < i ==> inserts(j)
      {
        if !inserts(i) {
          rows := rollback;
          return false;
        }
        rows := rows + [certs[i]];
        i := i + 1;
      }
      assert certs[..i] == certs;
      ok := commits;
      if !ok {
        rows := rollback;
      }
    }

    /** Reads the rows that scan, then empties the table.  Not readable: the query or the
        deletion fails. */
    method LoadUnusedTCerts(readable: bool, scans: Cert -> bool) returns (ok: bool, certs: seq<Cert>)
      modifies this
      ensures ok == readable
      ensures if ok then certs == Filter(old(rows), scans) && rows == [] else rows == old(rows)
    {
      certs := [];
      if !readable {
        return false, [];
      }
      var i := 0;
      while i < |rows|
        invariant 0 <= i <= |rows| && certs == Filter(rows[..i], scans) && rows == old(rows)
      {
        assert rows[..i + 1][..i] == rows[..i];
        if scans(rows[i]) {
          certs := certs + [rows[i]];
        }
        i := i + 1;
      }
      assert rows[..i] == rows;
      rows := [];
      ok := true;
    }
  }

  class Pool {
    const ks: KeyStore
    const tCerts: array<Cert>
    var len: nat

    ghost predicate Valid()
      reads this
    {
      len <= tCerts.Length
    }

    ghost function Contents(): seq<Cert>
      requires Valid()
      reads this, tCerts
    {
      tCerts[..len]
    }

    constructor (ks: KeyStore, size: nat)
      ensures Valid() && this.ks == ks && fresh(tCerts) && tCerts.Length == size && Contents() == []
    {
      this.ks, tCerts, len := ks, new Cert[size], 0;
    }

    method AddTCert(c: Cert)
      requires Valid() && len < tCerts.Length
      modifies this, tCerts
      ensures Valid() && Contents() == old(Contents()) + [c]
    {
      len := len + 1;
      tCerts[len - 1] := c;
    }

    /** The refill of an empty pool: never more than the array holds. */
    method GetTCertsFromTCA(issued: nat, batch: seq<nat>) returns (err: bool)
      requires Valid() && len == 0 && IsBatch(batch, tCerts.Length)
      modifies this, tCerts
      ensures Valid() && err == (batch == []) && Contents() == Issue(issued, batch)
    {
      for i := 0 to |batch|
        invariant Valid() && len == i && Contents() == Issue(issued, batch[..i])
      {
        assert Issue(issued, batch[..i + 1]) == Issue(issued, batch[..i]) + [issued + batch[i]];
        AddTCert(issued + batch[i]);
      }
      assert batch[..|batch|] == batch;
      err := batch == [];
    }

    /** A new client as the last of those there are. */
    method StartUp(issued: nat, readable: bool, scans: Cert -> bool, valid: Cert -> bool, batch: seq<nat>) returns (ok: bool)
      requires Valid() && len == 0 && |ks.rows| <= tCerts.Length && IsBatch(batch, tCerts.Length)
      modifies this, tCerts, ks
      ensures Valid() && ok == readable
      ensures ok ==>
                var s := Step(State(false, [], old(ks.rows), [], issued), tCerts.Length, Start(readable, scans, valid, batch));
                s.handles == [Handle(Contents(), false)] && ks.rows == s.stored
      ensures !ok ==> ks.rows == old(ks.rows) && len == 0
    {
      var certs: seq<Cert>;
      ok, certs := ks.LoadUnusedTCerts(readable, scans);
      if !ok {
        return;
      }
      if certs == [] {
        var err := GetTCertsFromTCA(issued, batch);
        return;
      }
      FilterShrinks(old(ks.rows), scans);
      var i := 0;
      while i < |certs|
        invariant 0 <= i <= |certs| && Valid() && len <= i && Contents() == Filter(certs[..i], valid) && ks.rows == []
      {
        assert certs[..i + 1][..i] == certs[..i];
        if valid(certs[i]) {
          AddTCert(certs[i]);
        }
        i := i + 1;
      }
      assert certs[..i] == certs;
    }

    /** Draws from this client's pool, whether or not it has been closed. */
    method GetNextTCert(issued: nat, batch: seq<nat>, ghost shared: bool) returns (ok: bool, c: Cert)
      requires Valid() && IsBatch(batch, tCerts.Length)
      modifies this, tCerts
      ensures Valid()
      ensures var s := Step(State(true, [Handle(old(Contents()), shared)], [], [], issued), tCerts.Length, GetNext(0, batch));
              Contents() == s.handles[0].pool && s.handed == (if ok then [c] else [])
    {
      if len <= 0 {
        var err := GetTCertsFromTCA(issued, batch);
        if err {
          return false, 0;
        }
      }
      c := tCerts[len - 1];
      len := len - 1;
      ok := true;
    }

    /** `Stop`: what is left goes to the table; the pool itself is left as it is. */
    method ShutDown(begins: bool, inserts: nat -> bool, commits: bool) returns (saved: bool)
      requires Valid()
      modifies ks
      ensures Valid() && Contents() == old(Contents())
      ensures saved <==> Contents() == [] || (begins && commits && forall i :: 0 <= i < len ==> inserts(i))
      ensures var s := Step(State(true, [Handle(Contents(), false)], old(ks.rows), [], 0), tCerts.Length, Stop(saved));
              ks.rows == s.stored && s.handles == [Handle(Contents(), saved)]
    {
      saved := ks.StoreUnusedTCerts(tCerts[..len], begins, inserts, commits);
    }
  }

  lemma {:induction false} FilterShrinks(certs: seq<Cert>, keep: Cert -> bool)
    ensures |Filter(certs, keep)| <= |certs|
    decreases |certs|
  {
    if certs != [] {
      FilterShrinks(certs[..|certs| - 1], keep);
    }
  }
}
