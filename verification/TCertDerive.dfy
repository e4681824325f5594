/** Transaction certificates: the certificate authority and the client derive the same key
    independently, the one from the enrollment public key, the other from the enrollment
    secret.  The curve is any cyclic group, the mac and cipher any functions that fit. */
module TCertDerive {
  import opened Common
  import opened Codec

  // A cyclic group written additively, as the curve library presents it.
  datatype Curve<!P(==)> = Curve(order: nat, add: (P, P) -> P, scalarBaseMult: nat -> P, isOnCurve: P -> bool)

  /** Addition of two scalars below the order, modulo the order. */
  function Sum(a: nat, b: nat, order: nat): nat {
    if a + b < order then a + b else a + b - order
  }

  /** Multiples of the base point add up modulo the order, are distinct below it, and all
      but the neutral one pass the library's test for points of the curve. */
  ghost predicate LawfulCurve<P(!new)>(c: Curve<P>) {
    && c.order > 2
    && (forall a: nat, b: nat :: a < c.order && b < c.order ==>
          c.add(c.scalarBaseMult(a), c.scalarBaseMult(b)) == c.scalarBaseMult(Sum(a, b, c.order)))
    && (forall a: nat, b: nat :: a < c.order && b < c.order && c.scalarBaseMult(a) == c.scalarBaseMult(b) ==> a == b)
    && (forall a: nat :: a < c.order ==> (c.isOnCurve(c.scalarBaseMult(a)) <==> a != 0))
  }

  datatype Crypto = Crypto(
    hmac: (Bytes, Bytes) -> Bytes,
    truncate: Bytes -> Bytes,
    encrypt: (Bytes, Bytes, Bytes) -> Bytes,        // key, initialisation vector, plain text
    decrypt: (Bytes, Bytes) -> Option<Bytes>,
    toInt: Bytes -> nat)

  ghost predicate LawfulCrypto(x: Crypto) {
    forall key: Bytes, iv: Bytes, pt: Bytes :: x.decrypt(key, x.encrypt(key, iv, pt)) == Some(pt)
  }

  // A certificate, as far as the client looks at it: whether it parses, has the index
  // extension and chains to the root, its public key and the encrypted index.
  datatype Cert<P> = Cert(genuine: bool, pub: P, index: Bytes)

  // ---------------------------------------------------------------- the derivation

  function EncryptKey(x: Crypto, kdfKey: Bytes): Bytes {
    x.truncate(x.hmac(kdfKey, [1]))
  }

  function ExpansionKey(x: Crypto, kdfKey: Bytes): Bytes {
    x.hmac(kdfKey, [2])
  }

  /** The scalar of an index: a mac, reduced into [1, N-1]. */
  function Scalar(x: Crypto, order: nat, kdfKey: Bytes, index: Bytes): (k: nat)
    requires order > 2
    ensures 1 <= k < order
  {
    x.toInt(x.hmac(ExpansionKey(x, kdfKey), index)) % (order - 1) + 1
  }

  /** The client's secret for an index. */
  function DerivedSecret(d: nat, k: nat, order: nat): (s: nat)
    requires order > 2
    ensures s < order
  {
    (d + k) % order
  }

  /** Both sides arrive at the same public key, it belongs to the client's secret, and it is
      not the enrollment key. */
  lemma DerivationAgrees<P(!new)>(c: Curve<P>, x: Crypto, d: nat, kdfKey: Bytes, index: Bytes)
    requires LawfulCurve(c) && 0 < d < c.order
    ensures var k := Scalar(x, c.order, kdfKey, index);
            var q := c.scalarBaseMult(d);
            var pub := c.add(q, c.scalarBaseMult(k));
            c.scalarBaseMult(DerivedSecret(d, k, c.order)) == pub && pub != q
  {
    var k := Scalar(x, c.order, kdfKey, index);
    SecretIsSum(d, k, c.order);
    SumsAgree(c, d, k);
  }

  lemma ModOnce(a: nat, n: nat)
    requires 0 < n <= a < 2 * n
    ensures a % n == a - n
  {
    assert a / n == 1;
  }

  lemma SecretIsSum(d: nat, k: nat, order: nat)
    requires 0 < d < order && 0 < k < order && order > 2
    ensures DerivedSecret(d, k, order) == Sum(d, k, order)
  {
    if d + k >= order {
      ModOnce(d + k, order);
    }
  }

  lemma SumsAgree<P(!new)>(c: Curve<P>, d: nat, k: nat)
    requires LawfulCurve(c) && 0 < d < c.order && 0 < k < c.order
    ensures var pub := c.add(c.scalarBaseMult(d), c.scalarBaseMult(k));
            && pub == c.scalarBaseMult(Sum(d, k, c.order)) && pub != c.scalarBaseMult(d)
            && (c.isOnCurve(pub) <==> k != c.order - d)
  {
  }

  // ---------------------------------------------------------------- indices

  /** A counter in decimal digits. */
  function Itoa(n: nat): (s: Bytes)
    ensures s != []
  {
    if n < 10 then [48 + n] else Itoa(n / 10) + [48 + n % 10]
  }

  lemma {:induction false} ItoaInjective(m: nat, n: nat)
    requires Itoa(m) == Itoa(n)
    ensures m == n
    decreases m + n
  {
    var s, t := Itoa(m), Itoa(n);
    assert s[|s| - 1] == t[|t| - 1];
    assert s[..|s| - 1] == t[..|t| - 1];
    if m >= 10 && n >= 10 {
      assert s[..|s| - 1] == Itoa(m / 10) && t[..|t| - 1] == Itoa(n / 10);
      ItoaInjective(m / 10, n / 10);
    }
  }

  /** The index of the i-th certificate of a set. */
  function TCertIndex(i: nat, nonce: Bytes): Bytes {
    Itoa(i) + nonce
  }

  /** No two certificates share an index, within a set or between sets with different
      nonces. */
  lemma IndexInjective(i: nat, nonce: Bytes, j: nat, nonce': Bytes)
    requires |nonce| == |nonce'| == 16 && TCertIndex(i, nonce) == TCertIndex(j, nonce')
    ensures i == j && nonce == nonce'
  {
    var a, b := TCertIndex(i, nonce), TCertIndex(j, nonce');
    assert a[|a| - 16..] == nonce && b[|b| - 16..] == nonce';
    assert a[..|a| - 16] == Itoa(i) && b[..|b| - 16] == Itoa(j);
    ItoaInjective(i, j);
  }

  // ---------------------------------------------------------------- the authority

  function SetSize(num: nat): nat {
    if num == 0 then 1 else num
  }

  function CertFor<P>(c: Curve<P>, x: Crypto, q: P, kdfKey: Bytes, index: Bytes, iv: Bytes): Cert<P>
    requires c.order > 2
  {
    Cert(true, c.add(q, c.scalarBaseMult(Scalar(x, c.order, kdfKey, index))), x.encrypt(EncryptKey(x, kdfKey), iv, index))
  }

  /** A set of certificates as an honest authority issues it. */
  ghost predicate Issued<P>(c: Curve<P>, x: Crypto, q: P, kdfKey: Bytes, nonce: Bytes, ivs: nat -> Bytes, certs: seq<Cert<P>>)
    requires c.order > 2
  {
    forall i :: 0 <= i < |certs| ==> certs[i] == CertFor(c, x, q, kdfKey, TCertIndex(i, nonce), ivs(i))
  }

  method CreateCertificateSet<P>(c: Curve<P>, x: Crypto, hmacKey: Bytes, q: P, qBytes: Bytes, num: nat, nonce: Bytes, ivs: nat -> Bytes)
    returns (kdfKey: Bytes, set_: seq<Cert<P>>)
    requires c.order > 2
    ensures kdfKey == x.hmac(hmacKey, qBytes) && |set_| == SetSize(num) && Issued(c, x, q, kdfKey, nonce, ivs, set_)
  {
    kdfKey := x.hmac(hmacKey, qBytes);
    var n := if num == 0 then 1 else num;
    set_ := [];
    var i := 0;
    while i < n
      invariant 0 <= i <= n && |set_| == i && Issued(c, x, q, kdfKey, nonce, ivs, set_)
    {
      var index := TCertIndex(i, nonce);
      var extKey := EncryptKey(x, kdfKey);
      var k := x.toInt(x.hmac(ExpansionKey(x, kdfKey), index)) % (c.order - 1) + 1;
      var tmp := c.scalarBaseMult(k);
      set_ := set_ + [Cert(true, c.add(q, tmp), x.encrypt(extKey, ivs(i), index))];
      i := i + 1;
    }
  }

  // ---------------------------------------------------------------- the client

  // A certificate the client has accepted, with the secret it derived for it.
  datatype TCert<P> = TCert(cert: Cert<P>, secret: nat)

  /** `getTCertFromDER`: the certificate with its secret, unless some check fails. */
  function Validate<P(==)>(c: Curve<P>, x: Crypto, d: nat, kdfKey: Bytes, cert: Cert<P>): Option<TCert<P>>
    requires c.order > 2
  {
    if !cert.genuine then None
    else
      match x.decrypt(EncryptKey(x, kdfKey), cert.index)
      case None => None
      case Some(index) =>
        var k := Scalar(x, c.order, kdfKey, index);
        var pub := c.add(c.scalarBaseMult(d), c.scalarBaseMult(k));
        if !c.isOnCurve(pub) || cert.pub != pub then None
        else Some(TCert(cert, DerivedSecret(d, k, c.order)))
  }

  /** Whatever certificate is offered, one that is accepted comes with the secret of its
      public key, which is a proper scalar and not that of the enrollment key. */
  lemma AcceptedIsSound<P(!new)>(c: Curve<P>, x: Crypto, d: nat, kdfKey: Bytes, cert: Cert<P>)
    requires LawfulCurve(c) && 0 < d < c.order && Validate(c, x, d, kdfKey, cert).Some?
    ensures var t := Validate(c, x, d, kdfKey, cert).value;
            && t.cert == cert && 0 < t.secret < c.order
            && c.scalarBaseMult(t.secret) == cert.pub && cert.pub != c.scalarBaseMult(d)
  {
    var k := Scalar(x, c.order, kdfKey, x.decrypt(EncryptKey(x, kdfKey), cert.index).value);
    SecretIsSum(d, k, c.order);
    SumsAgree(c, d, k);
  }

  /** An honest certificate is accepted exactly unless its scalar is the inverse of the
      enrollment secret. */
  lemma HonestAcceptedIff<P(!new)>(c: Curve<P>, x: Crypto, d: nat, kdfKey: Bytes, index: Bytes, iv: Bytes)
    requires LawfulCurve(c) && LawfulCrypto(x) && 0 < d < c.order
    ensures var cert := CertFor(c, x, c.scalarBaseMult(d), kdfKey, index, iv);
            Validate(c, x, d, kdfKey, cert).Some? <==> Scalar(x, c.order, kdfKey, index) != c.order - d
  {
    SumsAgree(c, d, Scalar(x, c.order, kdfKey, index));
  }

  /** The accepted certificates of a set, in order. */
  function Accepted<P(==)>(c: Curve<P>, x: Crypto, d: nat, kdfKey: Bytes, certs: seq<Cert<P>>): seq<TCert<P>>
    requires c.order > 2
  {
    if certs == [] then []
    else
      var last := certs[|certs| - 1];
      var init := Accepted(c, x, d, kdfKey, certs[..|certs| - 1]);
      match Validate(c, x, d, kdfKey, last)
      case None => init
      case Some(t) => init + [t]
  }

  /** Accepted, with the secret of its public key. */
  predicate Usable<P(==)>(c: Curve<P>, x: Crypto, d: nat, kdfKey: Bytes, cert: Cert<P>)
    requires c.order > 2
  {
    match Validate(c, x, d, kdfKey, cert)
    case None => false
    case Some(t) => t.cert == cert && c.scalarBaseMult(t.secret) == cert.pub
  }

  lemma {:induction false} UsableSetAccepted<P>(c: Curve<P>, x: Crypto, d: nat, kdfKey: Bytes, certs: seq<Cert<P>>)
    requires c.order > 2 && forall i :: 0 <= i < |certs| ==> Usable(c, x, d, kdfKey, certs[i])
    ensures var ts := Accepted(c, x, d, kdfKey, certs);
            |ts| == |certs| && forall i :: 0 <= i < |ts| ==> ts[i].cert == certs[i] && c.scalarBaseMult(ts[i].secret) == certs[i].pub
    decreases |certs|
  {
    if certs != [] {
      UsableSetAccepted(c, x, d, kdfKey, certs[..|certs| - 1]);
    }
  }

  /** Every honest set is accepted whole and in order, as long as no scalar is the inverse
      of the enrollment secret. */
  lemma HonestSetAccepted<P(!new)>(c: Curve<P>, x: Crypto, d: nat, kdfKey: Bytes, nonce: Bytes, ivs: nat -> Bytes, certs: seq<Cert<P>>)
    requires LawfulCurve(c) && LawfulCrypto(x) && 0 < d < c.order
    requires Issued(c, x, c.scalarBaseMult(d), kdfKey, nonce, ivs, certs)
    requires forall i :: 0 <= i < |certs| ==> Scalar(x, c.order, kdfKey, TCertIndex(i, nonce)) != c.order - d
    ensures var ts := Accepted(c, x, d, kdfKey, certs);
            |ts| == |certs| && forall i :: 0 <= i < |ts| ==> ts[i].cert == certs[i] && c.scalarBaseMult(ts[i].secret) == certs[i].pub
  {
    forall i | 0 <= i < |certs| ensures Usable(c, x, d, kdfKey, certs[i]) {
      HonestAcceptedIff(c, x, d, kdfKey, TCertIndex(i, nonce), ivs(i));
      AcceptedIsSound(c, x, d, kdfKey, certs[i]);
    }
    UsableSetAccepted(c, x, d, kdfKey, certs);
  }

  // The loop indexes the reply without looking at its length: a short one ends in a panic.
  datatype Refill<P> = KeysDiffer | NoneValid | Added(tcerts: seq<TCert<P>>) | Panicked(tcerts: seq<TCert<P>>)

  /** `getTCertsFromTCA` on a reply: the key must stay the same, certificates that fail a
      check are skipped, and at least one has to be left. */
  method GetTCertsFromTCA<P(==)>(c: Curve<P>, x: Crypto, d: nat, known: Option<Bytes>, num: nat, kdfKey: Bytes, certs: seq<Cert<P>>)
    returns (r: Refill<P>, key: Option<Bytes>)
    requires c.order > 2
    ensures r.KeysDiffer? <==> known.Some? && known.value != kdfKey
    ensures key == if r.KeysDiffer? then known else Some(kdfKey)
    ensures !r.KeysDiffer? ==>
              r == if |certs| < num then Panicked(Accepted(c, x, d, kdfKey, certs))
                   else
                     var ts := Accepted(c, x, d, kdfKey, certs[..num]);
                     if ts == [] then NoneValid else Added(ts)
  {
    if known.Some? && known.value != kdfKey {
      return KeysDiffer, known;
    }
    key := Some(kdfKey);
    var encryptKey, expansionKey := EncryptKey(x, kdfKey), ExpansionKey(x, kdfKey);
    var added: seq<TCert<P>> := [];
    var j := 0;
    for i := 0 to num
      invariant i <= |certs| && added == Accepted(c, x, d, kdfKey, certs[..i]) && j == |added|
    {
      if i >= |certs| {
        assert certs[..i] == certs;
        return Panicked(added), key;
      }
      assert certs[..i + 1][..i] == certs[..i] && certs[..i + 1][i] == certs[i];
      var cert := certs[i];
      if !cert.genuine {
        continue;
      }
      var pt := x.decrypt(encryptKey, cert.index);
      if pt.None? {
        continue;
      }
      var k := x.toInt(x.hmac(expansionKey, pt.value)) % (c.order - 1) + 1;
      var secret := (d + k) % c.order;
      var pub := c.add(c.scalarBaseMult(d), c.scalarBaseMult(k));
      if !c.isOnCurve(pub) {
        continue;
      }
      if cert.pub != pub {
        continue;
      }
      j := j + 1;
      added := added + [TCert(cert, secret)];
    }
    assert certs[..num][..num] == certs[..num];
    r := if j == 0 then NoneValid else Added(added);
  }
}
