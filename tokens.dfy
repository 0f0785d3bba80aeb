/** Session tokens: the claims the server signs at login, their verification
    against the clock, and the store of revoked tokens that logout fills and
    the database's TTL monitor empties. */
module Tokens {
  import opened Values

  /** The payload of a token: the user's id, issued-at and expiry, in whole seconds. */
  datatype Claims = Claims(id: Id, iat: nat, exp: nat)

  const Day: nat := 24 * 60 * 60

  /** `expiresIn: '7d'`, in seconds. */
  const Lifetime: nat := 7 * Day

  /** `Math.floor(now / 1000)`: the clock in whole seconds, as the token library reads it. */
  function Seconds(now: Millis): nat {
    now / 1000
  }

  /** The claims of `jwt.sign({ id }, secret, { expiresIn: '7d' })` at time `now`. */
  function Issue(id: Id, now: Millis): (c: Claims)
    ensures c.id == id
    ensures c.iat * 1000 <= now < c.iat * 1000 + 1000
    ensures c.exp == c.iat + Lifetime
  {
    Claims(id, Seconds(now), Seconds(now) + Lifetime)
  }

  /** The token codec under the server's secret: `sign` serialises and signs
      claims, `decode` checks a signature and parses. The secret and the HMAC
      are not modelled; `Sound` is the one property the core relies on. */
  datatype Signer = Signer(sign: Claims -> string, decode: string -> Option<Claims>)

  /** A signed token decodes to the claims it was signed with. */
  ghost predicate Sound(k: Signer) {
    forall c :: k.decode(k.sign(c)) == Some(c)
  }

  /** `jwt.verify`: the claims of a correctly signed token whose expiry second has not been reached. */
  function Verify(k: Signer, token: string, now: Millis): (r: Option<Claims>)
    ensures r.Some? ==> k.decode(token) == r && Seconds(now) < r.value.exp
    ensures r.None? ==> k.decode(token).None? || k.decode(token).value.exp <= Seconds(now)
  {
    match k.decode(token)
    case None => None
    case Some(c) => if Seconds(now) < c.exp then Some(c) else None
  }

  /** A token issued at `t0` verifies exactly until the end of its seventh day:
      at every moment up to one second before `t0` plus seven days, and at no
      moment from `t0` plus seven days on. */
  lemma IssuedTokenLifetime(k: Signer, id: Id, t0: Millis, now: Millis)
    requires Sound(k) && t0 <= now
    ensures var v := Verify(k, k.sign(Issue(id, t0)), now);
      (v.Some? <==> Seconds(now) < Seconds(t0) + Lifetime) &&
      (v.Some? ==> v.value.id == id)
    ensures now + 1000 <= t0 + Lifetime * 1000 ==> Verify(k, k.sign(Issue(id, t0)), now).Some?
    ensures t0 + Lifetime * 1000 <= now ==> Verify(k, k.sign(Issue(id, t0)), now).None?
  {
  }

  /** A token whose expiry instant, in milliseconds, has been reached no longer verifies. */
  lemma ExpiredNeverVerifies(k: Signer, token: string, now: Millis)
    requires k.decode(token).Some? && k.decode(token).value.exp * 1000 <= now
    ensures Verify(k, token, now).None?
  {
  }

  /** Every revocation entry expires with its token: `expiresAt = exp * 1000`. */
  ghost predicate Tracks(k: Signer, entries: map<string, Millis>) {
    forall t :: t in entries ==> k.decode(t).Some? && entries[t] == k.decode(t).value.exp * 1000
  }

  /** `after` is what the TTL monitor may leave of `before` at time `at`: it
      deletes only entries whose `expiresAt` lies before `at`. */
  ghost predicate Swept(before: map<string, Millis>, after: map<string, Millis>, at: Millis) {
    (forall t :: t in after ==> t in before && after[t] == before[t]) &&
    (forall t :: t in before && t !in after ==> before[t] < at)
  }

  /** Purging never re-admits a revoked token: from the sweep on, a token that
      was revoked is either still listed or no longer verifies. */
  lemma RevokedStaysRejected(k: Signer, before: map<string, Millis>, after: map<string, Millis>,
                             at: Millis, t: string, later: Millis)
    requires Tracks(k, before) && Swept(before, after, at)
    requires t in before && at <= later
    ensures t in after || Verify(k, t, later).None?
  {
    if t !in after {
      ExpiredNeverVerifies(k, t, later);
    }
  }

  /** The revoked-token collection: each token at most once (a unique index),
      with the instant at which the TTL monitor may delete it. */
  class Revocations {
    var entries: map<string, Millis>

    constructor ()
      ensures entries == map[]
    {
      entries := map[];
    }

    /** `findOne({ token })` on the revocation collection. */
    predicate IsRevoked(token: string)
      reads this
      ensures IsRevoked(token) <==> token in entries.Keys
    {
      token in entries
    }

    /** Inserts `token`; a second insertion of the same token is a duplicate-key error. */
    method Add(token: string, expiresAt: Millis) returns (ok: bool)
      modifies this
      ensures ok <==> token !in old(entries)
      ensures entries == if ok then old(entries)[token := expiresAt] else old(entries)
    {
      ok := token !in entries;
      if ok {
        entries := entries[token := expiresAt];
      }
    }

    /** One pass of the TTL monitor at time `now`, deleting the expired entries in `due`. */
    method Sweep(now: Millis, due: set<string>)
      requires forall t :: t in due && t in entries ==> entries[t] < now
      modifies this
      ensures Swept(old(entries), entries, now)
      ensures entries == map t | t in old(entries) && t !in due :: old(entries)[t]
    {
      entries := map t | t in entries && t !in due :: entries[t];
    }
  }
}
