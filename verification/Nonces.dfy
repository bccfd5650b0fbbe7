/** Request authentication in the ntfy provisioner (provisioner/main.go, authenticate): the timestamp
    window and the table of used nonces. Times are nanoseconds. */
module Nonces {
  const MINUTE: int := 60_000_000_000
  const WINDOW: int := 5 * MINUTE
  const NONCE_TTL: int := 10 * MINUTE

  datatype Stamp = Missing | Unreadable | At(time: int)

  /** `genuine`: the signature is the keyed digest of this timestamp, nonce and body. */
  datatype Request = Request(stamp: Stamp, nonce: string, signed: bool, genuine: bool)

  datatype Verdict = Accepted | MissingHeaders | InvalidTimestamp | OutsideWindow | InvalidSignature | NonceUsed

  /** The checks made before the table is looked at; Accepted when all of them pass. */
  function Screen(r: Request, now: int): Verdict {
    if r.stamp.Missing? || |r.nonce| < 16 || !r.signed then MissingHeaders
    else if r.stamp.Unreadable? then InvalidTimestamp
    else if r.stamp.time < now - WINDOW || now + WINDOW < r.stamp.time then OutsideWindow
    else if !r.genuine then InvalidSignature
    else Accepted
  }

  function Sweep(nonces: map<string, int>, now: int): map<string, int> {
    map n | n in nonces && now <= nonces[n] :: nonces[n]
  }

  /** One request against the table, with nonces kept for `ttl`. */
  function Judge(nonces: map<string, int>, r: Request, now: int, ttl: int): (map<string, int>, Verdict) {
    if Screen(r, now) != Accepted then (nonces, Screen(r, now))
    else if r.nonce in Sweep(nonces, now) then (Sweep(nonces, now), NonceUsed)
    else (Sweep(nonces, now)[r.nonce := now + ttl], Accepted)
  }

  // ---------------------------------------------------------------------------
  // Histories of requests

  datatype Arrival = Arrival(request: Request, now: int)

  /** The clock does not run backwards between requests. */
  ghost predicate InOrder(h: seq<Arrival>) {
    forall i, j :: 0 <= i < j < |h| ==> h[i].now <= h[j].now
  }

  ghost function Table(h: seq<Arrival>, ttl: int): map<string, int> {
    if h == [] then map[]
    else var last := h[|h| - 1]; Judge(Table(h[..|h| - 1], ttl), last.request, last.now, ttl).0
  }

  ghost predicate AcceptedAt(h: seq<Arrival>, i: nat, ttl: int)
    requires i < |h|
  {
    Judge(Table(h[..i], ttl), h[i].request, h[i].now, ttl).1 == Accepted
  }

  /** Request `i` was accepted and carried nonce `n`. */
  ghost predicate Used(h: seq<Arrival>, i: nat, n: string, ttl: int)
    requires i < |h|
  {
    AcceptedAt(h, i, ttl) && h[i].request.nonce == n
  }

  /** Every entry of the table comes from an accepted request. */
  ghost predicate EntriesAreUses(h: seq<Arrival>, ttl: int) {
    forall n :: n in Table(h, ttl) ==> exists i :: 0 <= i < |h| && Used(h, i, n, ttl) && Table(h, ttl)[n] == h[i].now + ttl
  }

  /** A use of a nonce is still in the table, or out of date at `now`. */
  ghost predicate Kept(table: map<string, int>, use: Arrival, now: int, ttl: int) {
    (use.request.nonce in table && use.now + ttl <= table[use.request.nonce]) || use.now + ttl < now
  }

  /** Every accepted nonce is in the table until its time has passed. */
  ghost predicate UsesAreKept(h: seq<Arrival>, ttl: int) {
    forall i :: 0 <= i < |h| && AcceptedAt(h, i, ttl) ==> Kept(Table(h, ttl), h[i], h[|h| - 1].now, ttl)
  }

  lemma UsedBefore(h: seq<Arrival>, k: nat, i: nat, n: string, ttl: int)
    requires i < k <= |h|
    ensures Used(h[..k], i, n, ttl) == Used(h, i, n, ttl) && AcceptedAt(h[..k], i, ttl) == AcceptedAt(h, i, ttl)
  {
    assert h[..k][..i] == h[..i];
  }

  lemma EntryIsUse(h: seq<Arrival>, n: string, ttl: nat)
    requires h != [] && EntriesAreUses(h[..|h| - 1], ttl) && n in Table(h, ttl)
    ensures exists i :: 0 <= i < |h| && Used(h, i, n, ttl) && Table(h, ttl)[n] == h[i].now + ttl
  {
    var k := |h| - 1;
    var table := Table(h[..k], ttl);
    if AcceptedAt(h, k, ttl) && n == h[k].request.nonce {
      assert Used(h, k, n, ttl);
    } else {
      assert n in table && Table(h, ttl)[n] == table[n];
      var i :| 0 <= i < k && Used(h[..k], i, n, ttl) && table[n] == h[..k][i].now + ttl;
      UsedBefore(h, k, i, n, ttl);
    }
  }

  lemma JudgeStores(table: map<string, int>, next: Arrival, ttl: nat)
    requires Judge(table, next.request, next.now, ttl).1 == Accepted
    ensures Kept(Judge(table, next.request, next.now, ttl).0, next, next.now, ttl)
  {
  }

  lemma UseIsKept(h: seq<Arrival>, i: nat, ttl: nat)
    requires InOrder(h) && i < |h| - 1 && Kept(Table(h[..|h| - 1], ttl), h[i], h[|h| - 2].now, ttl)
    ensures Kept(Table(h, ttl), h[i], h[|h| - 1].now, ttl)
  {
  }

  lemma {:induction false} TableMeansUses(h: seq<Arrival>, ttl: nat)
    requires InOrder(h)
    ensures EntriesAreUses(h, ttl) && UsesAreKept(h, ttl)
  {
    if h != [] {
      TableMeansUses(h[..|h| - 1], ttl);
      forall n | n in Table(h, ttl)
        ensures exists i :: 0 <= i < |h| && Used(h, i, n, ttl) && Table(h, ttl)[n] == h[i].now + ttl
      {
        EntryIsUse(h, n, ttl);
      }
      forall i | 0 <= i < |h| && AcceptedAt(h, i, ttl)
        ensures Kept(Table(h, ttl), h[i], h[|h| - 1].now, ttl)
      {
        var k := |h| - 1;
        if i == k {
          JudgeStores(Table(h[..k], ttl), h[k], ttl);
        } else {
          UsedBefore(h, k, i, h[i].request.nonce, ttl);
          assert Kept(Table(h[..k], ttl), h[..k][i], h[..k][k - 1].now, ttl);
          UseIsKept(h, i, ttl);
        }
      }
    }
  }

  lemma EntrySource(h: seq<Arrival>, n: string, ttl: nat) returns (i: nat)
    requires InOrder(h) && n in Table(h, ttl)
    ensures i < |h| && Used(h, i, n, ttl) && Table(h, ttl)[n] == h[i].now + ttl
  {
    TableMeansUses(h, ttl);
    i :| 0 <= i < |h| && Used(h, i, n, ttl) && Table(h, ttl)[n] == h[i].now + ttl;
  }

  lemma UseKept(h: seq<Arrival>, i: nat, ttl: nat)
    requires InOrder(h) && i < |h| && AcceptedAt(h, i, ttl)
    ensures Kept(Table(h, ttl), h[i], h[|h| - 1].now, ttl)
  {
    TableMeansUses(h, ttl);
  }

  lemma SweptIsUsed(h: seq<Arrival>, i: nat, ttl: nat) returns (j: nat)
    requires InOrder(h) && i < |h| && h[i].request.nonce in Sweep(Table(h[..i], ttl), h[i].now)
    ensures j < i && Used(h, j, h[i].request.nonce, ttl) && h[i].now <= h[j].now + ttl
  {
    j := EntrySource(h[..i], h[i].request.nonce, ttl);
    UsedBefore(h, i, j, h[i].request.nonce, ttl);
  }

  lemma UseIsSwept(h: seq<Arrival>, i: nat, j: nat, ttl: nat)
    requires InOrder(h) && j < i < |h| && Used(h, j, h[i].request.nonce, ttl)
    requires h[i].request.nonce !in Sweep(Table(h[..i], ttl), h[i].now)
    ensures h[j].now + ttl < h[i].now
  {
    UsedBefore(h, i, j, h[i].request.nonce, ttl);
    UseKept(h[..i], j, ttl);
  }

  lemma FreshIff(h: seq<Arrival>, i: nat, ttl: nat)
    requires InOrder(h) && i < |h|
    ensures h[i].request.nonce !in Sweep(Table(h[..i], ttl), h[i].now)
      <==> forall j :: 0 <= j < i && Used(h, j, h[i].request.nonce, ttl) ==> h[j].now + ttl < h[i].now
  {
    if h[i].request.nonce in Sweep(Table(h[..i], ttl), h[i].now) {
      var j := SweptIsUsed(h, i, ttl);
    } else {
      forall j | 0 <= j < i && Used(h, j, h[i].request.nonce, ttl)
        ensures h[j].now + ttl < h[i].now
      {
        UseIsSwept(h, i, j, ttl);
      }
    }
  }

  const SECOND: int := 1_000_000_000

  /** A request is accepted exactly when it has a readable timestamp within five minutes to either side of the
      clock, a nonce of at least sixteen characters and a genuine signature, and its nonce was not accepted within
      the last `ttl`: expired entries are the only thing the table forgets. */
  lemma AcceptedIff(h: seq<Arrival>, i: nat, ttl: nat)
    requires InOrder(h) && i < |h|
    ensures AcceptedAt(h, i, ttl) <==>
      var r, now := h[i].request, h[i].now;
      && r.stamp.At? && now - 300 * SECOND <= r.stamp.time <= now + 300 * SECOND
      && 16 <= |r.nonce| && r.signed && r.genuine
      && forall j :: 0 <= j < i && Used(h, j, r.nonce, ttl) ==> h[j].now + ttl < now
  {
    FreshIff(h, i, ttl);
  }

  /** Which verdict a request gets, in the order of the checks, and what it does to the table: a request refused
      before the table is looked at leaves it alone, later ones drop the entries that expired before now, and an
      acceptance adds the nonce for ten minutes. */
  lemma VerdictMeans(table: map<string, int>, r: Request, now: int)
    ensures var (after, verdict) := Judge(table, r, now, NONCE_TTL);
      var complete := !r.stamp.Missing? && 16 <= |r.nonce| && r.signed;
      var timely := r.stamp.At? && now - 300 * SECOND <= r.stamp.time <= now + 300 * SECOND;
      var known := r.nonce in table && now <= table[r.nonce];
      && (verdict == MissingHeaders <==> !complete)
      && (verdict == InvalidTimestamp <==> complete && r.stamp.Unreadable?)
      && (verdict == OutsideWindow <==> complete && r.stamp.At? && !timely)
      && (verdict == InvalidSignature <==> complete && timely && !r.genuine)
      && (verdict == NonceUsed <==> complete && timely && r.genuine && known)
      && (verdict == Accepted <==> complete && timely && r.genuine && !known)
      && (verdict != Accepted && verdict != NonceUsed ==> after == table)
      && (verdict == Accepted || verdict == NonceUsed ==>
            forall n :: n != r.nonce ==> (n in after <==> n in table && now <= table[n]) && (n in after ==> after[n] == table[n]))
      && (verdict == NonceUsed ==> r.nonce in after && after[r.nonce] == table[r.nonce])
      && (verdict == Accepted ==> r.nonce in after && after[r.nonce] == now + 600 * SECOND)
  {
  }

  /** Two accepted requests with one nonce are more than ten minutes apart, so the later one cannot carry the
      timestamp of the earlier one. */
  lemma ReusesAreApart(h: seq<Arrival>, i: nat, j: nat)
    requires InOrder(h) && i < j < |h| && h[i].request.nonce == h[j].request.nonce
    requires AcceptedAt(h, i, NONCE_TTL) && AcceptedAt(h, j, NONCE_TTL)
    ensures h[i].now + NONCE_TTL < h[j].now
    ensures h[i].request.stamp.At? && h[j].request.stamp.At? && h[i].request.stamp.time < h[j].request.stamp.time
  {
    AcceptedIff(h, j, NONCE_TTL);
    assert Used(h, i, h[j].request.nonce, NONCE_TTL);
  }

  lemma AcceptedLeavesNoneExpired(table: map<string, int>, r: Request, now: int, n: string)
    requires Judge(table, r, now, NONCE_TTL).1 == Accepted && n in Judge(table, r, now, NONCE_TTL).0
    ensures now <= Judge(table, r, now, NONCE_TTL).0[n]
  {
  }

  lemma EntryNotTooFar(h: seq<Arrival>, n: string)
    requires InOrder(h) && h != [] && n in Table(h, NONCE_TTL)
    ensures Table(h, NONCE_TTL)[n] <= h[|h| - 1].now + NONCE_TTL
  {
  }

  /** After an acceptance every stored nonce expires between now and ten minutes from now. */
  lemma StoredWithinWindow(h: seq<Arrival>, n: string)
    requires InOrder(h) && h != [] && AcceptedAt(h, |h| - 1, NONCE_TTL) && n in Table(h, NONCE_TTL)
    ensures h[|h| - 1].now <= Table(h, NONCE_TTL)[n] <= h[|h| - 1].now + NONCE_TTL
  {
    EntryNotTooFar(h, n);
    AcceptedLeavesNoneExpired(Table(h[..|h| - 1], NONCE_TTL), h[|h| - 1].request, h[|h| - 1].now, n);
  }

  /** Some request was accepted twice. */
  ghost predicate Replayed(h: seq<Arrival>, ttl: int) {
    exists i, j :: 0 <= i < j < |h| && h[i].request == h[j].request && AcceptedAt(h, i, ttl) && AcceptedAt(h, j, ttl)
  }

  /** Ten minutes is exactly what a window of five minutes to either side needs: keeping nonces for less lets
      some request through twice, and keeping them that long lets none. */
  lemma NoReplayIff(ttl: nat)
    ensures (forall h :: InOrder(h) ==> !Replayed(h, ttl)) <==> NONCE_TTL <= ttl
  {
    if ttl < NONCE_TTL {
      var r := Request(At(0), "0123456789abcdef", true, true);
      var h := [Arrival(r, -WINDOW), Arrival(r, WINDOW)];
      assert h[..0] == [] && h[..1] == [h[0]] && h[..1][..0] == [];
      assert Table(h[..1], ttl) == map[r.nonce := ttl - WINDOW];
      assert AcceptedAt(h, 0, ttl) && AcceptedAt(h, 1, ttl);
      assert InOrder(h) && Replayed(h, ttl);
    } else {
      forall h: seq<Arrival> | InOrder(h)
        ensures !Replayed(h, ttl)
      {
        forall i, j | 0 <= i < j < |h| && h[i].request == h[j].request && AcceptedAt(h, i, ttl)
          ensures !AcceptedAt(h, j, ttl)
        {
          AcceptedIff(h, i, ttl);
          AcceptedIff(h, j, ttl);
          assert Used(h, i, h[j].request.nonce, ttl);
        }
      }
    }
  }

  // ---------------------------------------------------------------------------
  // The server

  class Guard {
    var nonces: map<string, int>

    constructor ()
      ensures nonces == map[]
    {
      nonces := map[];
    }

    method Authenticate(r: Request, now: int) returns (verdict: Verdict)
      modifies this
      ensures (nonces, verdict) == Judge(old(nonces), r, now, NONCE_TTL)
    {
      if r.stamp.Missing? || |r.nonce| < 16 || !r.signed {
        return MissingHeaders;
      }
      if r.stamp.Unreadable? {
        return InvalidTimestamp;
      }
      if r.stamp.time < now - WINDOW || r.stamp.time > now + WINDOW {
        return OutsideWindow;
      }
      if !r.genuine {
        return InvalidSignature;
      }
      RemoveExpired(now);
      if r.nonce in nonces {
        return NonceUsed;
      }
      nonces := nonces[r.nonce := now + NONCE_TTL];
      verdict := Accepted;
    }

    method RemoveExpired(now: int)
      modifies this
      ensures nonces == Sweep(old(nonces), now)
    {
      var todo := nonces.Keys;
      while todo != {}
        invariant todo <= nonces.Keys <= old(nonces).Keys
        invariant forall n :: n in nonces ==> nonces[n] == old(nonces)[n]
        invariant forall n :: n in old(nonces) && n !in todo ==> (n in nonces <==> now <= old(nonces)[n])
        decreases todo
      {
        var n :| n in todo;
        todo := todo - {n};
        if nonces[n] < now {
          nonces := nonces - {n};
        }
      }
    }
  }
}
