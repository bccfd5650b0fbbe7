/** Offers: availability, the target offer, the visible median and the offer merge
    (apps/server/src/market-adapters.ts, and findTargetOffer of apps/server/src/market-service.ts). */
module MarketOffers {
  import opened Wrappers

  datatype Expiry = Never | Unreadable | At(time: int)

  /** `details` stands for the descriptive columns that nothing here reads. */
  datatype Offer = Offer(
    externalId: string,
    sourceName: string,
    storeName: Option<string>,
    title: string,
    price: nat,
    currency: string,
    status: string,
    stock: Option<int>,
    url: string,
    expiresAt: Expiry,
    details: seq<Option<string>>)

  /** isAvailableOffer */
  predicate Available(o: Offer, now: int) {
    (o.status == "in_stock" || o.status == "low_stock")
    && match o.expiresAt
       case Never => true
       case Unreadable => false
       case At(time) => time > now
  }

  // ---------------------------------------------------------------------------
  // Sorting

  /** A stable insertion sort. */
  function InsertBy<T>(x: T, sorted: seq<T>, key: T -> int): seq<T> {
    if sorted == [] || key(x) <= key(sorted[0]) then [x] + sorted else [sorted[0]] + InsertBy(x, sorted[1..], key)
  }

  function SortBy<T>(xs: seq<T>, key: T -> int): (r: seq<T>)
    ensures |r| == |xs|
  {
    if xs == [] then []
    else
      InsertAddsOne(xs[0], SortBy(xs[1..], key), key);
      InsertBy(xs[0], SortBy(xs[1..], key), key)
  }

  lemma {:induction false} InsertAddsOne<T>(x: T, sorted: seq<T>, key: T -> int)
    ensures |InsertBy(x, sorted, key)| == |sorted| + 1 && multiset(InsertBy(x, sorted, key)) == multiset{x} + multiset(sorted)
  {
    if sorted != [] && key(x) > key(sorted[0]) {
      InsertAddsOne(x, sorted[1..], key);
      assert sorted == [sorted[0]] + sorted[1..];
    }
  }

  lemma {:induction false} SortPermutes<T>(xs: seq<T>, key: T -> int)
    ensures multiset(SortBy(xs, key)) == multiset(xs)
  {
    if xs != [] {
      SortPermutes(xs[1..], key);
      InsertAddsOne(xs[0], SortBy(xs[1..], key), key);
      assert xs == [xs[0]] + xs[1..];
    }
  }

  predicate Ascending<T>(xs: seq<T>, key: T -> int) {
    forall i, j :: 0 <= i < j < |xs| ==> key(xs[i]) <= key(xs[j])
  }

  lemma {:induction false} InsertKeepsAscending<T>(x: T, sorted: seq<T>, key: T -> int)
    requires Ascending(sorted, key)
    ensures Ascending(InsertBy(x, sorted, key), key)
  {
    if sorted != [] && key(x) > key(sorted[0]) {
      InsertKeepsAscending(x, sorted[1..], key);
      var rest := InsertBy(x, sorted[1..], key);
      InsertAddsOne(x, sorted[1..], key);
      forall j | 0 <= j < |rest| ensures key(sorted[0]) <= key(rest[j]) {
        assert rest[j] in multiset(rest);
        if rest[j] != x { assert rest[j] in sorted[1..]; }
      }
    }
  }

  lemma {:induction false} SortIsAscending<T>(xs: seq<T>, key: T -> int)
    ensures Ascending(SortBy(xs, key), key)
  {
    if xs != [] {
      SortIsAscending(xs[1..], key);
      InsertKeepsAscending(xs[0], SortBy(xs[1..], key), key);
    }
  }

  // ---------------------------------------------------------------------------
  // findTargetOffer

  predicate Qualifies(o: Offer, target: int, currency: string, now: int) {
    o.currency == currency && o.price <= target && Available(o, now)
  }

  function Qualifying(offers: seq<Offer>, target: int, currency: string, now: int): seq<Offer> {
    if offers == [] then []
    else (if Qualifies(offers[0], target, currency, now) then [offers[0]] else []) + Qualifying(offers[1..], target, currency, now)
  }

  function Price(o: Offer): int {
    o.price
  }

  function FindTargetOffer(offers: seq<Offer>, target: int, currency: string, now: int): Option<Offer> {
    var sorted := SortBy(Qualifying(offers, target, currency, now), Price);
    if sorted == [] then None else Some(sorted[0])
  }

  /** The offer is in stock, has not expired, and is in the rule's currency and within its price. */
  predicate Wanted(o: Offer, target: int, currency: string, now: int) {
    && o.status in {"in_stock", "low_stock"} && (o.expiresAt == Never || (o.expiresAt.At? && now < o.expiresAt.time))
    && o.currency == currency && o.price <= target
  }

  /** Offer `k` is wanted, none wanted is cheaper, and no earlier one is as cheap. */
  ghost predicate IsTarget(offers: seq<Offer>, k: nat, target: int, currency: string, now: int)
    requires k < |offers|
  {
    && Wanted(offers[k], target, currency, now)
    && forall j :: 0 <= j < |offers| && Wanted(offers[j], target, currency, now) ==>
         offers[k].price <= offers[j].price && (j < k ==> offers[k].price < offers[j].price)
  }

  lemma QualifyingStep(offers: seq<Offer>, target: int, currency: string, now: int)
    requires offers != []
    ensures var rest, x := FindTargetOffer(offers[1..], target, currency, now), offers[0];
      FindTargetOffer(offers, target, currency, now) ==
        if Qualifies(x, target, currency, now) && (rest.None? || x.price <= rest.value.price) then Some(x) else rest
  {
    var kept, rest := Qualifying(offers, target, currency, now), Qualifying(offers[1..], target, currency, now);
    if Qualifies(offers[0], target, currency, now) {
      assert kept == [offers[0]] + rest;
      assert kept[1..] == rest;
      HeadAfterInsert(offers[0], SortBy(rest, Price));
      assert SortBy(kept, Price) == InsertBy(offers[0], SortBy(rest, Price), Price);
    } else {
      assert kept == rest;
    }
  }

  lemma HeadAfterInsert(x: Offer, sorted: seq<Offer>)
    ensures InsertBy(x, sorted, Price) != []
    ensures InsertBy(x, sorted, Price)[0] == if sorted == [] || x.price <= sorted[0].price then x else sorted[0]
  {
  }

  lemma {:induction false} TargetPlace(offers: seq<Offer>, target: int, currency: string, now: int) returns (place: Option<nat>)
    ensures var found := FindTargetOffer(offers, target, currency, now);
      match place
      case None => found.None? && forall j :: 0 <= j < |offers| ==> !Wanted(offers[j], target, currency, now)
      case Some(k) => k < |offers| && IsTarget(offers, k, target, currency, now) && found == Some(offers[k])
  {
    if offers == [] {
      place := None;
    } else {
      QualifyingStep(offers, target, currency, now);
      var rest := TargetPlace(offers[1..], target, currency, now);
      assert forall j :: 1 <= j < |offers| ==> offers[j] == offers[1..][j - 1];
      if Qualifies(offers[0], target, currency, now) && (rest.None? || offers[0].price <= offers[1..][rest.value].price) {
        place := Some(0);
      } else if rest.None? {
        place := None;
      } else {
        place := Some(rest.value + 1);
      }
    }
  }

  /** There is a target offer exactly when some offer is wanted, and then it is the cheapest of those: the
      first one, should several have that price. */
  lemma TargetIsCheapest(offers: seq<Offer>, target: int, currency: string, now: int)
    ensures var found := FindTargetOffer(offers, target, currency, now);
      && (found.None? <==> forall k :: 0 <= k < |offers| ==> !Wanted(offers[k], target, currency, now))
      && (found.Some? ==> exists k :: 0 <= k < |offers| && IsTarget(offers, k, target, currency, now) && offers[k] == found.value)
  {
    var place := TargetPlace(offers, target, currency, now);
    if place.Some? { assert IsTarget(offers, place.value, target, currency, now); }
  }

  // ---------------------------------------------------------------------------
  // median

  function Itself(n: int): int {
    n
  }

  /** Math.round of half a sum: halves go up. */
  function RoundHalf(sum: int): int {
    (sum + 1) / 2
  }

  function Median(values: seq<int>): Option<int> {
    if values == [] then None
    else
      var sorted := SortBy(values, Itself);
      var middle := |sorted| / 2;
      Some(if |sorted| % 2 != 0 then sorted[middle] else RoundHalf(sorted[middle - 1] + sorted[middle]))
  }

  lemma HeadIsLeast(a: seq<int>, x: int)
    requires Ascending(a, Itself) && x in multiset(a)
    ensures a[0] <= x
  {
  }

  lemma TailsAgree(a: seq<int>, b: seq<int>)
    requires a != [] && b != [] && a[0] == b[0] && multiset(a) == multiset(b)
    ensures multiset(a[1..]) == multiset(b[1..])
  {
    assert a == [a[0]] + a[1..] && b == [b[0]] + b[1..];
    assert multiset(a[1..]) == multiset(a) - multiset{a[0]};
    assert multiset(b[1..]) == multiset(b) - multiset{b[0]};
  }

  lemma {:induction false} SortedIsUnique(a: seq<int>, b: seq<int>)
    requires Ascending(a, Itself) && Ascending(b, Itself) && multiset(a) == multiset(b)
    ensures a == b
  {
    assert |a| == |multiset(a)| == |multiset(b)| == |b|;
    if a != [] {
      assert b[0] in multiset(a) && a[0] in multiset(b);
      HeadIsLeast(a, b[0]);
      HeadIsLeast(b, a[0]);
      TailsAgree(a, b);
      SortedIsUnique(a[1..], b[1..]);
      assert a == [a[0]] + a[1..] && b == [b[0]] + b[1..];
    }
  }

  /** Whatever way the values are put in order, the median is the middle one, or the mean of the middle two
      rounded half up; it lies between the two and does not depend on the order the values came in. */
  lemma MedianIsMiddle(values: seq<int>, sorted: seq<int>)
    requires values != [] && Ascending(sorted, Itself) && multiset(sorted) == multiset(values)
    ensures |sorted| == |values| && Median(values).Some?
    ensures var n, m := |sorted|, Median(values).value;
      && sorted[(n - 1) / 2] <= m <= sorted[n / 2]
      && (if n % 2 == 1 then m == sorted[n / 2]
          else 0 <= 2 * m - (sorted[n / 2 - 1] + sorted[n / 2]) <= 1)
  {
    SortIsAscending(values, Itself);
    SortPermutes(values, Itself);
    SortedIsUnique(sorted, SortBy(values, Itself));
    assert |multiset(sorted)| == |multiset(values)|;
    var n := |sorted|;
    if n % 2 == 0 {
      assert (n - 1) / 2 == n / 2 - 1;
      assert Itself(sorted[n / 2 - 1]) <= Itself(sorted[n / 2]);
    }
  }

  // ---------------------------------------------------------------------------
  // The merge

  function UpperChar(c: char): char {
    if 'a' <= c <= 'z' then (c as int - 32) as char else c
  }

  function Upper(s: string): string {
    if s == "" then "" else [UpperChar(s[0])] + Upper(s[1..])
  }

  /** normalizeOffer: only one currency is supported. */
  function NormalizeOffer(o: Offer): Option<Offer> {
    if Upper(o.currency) != "CNY" then None else Some(o.(currency := "CNY"))
  }

  predicate Distinct(offers: seq<Offer>) {
    forall i, j :: 0 <= i < j < |offers| ==> offers[i].externalId != offers[j].externalId
  }

  /** Map.get on a map in insertion order. */
  function Get(offers: seq<Offer>, id: string): Option<Offer> {
    if offers == [] then None
    else if offers[0].externalId == id then Some(offers[0])
    else Get(offers[1..], id)
  }

  /** Map.set on a map in insertion order: a known key keeps its place. */
  function Put(offers: seq<Offer>, o: Offer): seq<Offer> {
    if offers == [] then [o]
    else if offers[0].externalId == o.externalId then [o] + offers[1..]
    else [offers[0]] + Put(offers[1..], o)
  }

  lemma {:induction false} GetAfterPut(offers: seq<Offer>, o: Offer, id: string)
    ensures Get(Put(offers, o), id) == if id == o.externalId then Some(o) else Get(offers, id)
  {
    if offers != [] && offers[0].externalId != o.externalId {
      GetAfterPut(offers[1..], o, id);
      assert Put(offers, o)[1..] == Put(offers[1..], o);
    } else if offers != [] {
      assert Put(offers, o)[1..] == offers[1..];
    }
  }

  lemma {:induction false} PutPlace(offers: seq<Offer>, o: Offer) returns (k: nat)
    ensures k <= |offers| && forall j :: 0 <= j < k ==> offers[j].externalId != o.externalId
    ensures k < |offers| ==> offers[k].externalId == o.externalId && Put(offers, o) == offers[k := o]
    ensures k == |offers| ==> Put(offers, o) == offers + [o]
  {
    if offers == [] || offers[0].externalId == o.externalId {
      k := 0;
    } else {
      k := PutPlace(offers[1..], o);
      k := k + 1;
    }
  }

  lemma PutKeepsDistinct(offers: seq<Offer>, o: Offer)
    requires Distinct(offers)
    ensures Distinct(Put(offers, o))
  {
    var k := PutPlace(offers, o);
  }

  /** The last offer in a list with this id. */
  function LastWith(offers: seq<Offer>, id: string): (last: Option<Offer>)
    ensures match last
      case Some(o) => exists k :: 0 <= k < |offers| && offers[k] == o && o.externalId == id
                                  && forall j :: k < j < |offers| ==> offers[j].externalId != id
      case None => forall k :: 0 <= k < |offers| ==> offers[k].externalId != id
  {
    if offers == [] then None
    else if offers[|offers| - 1].externalId == id then Some(offers[|offers| - 1])
    else
      assert forall j :: 0 <= j < |offers| - 1 ==> offers[j] == offers[..|offers| - 1][j];
      LastWith(offers[..|offers| - 1], id)
  }

  /** The supported currency, in any case. */
  predicate Yuan(s: string) {
    |s| == 3 && s[0] in "Cc" && s[1] in "Nn" && s[2] in "Yy"
  }

  lemma NormalizedIffYuan(o: Offer)
    ensures NormalizeOffer(o) == if Yuan(o.currency) then Some(o.(currency := "CNY")) else None
  {
    var s := o.currency;
    UpperLength(s);
    if |s| == 3 {
      assert Upper(s) == [UpperChar(s[0]), UpperChar(s[1]), UpperChar(s[2])] by {
        assert s[1..][1..] == s[2..] && s[2..][1..] == "";
        assert Upper(s[2..]) == [UpperChar(s[2])];
        assert Upper(s[1..]) == [UpperChar(s[1])] + Upper(s[2..]);
      }
      assert Upper(s) == "CNY" <==> UpperChar(s[0]) == 'C' && UpperChar(s[1]) == 'N' && UpperChar(s[2]) == 'Y';
    }
  }

  lemma {:induction false} UpperLength(s: string)
    ensures |Upper(s)| == |s|
  {
    if s != "" { UpperLength(s[1..]); }
  }

  /** Which offer a product ends up with under one id: the last of the top offers with this id, or the lowest
      offer if only that one has it. */
  function Winner(top: seq<Offer>, lowest: Option<Offer>, id: string): Option<Offer> {
    match LastWith(top, id)
    case Some(o) => Some(o.(currency := "CNY"))
    case None => if lowest.Some? && lowest.value.externalId == id then Some(lowest.value.(currency := "CNY")) else None
  }

  /** The currency of every offer that is looked at is supported. */
  ghost predicate AllSupported(top: seq<Offer>, lowest: Option<Offer>) {
    && (forall k :: 0 <= k < |top| ==> Yuan(top[k].currency))
    && (lowest.Some? && LastWith(top, lowest.value.externalId).None? ==> Yuan(lowest.value.currency))
  }

  lemma WinnerStep(top: seq<Offer>, k: nat, id: string)
    requires k < |top|
    ensures Winner(top[..k + 1], None, id) == if top[k].externalId == id then Some(top[k].(currency := "CNY")) else Winner(top[..k], None, id)
  {
    assert top[..k + 1][..k] == top[..k] && top[..k + 1][k] == top[k];
  }

  /** The offer merge of one product: every id once, the last top offer with an id winning over earlier ones and
      over the lowest offer. None when some offer has an unsupported currency. */
  method MergeOffers(top: seq<Offer>, lowest: Option<Offer>) returns (merged: Option<seq<Offer>>)
    ensures merged.Some? <==> AllSupported(top, lowest)
    ensures merged.Some? ==> Distinct(merged.value) && forall id :: Get(merged.value, id) == Winner(top, lowest, id)
  {
    var offers: seq<Offer> := [];
    for k := 0 to |top|
      invariant Distinct(offers) && forall id :: Get(offers, id) == Winner(top[..k], None, id)
      invariant forall j :: 0 <= j < k ==> Yuan(top[j].currency)
    {
      NormalizedIffYuan(top[k]);
      var o := NormalizeOffer(top[k]);
      if o.None? {
        return None;
      }
      PutKeepsDistinct(offers, o.value);
      forall id ensures Get(Put(offers, o.value), id) == Winner(top[..k + 1], None, id) {
        GetAfterPut(offers, o.value, id);
        WinnerStep(top, k, id);
      }
      offers := Put(offers, o.value);
    }
    assert top[..|top|] == top;
    if lowest.Some? && Get(offers, lowest.value.externalId).None? {
      assert LastWith(top, lowest.value.externalId).None?;
      NormalizedIffYuan(lowest.value);
      var o := NormalizeOffer(lowest.value);
      if o.None? {
        return None;
      }
      PutKeepsDistinct(offers, o.value);
      forall id ensures Get(Put(offers, o.value), id) == Winner(top, lowest, id) {
        GetAfterPut(offers, o.value, id);
      }
      offers := Put(offers, o.value);
    }
    merged := Some(offers);
  }
}
