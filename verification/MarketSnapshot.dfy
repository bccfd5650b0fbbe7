/** The snapshot load of the market poller (apps/server/src/market-service.ts, upsertSnapshot) over the
    product, listing and offer tables of its source. */
module MarketSnapshot {
  import opened Wrappers
  import opened MarketOffers

  /** A product is identified by its canonical key; `facts` are its descriptive columns. */
  type ProductId = string
  type Facts = seq<Option<string>>

  datatype Product = Product(externalId: string, slug: string, facts: Facts, figures: Facts, offers: seq<Offer>)

  datatype Snapshot = Snapshot(id: string, publishedAt: string, stale: bool, products: seq<Product>)

  datatype Listing = Listing(product: ProductId, slug: string, figures: Facts, active: bool)

  datatype OfferKey = OfferKey(product: ProductId, id: string)

  datatype OfferRow = OfferRow(offer: Offer, active: bool)

  datatype Tables = Tables(products: map<ProductId, Facts>, listings: map<string, Listing>, offers: map<OfferKey, OfferRow>)

  /** canonical_key is compared without regard to ASCII case (COLLATE NOCASE). */
  function FoldChar(c: char): char {
    if 'A' <= c <= 'Z' then (c as int + 32) as char else c
  }

  function Fold(s: string): string {
    if s == "" then "" else [FoldChar(s[0])] + Fold(s[1..])
  }

  function KeyOf(slug: string): ProductId {
    "ai-market:" + Fold(slug)
  }

  /** The same character, or the same ASCII letter in another case. */
  predicate SameLetter(c: char, d: char) {
    c == d || ('A' <= c <= 'Z' && d as int == c as int + 32) || ('A' <= d <= 'Z' && c as int == d as int + 32)
  }

  predicate SameSlug(a: string, b: string) {
    |a| == |b| && forall i :: 0 <= i < |a| ==> SameLetter(a[i], b[i])
  }

  /** Two slugs name one product exactly when they differ in nothing but the case of ASCII letters. */
  lemma {:induction false} KeysAgreeIff(a: string, b: string)
    ensures KeyOf(a) == KeyOf(b) <==> SameSlug(a, b)
  {
    FoldsAgreeIff(a, b);
    var prefix := "ai-market:";
    assert KeyOf(a)[|prefix|..] == Fold(a) && KeyOf(b)[|prefix|..] == Fold(b);
  }

  lemma {:induction false} FoldsAgreeIff(a: string, b: string)
    ensures Fold(a) == Fold(b) <==> SameSlug(a, b)
    ensures |Fold(a)| == |a| && |Fold(b)| == |b|
  {
    if a == "" || b == "" {
      if a != "" { FoldsAgreeIff(a[1..], b); }
      if b != "" { FoldsAgreeIff(a, b[1..]); }
    } else {
      FoldsAgreeIff(a[1..], b[1..]);
      assert Fold(a)[1..] == Fold(a[1..]) && Fold(b)[1..] == Fold(b[1..]);
      assert FoldChar(a[0]) == FoldChar(b[0]) <==> SameLetter(a[0], b[0]);
      assert SameSlug(a, b) <==> SameLetter(a[0], b[0]) && SameSlug(a[1..], b[1..]) by {
        if SameLetter(a[0], b[0]) && SameSlug(a[1..], b[1..]) {
          forall i | 0 <= i < |a| ensures SameLetter(a[i], b[i]) { if i > 0 { assert SameLetter(a[1..][i - 1], b[1..][i - 1]); } }
        }
      }
    }
  }

  // ---------------------------------------------------------------------------
  // The load, statement by statement

  function DeactivateListings(listings: map<string, Listing>): map<string, Listing> {
    map e | e in listings :: listings[e].(active := false)
  }

  function DeactivateOffers(offers: map<OfferKey, OfferRow>): map<OfferKey, OfferRow> {
    map k | k in offers :: offers[k].(active := false)
  }

  /** Another external id already lists this product: UNIQUE (source_id, product_id). */
  predicate Clashes(listings: map<string, Listing>, externalId: string, product: ProductId) {
    exists e :: e in listings && e != externalId && listings[e].product == product
  }

  function ListingOf(p: Product): Listing {
    Listing(KeyOf(p.slug), p.slug, p.figures, true)
  }

  function AddOffers(offers: map<OfferKey, OfferRow>, product: ProductId, added: seq<Offer>): map<OfferKey, OfferRow> {
    if added == [] then offers
    else
      var last := added[|added| - 1];
      AddOffers(offers, product, added[..|added| - 1])[OfferKey(product, last.externalId) := OfferRow(last, true)]
  }

  function LoadProduct(t: Tables, p: Product): Option<Tables> {
    if Clashes(t.listings, p.externalId, KeyOf(p.slug)) then None
    else Some(Tables(t.products[KeyOf(p.slug) := p.facts], t.listings[p.externalId := ListingOf(p)],
                     AddOffers(t.offers, KeyOf(p.slug), p.offers)))
  }

  /** None when a statement fails. */
  function LoadProducts(t: Tables, ps: seq<Product>): Option<Tables> {
    if ps == [] then Some(t)
    else
      match LoadProducts(t, ps[..|ps| - 1])
      case None => None
      case Some(before) => LoadProduct(before, ps[|ps| - 1])
  }

  function Cleared(t: Tables): Tables {
    t.(listings := DeactivateListings(t.listings), offers := DeactivateOffers(t.offers))
  }

  /** The whole transaction: None when it is rolled back. */
  function Load(t: Tables, ps: seq<Product>): Option<Tables> {
    LoadProducts(Cleared(t), ps)
  }

  // ---------------------------------------------------------------------------
  // What a snapshot says

  /** The last product with this external id. */
  function SaidProduct(ps: seq<Product>, e: string): (said: Option<Product>)
    ensures match said
      case Some(p) => exists i :: 0 <= i < |ps| && ps[i] == p && p.externalId == e && forall j :: i < j < |ps| ==> ps[j].externalId != e
      case None => forall i :: 0 <= i < |ps| ==> ps[i].externalId != e
  {
    if ps == [] then None
    else if ps[|ps| - 1].externalId == e then Some(ps[|ps| - 1])
    else
      assert forall i :: 0 <= i < |ps| - 1 ==> ps[i] == ps[..|ps| - 1][i];
      SaidProduct(ps[..|ps| - 1], e)
  }

  /** The descriptive columns of the last product with this key. */
  function SaidFacts(ps: seq<Product>, key: ProductId): (said: Option<Facts>)
    ensures match said
      case Some(f) =>
        exists i :: 0 <= i < |ps| && ps[i].facts == f && KeyOf(ps[i].slug) == key && forall j :: i < j < |ps| ==> KeyOf(ps[j].slug) != key
      case None => forall i :: 0 <= i < |ps| ==> KeyOf(ps[i].slug) != key
  {
    if ps == [] then None
    else if KeyOf(ps[|ps| - 1].slug) == key then Some(ps[|ps| - 1].facts)
    else
      assert forall i :: 0 <= i < |ps| - 1 ==> ps[i] == ps[..|ps| - 1][i];
      SaidFacts(ps[..|ps| - 1], key)
  }

  /** The product has an offer with this key. */
  predicate Says(p: Product, k: OfferKey) {
    KeyOf(p.slug) == k.product && LastWith(p.offers, k.id).Some?
  }

  /** The last offer with this id of the last product with this key that has one. */
  function SaidOffer(ps: seq<Product>, k: OfferKey): (said: Option<Offer>)
    ensures match said
      case Some(o) =>
        exists i :: 0 <= i < |ps| && Says(ps[i], k) && LastWith(ps[i].offers, k.id) == Some(o) && forall j :: i < j < |ps| ==> !Says(ps[j], k)
      case None => forall i :: 0 <= i < |ps| ==> !Says(ps[i], k)
  {
    if ps == [] then None
    else if Says(ps[|ps| - 1], k) then LastWith(ps[|ps| - 1].offers, k.id)
    else
      assert forall i :: 0 <= i < |ps| - 1 ==> ps[i] == ps[..|ps| - 1][i];
      SaidOffer(ps[..|ps| - 1], k)
  }

  /** The listing under an external id is what the products say; if they do not say, it is what it was, inactive. */
  ghost predicate ListingLoaded(t: Tables, ps: seq<Product>, t': Tables, e: string) {
    match SaidProduct(ps, e)
    case Some(p) => e in t'.listings && t'.listings[e] == Listing(KeyOf(p.slug), p.slug, p.figures, true)
    case None => (e in t'.listings <==> e in t.listings) && (e in t.listings ==> t'.listings[e] == t.listings[e].(active := false))
  }

  ghost predicate OfferLoaded(t: Tables, ps: seq<Product>, t': Tables, k: OfferKey) {
    match SaidOffer(ps, k)
    case Some(o) => k in t'.offers && t'.offers[k] == OfferRow(o, true)
    case None => (k in t'.offers <==> k in t.offers) && (k in t.offers ==> t'.offers[k] == t.offers[k].(active := false))
  }

  /** The columns of a product are what the products say; if they do not say, they do not change. */
  ghost predicate FactsLoaded(t: Tables, ps: seq<Product>, t': Tables, key: ProductId) {
    match SaidFacts(ps, key)
    case Some(f) => key in t'.products && t'.products[key] == f
    case None => (key in t'.products <==> key in t.products) && (key in t.products ==> t'.products[key] == t.products[key])
  }

  ghost predicate Replaced(t: Tables, ps: seq<Product>, t': Tables) {
    && (forall e :: ListingLoaded(t, ps, t', e))
    && (forall k :: OfferLoaded(t, ps, t', k))
    && (forall key :: FactsLoaded(t, ps, t', key))
  }

  ghost predicate ListingShown(t: Tables, ps: seq<Product>, e: string) {
    match SaidProduct(ps, e)
    case Some(p) => e in t.listings && t.listings[e] == Listing(KeyOf(p.slug), p.slug, p.figures, true)
    case None => e in t.listings ==> !t.listings[e].active
  }

  ghost predicate OfferShown(t: Tables, ps: seq<Product>, k: OfferKey) {
    match SaidOffer(ps, k)
    case Some(o) => k in t.offers && t.offers[k] == OfferRow(o, true)
    case None => k in t.offers ==> !t.offers[k].active
  }

  /** The active rows are exactly what the products of a snapshot say. */
  ghost predicate Shows(t: Tables, ps: seq<Product>) {
    (forall e :: ListingShown(t, ps, e)) && (forall k :: OfferShown(t, ps, k))
  }

  lemma {:induction false} AddedOffer(offers: map<OfferKey, OfferRow>, product: ProductId, added: seq<Offer>, k: OfferKey)
    ensures var after := AddOffers(offers, product, added);
      if k.product == product && LastWith(added, k.id).Some?
      then k in after && after[k] == OfferRow(LastWith(added, k.id).value, true)
      else (k in after <==> k in offers) && (k in after ==> after[k] == offers[k])
  {
    if added != [] { AddedOffer(offers, product, added[..|added| - 1], k); }
  }

  lemma ProductIsLoaded(start: Tables, t: Tables, ps: seq<Product>, t': Tables)
    requires ps != [] && Replaced(start, ps[..|ps| - 1], t) && LoadProduct(t, ps[|ps| - 1]) == Some(t')
    ensures Replaced(start, ps, t')
  {
    var p, rest := ps[|ps| - 1], ps[..|ps| - 1];
    forall e ensures ListingLoaded(start, ps, t', e) { assert ListingLoaded(start, rest, t, e); }
    forall k ensures OfferLoaded(start, ps, t', k) {
      AddedOffer(t.offers, KeyOf(p.slug), p.offers, k);
      assert OfferLoaded(start, rest, t, k);
    }
    forall key ensures FactsLoaded(start, ps, t', key) { assert FactsLoaded(start, rest, t, key); }
  }

  lemma {:induction false} ProductsAreLoaded(start: Tables, ps: seq<Product>, t': Tables)
    requires LoadProducts(Cleared(start), ps) == Some(t')
    ensures Replaced(start, ps, t')
  {
    if ps != [] {
      var before := LoadProducts(Cleared(start), ps[..|ps| - 1]).value;
      ProductsAreLoaded(start, ps[..|ps| - 1], before);
      ProductIsLoaded(start, before, ps, t');
    }
  }

  /** A committed load replaces the whole active set: afterwards the active listings and offers are exactly those
      of the snapshot, every other row is kept as it was but for being inactive, and the products described are
      described as the snapshot does. */
  lemma LoadReplaces(t: Tables, ps: seq<Product>)
    requires Load(t, ps).Some?
    ensures Replaced(t, ps, Load(t, ps).value) && Shows(Load(t, ps).value, ps)
  {
    var t' := Load(t, ps).value;
    ProductsAreLoaded(t, ps, t');
    forall e ensures ListingShown(t', ps, e) { assert ListingLoaded(t, ps, t', e); }
    forall k ensures OfferShown(t', ps, k) { assert OfferLoaded(t, ps, t', k); }
  }

  // ---------------------------------------------------------------------------
  // When a load commits

  /** The product an external id lists after some products of a snapshot. */
  function ListedAs(listings: map<string, Listing>, ps: seq<Product>, e: string): Option<ProductId> {
    match SaidProduct(ps, e)
    case Some(p) => Some(KeyOf(p.slug))
    case None => if e in listings then Some(listings[e].product) else None
  }

  /** Product `i` of the snapshot finds its key listed under another external id. */
  ghost predicate Taken(listings: map<string, Listing>, ps: seq<Product>, i: nat)
    requires i < |ps|
  {
    exists e :: e != ps[i].externalId && ListedAs(listings, ps[..i], e) == Some(KeyOf(ps[i].slug))
  }

  lemma {:induction false} ListedAfter(t: Tables, ps: seq<Product>, t': Tables, e: string)
    requires LoadProducts(t, ps) == Some(t')
    ensures (if e in t'.listings then Some(t'.listings[e].product) else None) == ListedAs(t.listings, ps, e)
  {
    if ps != [] { ListedAfter(t, ps[..|ps| - 1], LoadProducts(t, ps[..|ps| - 1]).value, e); }
  }

  lemma ClashIsTaken(t: Tables, ps: seq<Product>, before: Tables)
    requires ps != [] && LoadProducts(t, ps[..|ps| - 1]) == Some(before)
    ensures var p := ps[|ps| - 1]; Clashes(before.listings, p.externalId, KeyOf(p.slug)) <==> Taken(t.listings, ps, |ps| - 1)
  {
    var p, rest := ps[|ps| - 1], ps[..|ps| - 1];
    forall e ensures (if e in before.listings then Some(before.listings[e].product) else None) == ListedAs(t.listings, rest, e) {
      ListedAfter(t, rest, before, e);
    }
    if e :| e != p.externalId && ListedAs(t.listings, rest, e) == Some(KeyOf(p.slug)) {
      assert e in before.listings && before.listings[e].product == KeyOf(p.slug);
    }
    if e :| e in before.listings && e != p.externalId && before.listings[e].product == KeyOf(p.slug) {
      assert ListedAs(t.listings, rest, e) == Some(KeyOf(p.slug));
    }
  }

  lemma {:induction false} ProductsLoadIff(t: Tables, ps: seq<Product>)
    ensures LoadProducts(t, ps).Some? <==> forall i :: 0 <= i < |ps| ==> !Taken(t.listings, ps, i)
  {
    if ps != [] {
      var rest := ps[..|ps| - 1];
      ProductsLoadIff(t, rest);
      forall i | 0 <= i < |rest| ensures Taken(t.listings, rest, i) <==> Taken(t.listings, ps, i) {
        assert rest[..i] == ps[..i];
      }
      if LoadProducts(t, rest).Some? { ClashIsTaken(t, ps, LoadProducts(t, rest).value); }
    }
  }

  /** A load commits exactly when no product finds its key listed under another external id, be that from an
      earlier snapshot or from this one. */
  lemma CommitsIff(t: Tables, ps: seq<Product>)
    ensures Load(t, ps).Some? <==> forall i :: 0 <= i < |ps| ==> !Taken(t.listings, ps, i)
  {
    ProductsLoadIff(Cleared(t), ps);
    forall i, e | 0 <= i < |ps| ensures ListedAs(Cleared(t).listings, ps[..i], e) == ListedAs(t.listings, ps[..i], e) {}
    forall i | 0 <= i < |ps| ensures Taken(Cleared(t).listings, ps, i) <==> Taken(t.listings, ps, i) {}
  }

  /** External ids and products go together, in the snapshot and in the table. */
  ghost predicate Paired(listings: map<string, Listing>, ps: seq<Product>) {
    && (forall i, j :: 0 <= i < |ps| && 0 <= j < |ps| && KeyOf(ps[i].slug) == KeyOf(ps[j].slug) ==> ps[i].externalId == ps[j].externalId)
    && (forall i, e :: 0 <= i < |ps| && e in listings && listings[e].product == KeyOf(ps[i].slug) ==> e == ps[i].externalId)
  }

  /** As long as external ids and slugs stay paired every load commits. */
  lemma PairedCommits(t: Tables, ps: seq<Product>)
    requires Paired(t.listings, ps)
    ensures Load(t, ps).Some?
  {
    CommitsIff(t, ps);
    forall i | 0 <= i < |ps| ensures !Taken(t.listings, ps, i) {
      forall e | ListedAs(t.listings, ps[..i], e) == Some(KeyOf(ps[i].slug)) ensures e == ps[i].externalId {
        if SaidProduct(ps[..i], e).Some? {
          var j :| 0 <= j < i && ps[..i][j].externalId == e && KeyOf(ps[..i][j].slug) == KeyOf(ps[i].slug);
          assert ps[j] == ps[..i][j];
        }
      }
    }
  }

  /** Without the pairing a load can fail: here the feed gives a listed product a new external id. */
  lemma RenumberedProductFails()
    ensures var p := Product("1", "alpha", [], [], []);
      var t := Tables(map[KeyOf("alpha") := []], map["1" := ListingOf(p)], map[]);
      Load(t, [p]).Some? && Load(t, [p.(externalId := "2")]).None?
  {
    var p := Product("1", "alpha", [], [], []);
    var t := Tables(map[KeyOf("alpha") := []], map["1" := ListingOf(p)], map[]);
    PairedCommits(t, [p]);
    var moved := [p.(externalId := "2")];
    CommitsIff(t, moved);
    assert moved[..0] == [];
    assert ListedAs(t.listings, moved[..0], "1") == Some(KeyOf("alpha"));
    assert Taken(t.listings, moved, 0);
  }
}
