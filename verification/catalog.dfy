/** main.py: the `PriceManager` catalog, its product search, the ranking of
    the hits, and the ingestion of a vendor's price list. The two JSON files
    are the fields `companies` and `products`; geocoding, geodesic distance,
    `str.lower` and `float(...)` are function parameters. */
module Catalog {
  import opened Wrappers
  import opened Text
  import opened Models

  /** One kilometre of travel costs as much as 10 roubles of price. */
  const DistanceWeight: real := 10.0

  /** The address the manager starts with, and the coordinates (Moscow)
      used when that address cannot be geocoded. */
  const DefaultAddress: string := "Москва, Красная площадь, 1"
  const DefaultLocation: Coord := Coord(55.7558, 37.6173)

  /** Typing this as a product name ends the product list. */
  const StopWord: string := "стоп"

  /** A search hit: the product, its vendor, the distance to the vendor and
      the deterministic cost score. */
  datatype Hit = Hit(product: Product, company: Company, distance: real, score: real)

  // ---------------------------------------------------------------- location

  /** `_get_user_location`: the geocoded coordinates when geocoding succeeds,
      the fixed Moscow coordinates otherwise. */
  function UserLocation(geocoded: Option<Coord>): (c: Coord)
    ensures geocoded.Some? ==> c == geocoded.value
    ensures geocoded.None? ==> c == DefaultLocation
  {
    match geocoded
    case Some(c) => c
    case None => DefaultLocation
  }

  /** The address string main.py composes from the stripped city and street. */
  function AddressOf(city: string, street: string): (r: string)
    ensures |r| == |Strip(city)| + 2 + |Strip(street)|
    ensures r[..|Strip(city)|] == Strip(city)
    ensures r[|Strip(city)|..|Strip(city)| + 2] == ", "
    ensures r[|Strip(city)| + 2..] == Strip(street)
  {
    Strip(city) + ", " + Strip(street)
  }

  // ------------------------------------------------------------------- score

  /** `price + distance * distance_weight`: the delivery part never lowers
      the price, and adds nothing exactly when the vendor is at distance 0. */
  function Score(price: real, distance: real): (r: real)
    ensures distance >= 0.0 ==> r >= price
    ensures r == price <==> distance == 0.0
  {
    price + distance * DistanceWeight
  }

  /** The score never decreases when price or distance grows, and grows
      strictly when either grows strictly. */
  lemma ScoreMonotone(p1: real, d1: real, p2: real, d2: real)
    requires p1 <= p2 && d1 <= d2
    ensures Score(p1, d1) <= Score(p2, d2)
    ensures (p1 < p2 || d1 < d2) ==> Score(p1, d1) < Score(p2, d2)
  {
  }

  // ---------------------------------------------------------- company lookup

  /** `next((c for c in companies if c['id'] == company_id), None)`: the first
      company in list order with that id, or nothing when none has it. */
  function FindCompany(companies: seq<Company>, id: int): (r: Option<Company>)
    ensures r.None? <==> forall j | 0 <= j < |companies| :: companies[j].id != id
    ensures r.Some? ==> exists i | 0 <= i < |companies| ::
      companies[i] == r.value && companies[i].id == id && forall j | 0 <= j < i :: companies[j].id != id
  {
    if companies == [] then None
    else if companies[0].id == id then Some(companies[0])
    else
      var r := FindCompany(companies[1..], id);
      assert forall j | 1 <= j < |companies| :: companies[j] == companies[1..][j - 1];
      r
  }

  /** When ids are 1..n in list order, the company with id k is the k-th. */
  lemma FindNumberedCompany(companies: seq<Company>, id: int)
    requires CompaniesNumbered(companies)
    requires 1 <= id <= |companies|
    ensures FindCompany(companies, id) == Some(companies[id - 1])
  {
  }

  // ------------------------------------------------------------------ search

  /** The hit for a product whose vendor exists and has a location. */
  function HitFor(p: Product, companies: seq<Company>, user: Coord,
                  dist: (Coord, seq<real>) -> real): (r: Option<Hit>)
    ensures r.Some? <==> FindCompany(companies, p.companyId).Some? && FindCompany(companies, p.companyId).value.location.Some?
    ensures r.Some? ==> IsHitOf(r.value, p, companies, user, dist)
  {
    match FindCompany(companies, p.companyId)
    case None => None
    case Some(c) =>
      if c.location.None? then None
      else
        var d := dist(user, c.location.value);
        Some(Hit(p, c, d, Score(p.price, d)))
  }

  /** The hits of `products` for an already normalised search term, in the
      order of the products list; at most one hit per product. */
  function Hits(term: string, products: seq<Product>, companies: seq<Company>, user: Coord,
                dist: (Coord, seq<real>) -> real, lower: string -> string): (r: seq<Hit>)
    ensures |r| <= |products|
  {
    if products == [] then []
    else
      var p := products[|products| - 1];
      var init := Hits(term, products[..|products| - 1], companies, user, dist, lower);
      if Contains(lower(p.name), term) && HitFor(p, companies, user, dist).Some?
      then init + [HitFor(p, companies, user, dist).value]
      else init
  }

  /** `search_products`: the search term is lowered then stripped; an empty
      term finds nothing. */
  function Search(rawTerm: string, products: seq<Product>, companies: seq<Company>, user: Coord,
                  dist: (Coord, seq<real>) -> real, lower: string -> string): (r: seq<Hit>)
    ensures Strip(lower(rawTerm)) == [] ==> r == []
    ensures |r| <= |products|
  {
    var term := Strip(lower(rawTerm));
    if term == [] then [] else Hits(term, products, companies, user, dist, lower)
  }

  /** The hits of a concatenation are the hits of each part, in order: hits
      keep the relative order of the products list. */
  lemma {:induction false} HitsAppend(term: string, a: seq<Product>, b: seq<Product>, companies: seq<Company>,
                                      user: Coord, dist: (Coord, seq<real>) -> real, lower: string -> string)
    ensures Hits(term, a + b, companies, user, dist, lower)
         == Hits(term, a, companies, user, dist, lower) + Hits(term, b, companies, user, dist, lower)
    decreases |b|
  {
    if b == [] {
      assert a + b == a;
    } else {
      var b' := b[..|b| - 1];
      assert (a + b)[..|a + b| - 1] == a + b';
      assert (a + b)[|a + b| - 1] == b[|b| - 1];
      HitsAppend(term, a, b', companies, user, dist, lower);
    }
  }

  /** What makes `h` the hit of product `p`: `p`'s vendor is the first
      company with `p`'s company id, it has a location, and the distance and
      score are computed from it. */
  ghost predicate IsHitOf(h: Hit, p: Product, companies: seq<Company>, user: Coord, dist: (Coord, seq<real>) -> real) {
    && h.product == p
    && FindCompany(companies, p.companyId) == Some(h.company)
    && h.company.location.Some?
    && h.distance == dist(user, h.company.location.value)
    && h.score == p.price + h.distance * DistanceWeight
  }

  /** Every hit comes from a product of the list whose lowered name contains
      the term, joined to its first matching, located vendor, and scored as
      price plus ten times the distance. */
  lemma {:induction false} HitsSound(term: string, products: seq<Product>, companies: seq<Company>, user: Coord,
                                     dist: (Coord, seq<real>) -> real, lower: string -> string)
    ensures forall h | h in Hits(term, products, companies, user, dist, lower) ::
      && h.product in products
      && Contains(lower(h.product.name), term)
      && IsHitOf(h, h.product, companies, user, dist)
  {
    if products != [] {
      var init := products[..|products| - 1];
      HitsSound(term, init, companies, user, dist, lower);
      assert forall p | p in init :: p in products;
    }
  }

  /** Every product whose lowered name contains the term and whose first
      matching vendor has a location contributes its hit. */
  lemma {:induction false} HitsComplete(term: string, products: seq<Product>, companies: seq<Company>, user: Coord,
                                        dist: (Coord, seq<real>) -> real, lower: string -> string, i: nat)
    requires i < |products|
    requires Contains(lower(products[i].name), term)
    requires FindCompany(companies, products[i].companyId).Some?
    requires FindCompany(companies, products[i].companyId).value.location.Some?
    ensures exists h | h in Hits(term, products, companies, user, dist, lower) :: IsHitOf(h, products[i], companies, user, dist)
  {
    var a, b := products[..i + 1], products[i + 1..];
    assert products == a + b;
    HitsAppend(term, a, b, companies, user, dist, lower);
    assert a[..|a| - 1] == products[..i];
    var h := HitFor(products[i], companies, user, dist).value;
    assert IsHitOf(h, products[i], companies, user, dist);
    assert h in Hits(term, a, companies, user, dist, lower);
  }

  /** A product without a vendor, or whose vendor has no location, has no hit. */
  lemma {:induction false} HitsExcludeUnlocated(term: string, products: seq<Product>, companies: seq<Company>,
                                                user: Coord, dist: (Coord, seq<real>) -> real, lower: string -> string,
                                                p: Product)
    requires FindCompany(companies, p.companyId).None? || FindCompany(companies, p.companyId).value.location.None?
    ensures forall h | h in Hits(term, products, companies, user, dist, lower) :: h.product != p
  {
    HitsSound(term, products, companies, user, dist, lower);
  }

  // ----------------------------------------------------------------- ranking

  ghost predicate SortedByScore(s: seq<Hit>) {
    forall i, j | 0 <= i < j < |s| :: s[i].score <= s[j].score
  }

  /** The hits of `s` whose score is exactly `k`, in the order of `s`. */
  function WithScore(s: seq<Hit>, k: real): seq<Hit> {
    if s == [] then [] else (if s[0].score == k then [s[0]] else []) + WithScore(s[1..], k)
  }

  /** Places `h` before the first element whose score is not below its own. */
  function InsertByScore(h: Hit, s: seq<Hit>): (r: seq<Hit>)
    ensures |r| == |s| + 1
    ensures multiset(r) == multiset(s) + multiset{h}
  {
    if s == [] || h.score <= s[0].score then [h] + s
    else
      var r := [s[0]] + InsertByScore(h, s[1..]);
      assert s == [s[0]] + s[1..];
      r
  }

  /** Python's `sorted(hits, key=total_score)`: a stable sort by score. */
  function SortByScore(s: seq<Hit>): (r: seq<Hit>)
    ensures |r| == |s|
    ensures multiset(r) == multiset(s)
  {
    if s == [] then []
    else
      var r := InsertByScore(s[0], SortByScore(s[1..]));
      assert s == [s[0]] + s[1..];
      r
  }

  /** Inserting keeps every score at or above a common lower bound. */
  lemma {:induction false} InsertByScoreBound(h: Hit, s: seq<Hit>, b: real)
    requires b <= h.score
    requires forall i | 0 <= i < |s| :: b <= s[i].score
    ensures forall i | 0 <= i < |InsertByScore(h, s)| :: b <= InsertByScore(h, s)[i].score
  {
    if s != [] && h.score > s[0].score {
      InsertByScoreBound(h, s[1..], b);
    }
  }

  lemma {:induction false} InsertByScoreSorted(h: Hit, s: seq<Hit>)
    requires SortedByScore(s)
    ensures SortedByScore(InsertByScore(h, s))
  {
    if s != [] && h.score > s[0].score {
      var t := s[1..];
      InsertByScoreSorted(h, t);
      InsertByScoreBound(h, t, s[0].score);
      var r := InsertByScore(h, t);
      assert InsertByScore(h, s) == [s[0]] + r;
    }
  }

  lemma WithScoreCons(x: Hit, t: seq<Hit>, k: real)
    ensures WithScore([x] + t, k) == (if x.score == k then [x] else []) + WithScore(t, k)
  {
    assert ([x] + t)[1..] == t;
  }

  lemma {:induction false} InsertByScoreWithScore(h: Hit, s: seq<Hit>, k: real)
    ensures WithScore(InsertByScore(h, s), k) == (if h.score == k then [h] else []) + WithScore(s, k)
  {
    if s == [] || h.score <= s[0].score {
      WithScoreCons(h, s, k);
    } else {
      var t := InsertByScore(h, s[1..]);
      InsertByScoreWithScore(h, s[1..], k);
      WithScoreCons(s[0], t, k);
      assert s == [s[0]] + s[1..];
      WithScoreCons(s[0], s[1..], k);
    }
  }

  /** The sort orders by score, ascending. */
  lemma {:induction false} SortByScoreSorted(s: seq<Hit>)
    ensures SortedByScore(SortByScore(s))
  {
    if s != [] {
      SortByScoreSorted(s[1..]);
      InsertByScoreSorted(s[0], SortByScore(s[1..]));
    }
  }

  /** The sort is stable: the hits sharing any one score appear in the same
      relative order as in the input. */
  lemma {:induction false} SortByScoreStable(s: seq<Hit>, k: real)
    ensures WithScore(SortByScore(s), k) == WithScore(s, k)
  {
    if s != [] {
      SortByScoreStable(s[1..], k);
      InsertByScoreWithScore(s[0], SortByScore(s[1..]), k);
    }
  }

  function Min(a: int, b: int): int {
    if a <= b then a else b
  }

  /** `show_best_options`: the first three hits of the stable sort by score
      (fewer when there are fewer hits), all taken from the hits. */
  function BestOptions(hits: seq<Hit>): (r: seq<Hit>)
    ensures |r| == Min(3, |hits|)
    ensures multiset(r) <= multiset(hits)
  {
    var sorted := SortByScore(hits);
    var m := Min(3, |hits|);
    assert sorted == sorted[..m] + sorted[m..];
    assert multiset(sorted) == multiset(sorted[..m]) + multiset(sorted[m..]);
    sorted[..m]
  }

  /** WithScore of a prefix is a prefix of WithScore of the whole. */
  lemma {:induction false} WithScorePrefix(s: seq<Hit>, n: nat, k: real)
    requires n <= |s|
    ensures WithScore(s[..n], k) <= WithScore(s, k)
  {
    if n > 0 {
      assert s[..n][1..] == s[1..][..n - 1];
      WithScorePrefix(s[1..], n - 1, k);
    }
  }

  /** In a list sorted by score, nothing after position `m` scores below
      anything before it. */
  lemma SortedSplit(s: seq<Hit>, m: nat)
    requires SortedByScore(s) && m <= |s|
    ensures forall x, y | x in s[..m] && y in s[m..] :: x.score <= y.score
  {
    forall x, y | x in s[..m] && y in s[m..] ensures x.score <= y.score {
      var i :| 0 <= i < m && s[..m][i] == x;
      var j :| 0 <= j < |s| - m && s[m..][j] == y;
      assert s[i] == x && s[m + j] == y;
    }
  }

  /** What is shown is ordered by score. */
  lemma BestOptionsShape(hits: seq<Hit>)
    ensures SortedByScore(BestOptions(hits))
  {
    SortByScoreSorted(hits);
  }

  /** No hit left out, counted with multiplicity, scores below a shown one:
      an extra copy of a shown hit that did not make the cut is no cheaper
      than anything shown. */
  lemma BestOptionsMinimal(hits: seq<Hit>, h: Hit, x: Hit)
    requires h in multiset(hits) - multiset(BestOptions(hits)) && x in BestOptions(hits)
    ensures x.score <= h.score
  {
    var sorted := SortByScore(hits);
    var m := Min(3, |hits|);
    var shown, rest := sorted[..m], sorted[m..];
    assert sorted == shown + rest;
    assert multiset(hits) == multiset(shown) + multiset(rest);
    assert h in rest;
    SortByScoreSorted(hits);
    SortedSplit(sorted, m);
  }

  /** Hits of equal score are shown in their input order. */
  lemma BestOptionsStable(hits: seq<Hit>, k: real)
    ensures WithScore(BestOptions(hits), k) <= WithScore(hits, k)
  {
    WithScorePrefix(SortByScore(hits), Min(3, |hits|), k);
    SortByScoreStable(hits, k);
  }

  /** An empty hit list shows nothing. */
  lemma BestOptionsEmpty()
    ensures BestOptions([]) == []
  {
  }

  // -------------------------------------------------------------- ingestion

  /** One product line typed at the console: the name line and the price line. */
  datatype Entry = Entry(name: string, price: string)

  predicate IsStop(e: Entry, lower: string -> string) {
    lower(Strip(e.name)) == StopWord
  }

  /** `стоп` typed with any whitespace around it ends the loop, whatever the
      price line holds, provided lowering leaves `стоп` as it is. */
  lemma StopWordPadded(a: string, b: string, price: string, lower: string -> string)
    requires forall i | 0 <= i < |a| :: IsSpace(a[i])
    requires forall i | 0 <= i < |b| :: IsSpace(b[i])
    requires lower(StopWord) == StopWord
    ensures IsStop(Entry(a + StopWord + b, price), lower)
  {
    StripPadded(a, StopWord, b);
  }

  /** Whether some entry's name is the stop word. */
  predicate HasStop(entries: seq<Entry>, lower: string -> string) {
    exists j | 0 <= j < |entries| :: IsStop(entries[j], lower)
  }

  /** The index of the first stop word at or after `from`, or `|entries|`
      when there is none. */
  function FirstStop(entries: seq<Entry>, from: nat, lower: string -> string): (r: nat)
    requires from <= |entries|
    ensures from <= r <= |entries|
    decreases |entries| - from
  {
    if from == |entries| || IsStop(entries[from], lower) then from else FirstStop(entries, from + 1, lower)
  }

  /** `FirstStop` finds a stop word when it is below the end, and none of
      the entries it passed over is one. */
  lemma {:induction false} FirstStopSpec(entries: seq<Entry>, from: nat, lower: string -> string)
    requires from <= |entries|
    ensures FirstStop(entries, from, lower) < |entries| ==> IsStop(entries[FirstStop(entries, from, lower)], lower)
    ensures forall j | from <= j < FirstStop(entries, from, lower) :: !IsStop(entries[j], lower)
    decreases |entries| - from
  {
    if from < |entries| && !IsStop(entries[from], lower) {
      FirstStopSpec(entries, from + 1, lower);
    }
  }

  /** There is a stop word exactly when the first one is found before the end. */
  /** Past an entry that is not a stop word, the first stop stays put. */
  lemma FirstStopStep(entries: seq<Entry>, i: nat, lower: string -> string)
    requires i < |entries| && !IsStop(entries[i], lower)
    ensures FirstStop(entries, i + 1, lower) == FirstStop(entries, i, lower)
  {
  }

  lemma HasStopFirstStop(entries: seq<Entry>, lower: string -> string)
    ensures HasStop(entries, lower) <==> FirstStop(entries, 0, lower) < |entries|
  {
    FirstStopSpec(entries, 0, lower);
  }

  /** The products the loop of `add_company_price` appends, reading from
      entry `from` on: entries up to the first stop word, those with an
      unparsable price skipped, each numbered from `nextId` on and owned by
      company `companyId`. */
  function Entered(entries: seq<Entry>, from: nat, nextId: int, companyId: int,
                   lower: string -> string, parseFloat: string -> Option<real>): (r: seq<Product>)
    ensures from <= |entries| ==> |r| <= |entries| - from
    decreases |entries| - from
  {
    if from >= |entries| || IsStop(entries[from], lower) then []
    else
      match parseFloat(entries[from].price)
      case None => Entered(entries, from + 1, nextId, companyId, lower, parseFloat)
      case Some(price) =>
        [Product(nextId, Strip(entries[from].name), price, companyId)]
          + Entered(entries, from + 1, nextId + 1, companyId, lower, parseFloat)
  }

  /** The entered products are numbered consecutively from `nextId` and all
      belong to company `companyId`. */
  lemma {:induction false} EnteredIdAt(entries: seq<Entry>, from: nat, nextId: int, companyId: int,
                                       lower: string -> string, parseFloat: string -> Option<real>, k: nat)
    requires k < |Entered(entries, from, nextId, companyId, lower, parseFloat)|
    ensures Entered(entries, from, nextId, companyId, lower, parseFloat)[k].id == nextId + k
    ensures Entered(entries, from, nextId, companyId, lower, parseFloat)[k].companyId == companyId
    decreases |entries| - from
  {
    if parseFloat(entries[from].price).None? {
      EnteredIdAt(entries, from + 1, nextId, companyId, lower, parseFloat, k);
    } else if k > 0 {
      EnteredIdAt(entries, from + 1, nextId + 1, companyId, lower, parseFloat, k - 1);
    }
  }

  /** An entry with an unparsable price adds nothing and the loop goes on. */
  lemma EnteredSkipsUnparsable(entries: seq<Entry>, i: nat, nextId: int, companyId: int,
                               lower: string -> string, parseFloat: string -> Option<real>)
    requires i < |entries| && !IsStop(entries[i], lower) && parseFloat(entries[i].price).None?
    ensures Entered(entries, i, nextId, companyId, lower, parseFloat)
         == Entered(entries, i + 1, nextId, companyId, lower, parseFloat)
  {
  }

  /** An entry with a parsable price appends its product under the next id,
      and the loop goes on with the id after it. */
  lemma EnteredTakesParsable(entries: seq<Entry>, i: nat, ps: seq<Product>, companyId: int,
                             lower: string -> string, parseFloat: string -> Option<real>, price: real)
    requires i < |entries| && !IsStop(entries[i], lower) && parseFloat(entries[i].price) == Some(price)
    ensures var p := Product(|ps| + 1, Strip(entries[i].name), price, companyId);
      (ps + [p]) + Entered(entries, i + 1, |ps| + 2, companyId, lower, parseFloat)
        == ps + Entered(entries, i, |ps| + 1, companyId, lower, parseFloat)
  {
    var p := Product(|ps| + 1, Strip(entries[i].name), price, companyId);
    var rest := Entered(entries, i + 1, |ps| + 2, companyId, lower, parseFloat);
    assert Entered(entries, i, |ps| + 1, companyId, lower, parseFloat) == [p] + rest;
    assert (ps + [p]) + rest == ps + ([p] + rest);
  }

  /** Nothing from the stop word on is read. */
  lemma EnteredStopsAtStopWord(entries: seq<Entry>, i: nat, nextId: int, companyId: int,
                               lower: string -> string, parseFloat: string -> Option<real>)
    requires i < |entries| && IsStop(entries[i], lower)
    ensures Entered(entries, i, nextId, companyId, lower, parseFloat) == []
  {
  }

  /** The manually typed coordinates stand in when geocoding fails. */
  function LocationOr(found: Option<Coord>, manual: Coord): (c: Coord)
    ensures c == if found.Some? then found.value else manual
  {
    match found
    case Some(l) => l
    case None => manual
  }

  ghost predicate ProductsNumbered(products: seq<Product>) {
    forall k | 0 <= k < |products| :: products[k].id == k + 1
  }

  ghost predicate CompaniesNumbered(companies: seq<Company>) {
    forall k | 0 <= k < |companies| :: companies[k].id == k + 1
  }

  /** The company appended by `add_company_price`. */
  function NewCompanyFor(companies: seq<Company>, name: string, address: string, location: Coord): (c: Company)
    ensures c.id == |companies| + 1 && c.name == name && c.address == address
    ensures c.location == Some([location.lat, location.lon])
  {
    NewCompany(|companies| + 1, name, address, [location.lat, location.lon])
  }

  /** Appending a vendor and its products keeps lists numbered 1..n numbered
      1..n, and every new product refers to the new vendor, which the lookup
      of the search then finds. */
  lemma AddKeepsNumbering(companies: seq<Company>, products: seq<Product>, name: string, address: string,
                          location: Coord, entries: seq<Entry>,
                          lower: string -> string, parseFloat: string -> Option<real>)
    requires CompaniesNumbered(companies) && ProductsNumbered(products)
    ensures var c := NewCompanyFor(companies, name, address, location);
      var added := Entered(entries, 0, |products| + 1, c.id, lower, parseFloat);
      && CompaniesNumbered(companies + [c])
      && ProductsNumbered(products + added)
      && forall p | p in added :: FindCompany(companies + [c], p.companyId) == Some(c)
  {
    var c := NewCompanyFor(companies, name, address, location);
    var added := Entered(entries, 0, |products| + 1, c.id, lower, parseFloat);
    var all := products + added;
    forall k | 0 <= k < |all| ensures all[k].id == k + 1 {
      if k >= |products| {
        EnteredIdAt(entries, 0, |products| + 1, c.id, lower, parseFloat, k - |products|);
      }
    }
    FindNumberedCompany(companies + [c], c.id);
    forall p | p in added ensures p.companyId == c.id {
      var k :| 0 <= k < |added| && added[k] == p;
      EnteredIdAt(entries, 0, |products| + 1, c.id, lower, parseFloat, k);
    }
  }

  /** The dictionary main.py writes for a new product. */
  function NewProductDict(id: int, name: string, price: real, companyId: int): Record {
    map["id" := JInt(id), "name" := JString(name), "price" := JFloat(price), "company_id" := JInt(companyId)]
  }

  /** The dictionary main.py writes for a new company. */
  function NewCompanyDict(id: int, name: string, address: string, location: Coord): Record {
    map["id" := JInt(id), "name" := JString(name), "address" := JString(address),
        "location" := JFloatList([location.lat, location.lon])]
  }

  /** main.py writes the same dictionaries as `Product.to_dict` and
      `Company.to_dict`, hence the same key sets. */
  lemma NewDictsMatchModels(id: int, name: string, price: real, companyId: int, address: string, location: Coord)
    ensures NewProductDict(id, name, price, companyId) == Product(id, name, price, companyId).ToDict()
    ensures NewProductDict(id, name, price, companyId).Keys == ProductKeys
    ensures NewCompanyDict(id, name, address, location) == NewCompany(id, name, address, [location.lat, location.lon]).ToDict()
    ensures NewCompanyDict(id, name, address, location).Keys == CompanyKeys
  {
  }

  /** The `while True` loop of `add_company_price`: reads entries until the
      stop word, appending each product whose price parses. `stopped` is
      false when the entries run out before the stop word. */
  method ReadProducts(entries: seq<Entry>, products: seq<Product>, companyId: int,
                      lower: string -> string, parseFloat: string -> Option<real>)
    returns (stopped: bool, ps: seq<Product>)
    ensures stopped == HasStop(entries, lower)
    ensures stopped ==> ps == products + Entered(entries, 0, |products| + 1, companyId, lower, parseFloat)
  {
    ps := products;
    ghost var goal := products + Entered(entries, 0, |products| + 1, companyId, lower, parseFloat);
    stopped := false;
    var i := 0;
    while i < |entries|
      invariant i <= |entries|
      invariant FirstStop(entries, i, lower) == FirstStop(entries, 0, lower)
      invariant ps + Entered(entries, i, |ps| + 1, companyId, lower, parseFloat) == goal
    {
      var name := Strip(entries[i].name);
      if lower(name) == StopWord {
        stopped := true;
        break;
      }
      FirstStopStep(entries, i, lower);
      var price := parseFloat(entries[i].price);
      if price.Some? {
        EnteredTakesParsable(entries, i, ps, companyId, lower, parseFloat, price.value);
        ps := ps + [Product(|ps| + 1, name, price.value, companyId)];
      } else {
        EnteredSkipsUnparsable(entries, i, |ps| + 1, companyId, lower, parseFloat);
      }
      i := i + 1;
    }
    HasStopFirstStop(entries, lower);
    if stopped {
      EnteredStopsAtStopWord(entries, i, |ps| + 1, companyId, lower, parseFloat);
      assert ps + [] == ps;
    }
  }

  // ---------------------------------------------------------- the manager

  /** `PriceManager`: the user's address and coordinates, and the two
      catalog files (vendors and products) as in-memory lists. */
  class PriceManager {
    var userAddress: string
    var userLocation: Coord
    var companies: seq<Company>
    var products: seq<Product>

    /** `__init__`: the default address, geocoded or else the Moscow
        fallback; the catalog is whatever the files hold. */
    constructor (companies: seq<Company>, products: seq<Product>, geocode: string -> Option<Coord>)
      ensures userAddress == DefaultAddress
      ensures userLocation == UserLocation(geocode(DefaultAddress))
      ensures this.companies == companies && this.products == products
    {
      userAddress := DefaultAddress;
      userLocation := UserLocation(geocode(DefaultAddress));
      this.companies := companies;
      this.products := products;
    }

    /** `set_user_location`: with geocoded coordinates both address and
        location change; otherwise only the location, to the manual input. */
    method SetUserLocation(city: string, street: string, manual: Coord, geocode: string -> Option<Coord>)
      returns (location: Coord)
      modifies this
      ensures geocode(AddressOf(city, street)).Some? ==>
        userAddress == AddressOf(city, street) && location == geocode(AddressOf(city, street)).value
      ensures geocode(AddressOf(city, street)).None? ==> userAddress == old(userAddress) && location == manual
      ensures userLocation == location
      ensures companies == old(companies) && products == old(products)
    {
      var address := AddressOf(city, street);
      var found := geocode(address);
      if found.Some? {
        userAddress := address;
        userLocation := found.value;
        location := found.value;
      } else {
        userLocation := manual;
        location := manual;
      }
    }

    /** `add_company_price`: appends the new vendor (id = number of vendors
        + 1) and the products typed for it, each with id = number of products
        so far + 1, until the stop word. Without a stop word the console runs
        dry, the input call fails, and nothing is saved. */
    method AddCompanyPrice(companyName: string, city: string, street: string, manual: Coord,
                           entries: seq<Entry>, geocode: string -> Option<Coord>,
                           lower: string -> string, parseFloat: string -> Option<real>)
      returns (saved: bool)
      modifies this
      ensures saved == HasStop(entries, lower)
      ensures var c := NewCompanyFor(old(companies), companyName, AddressOf(city, street),
                                     LocationOr(geocode(AddressOf(city, street)), manual));
        saved ==>
          && companies == old(companies) + [c]
          && products == old(products) + Entered(entries, 0, |old(products)| + 1, c.id, lower, parseFloat)
      ensures !saved ==> companies == old(companies) && products == old(products)
      ensures userAddress == old(userAddress) && userLocation == old(userLocation)
    {
      var cs, ps := companies, products;
      var address := AddressOf(city, street);
      var location := LocationOr(geocode(address), manual);
      var company := NewCompanyFor(cs, companyName, address, location);
      cs := cs + [company];

      var stopped, ps' := ReadProducts(entries, ps, company.id, lower, parseFloat);
      if stopped {
        companies, products := cs, ps';
        saved := true;
      } else {
        saved := false;
      }
    }

    /** `search_products` over the current catalog and user location. */
    method SearchProducts(rawTerm: string, dist: (Coord, seq<real>) -> real, lower: string -> string)
      returns (found: seq<Hit>)
      ensures found == Search(rawTerm, products, companies, userLocation, dist, lower)
    {
      var term := Strip(lower(rawTerm));
      if term == [] {
        return [];
      }
      found := [];
      for i := 0 to |products|
        invariant found == Hits(term, products[..i], companies, userLocation, dist, lower)
      {
        assert products[..i + 1][..i] == products[..i];
        var product := products[i];
        if Contains(lower(product.name), term) {
          var company := FindCompany(companies, product.companyId);
          if company.Some? && company.value.location.Some? {
            var distance := dist(userLocation, company.value.location.value);
            var total := product.price + distance * DistanceWeight;
            found := found + [Hit(product, company.value, distance, total)];
          }
        }
      }
      assert products[..|products|] == products;
    }
  }
}
