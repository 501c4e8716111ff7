/** The Vehicles page: the access guard run when the page opens, and the
    `providers` memo over the services fetched from the server, which
    filters by a case-insensitive search for the category label and then
    sorts copies of the list by provider city and by price. */
module Vehicles {
  import opened Wrappers
  import opened Seqs
  import opened Sorting
  import Text

  /** A service as the server lists it; `city` is the provider's city, `null` when unset. */
  datatype ServiceItem = ServiceItem(id: nat, name: string, description: string, price: int, city: Option<string>)

  const AllCategories := "All Categories"
  const NearestFirst := "Nearest First"
  const FarthestFirst := "Farthest First"
  const LowToHigh := "Low to High"
  const HighToLow := "High to Low"

  /** `provider.city || ''`. */
  function CityKey(s: ServiceItem): string
  {
    s.city.GetOr("")
  }

  const CityAscending: (ServiceItem, ServiceItem) -> bool :=
    (a: ServiceItem, b: ServiceItem) => Text.StrLe(CityKey(a), CityKey(b))
  const CityDescending: (ServiceItem, ServiceItem) -> bool :=
    (a: ServiceItem, b: ServiceItem) => Text.StrLe(CityKey(b), CityKey(a))
  const PriceAscending: (ServiceItem, ServiceItem) -> bool :=
    (a: ServiceItem, b: ServiceItem) => a.price <= b.price
  const PriceDescending: (ServiceItem, ServiceItem) -> bool :=
    (a: ServiceItem, b: ServiceItem) => b.price <= a.price
  const Unordered: (ServiceItem, ServiceItem) -> bool := (a: ServiceItem, b: ServiceItem) => true

  /** The search: the lower-cased name or description contains `term`. */
  function Mentions(term: string): ServiceItem -> bool
  {
    (s: ServiceItem) => Text.Contains(Text.ToLower(s.name), term) || Text.Contains(Text.ToLower(s.description), term)
  }

  function Filtered(services: seq<ServiceItem>, category: string): seq<ServiceItem>
  {
    if category == AllCategories then services else Filter(services, Mentions(Text.ToLower(category)))
  }

  function ByLocation(s: seq<ServiceItem>, byLocation: string): seq<ServiceItem>
  {
    if byLocation == NearestFirst then SortBy(s, CityAscending)
    else if byLocation == FarthestFirst then SortBy(s, CityDescending)
    else s
  }

  function ByPrice(s: seq<ServiceItem>, byPrice: string): seq<ServiceItem>
  {
    if byPrice == LowToHigh then SortBy(s, PriceAscending)
    else if byPrice == HighToLow then SortBy(s, PriceDescending)
    else s
  }

  /** What the page shows.  Each sort runs on a copy, so `services` itself,
      a value here, is never reordered. */
  function Pipeline(services: seq<ServiceItem>, category: string, byLocation: string, byPrice: string): seq<ServiceItem>
  {
    ByPrice(ByLocation(Filtered(services, category), byLocation), byPrice)
  }

  function LocationOrder(byLocation: string): (ServiceItem, ServiceItem) -> bool
  {
    if byLocation == NearestFirst then CityAscending
    else if byLocation == FarthestFirst then CityDescending
    else Unordered
  }

  function PriceOrder(byPrice: string): (ServiceItem, ServiceItem) -> bool
  {
    if byPrice == LowToHigh then PriceAscending
    else if byPrice == HighToLow then PriceDescending
    else Unordered
  }

  lemma SelectionOrdersArePreorders(byLocation: string, byPrice: string)
    ensures TotalPreorder(LocationOrder(byLocation)) && TotalPreorder(PriceOrder(byPrice))
  {
    forall a: ServiceItem, b: ServiceItem ensures CityAscending(a, b) || CityAscending(b, a) {
      Text.StrLeTotal(CityKey(a), CityKey(b));
    }
    forall a: ServiceItem, b: ServiceItem, c: ServiceItem | CityAscending(a, b) && CityAscending(b, c)
      ensures CityAscending(a, c)
    {
      Text.StrLeTransitive(CityKey(a), CityKey(b), CityKey(c));
    }
    forall a: ServiceItem, b: ServiceItem ensures CityDescending(a, b) || CityDescending(b, a) {
      Text.StrLeTotal(CityKey(a), CityKey(b));
    }
    forall a: ServiceItem, b: ServiceItem, c: ServiceItem | CityDescending(a, b) && CityDescending(b, c)
      ensures CityDescending(a, c)
    {
      Text.StrLeTransitive(CityKey(c), CityKey(b), CityKey(a));
    }
  }

  lemma StagesAreSorts(s: seq<ServiceItem>, byLocation: string, byPrice: string)
    ensures ByLocation(s, byLocation) == SortBy(s, LocationOrder(byLocation))
    ensures ByPrice(s, byPrice) == SortBy(s, PriceOrder(byPrice))
  {
    SortBySortedInput(s, Unordered);
  }

  /** 'All Categories' keeps every service; any other label keeps, in order,
      exactly the services whose lower-cased name or description contains the
      lower-cased label. */
  lemma FilteredSpec(services: seq<ServiceItem>, category: string)
    ensures category == AllCategories ==> Filtered(services, category) == services
    ensures Subseq(Filtered(services, category), services)
    ensures category != AllCategories ==>
      forall x :: multiset(Filtered(services, category))[x] ==
        if Text.Contains(Text.ToLower(x.name), Text.ToLower(category))
           || Text.Contains(Text.ToLower(x.description), Text.ToLower(category))
        then multiset(services)[x] else 0
  {
    var p := Mentions(Text.ToLower(category));
    FilterSubseq(services, p);
    if category == AllCategories {
      SubseqReflexive(services);
    } else {
      forall x ensures multiset(Filtered(services, category))[x] == if p(x) then multiset(services)[x] else 0 {
        FilterCounts(services, p, x);
      }
    }
  }

  /** The sorts only reorder the filtered list. */
  lemma PipelinePermutation(services: seq<ServiceItem>, category: string, byLocation: string, byPrice: string)
    ensures multiset(Pipeline(services, category, byLocation, byPrice)) == multiset(Filtered(services, category))
  {
    var f := Filtered(services, category);
    StagesAreSorts(f, byLocation, byPrice);
    StagesAreSorts(ByLocation(f, byLocation), byLocation, byPrice);
    SortByPermutation(f, LocationOrder(byLocation));
    SortByPermutation(ByLocation(f, byLocation), PriceOrder(byPrice));
  }

  /** Reading the two orders off a list sorted by location and then, stably, by price. */
  lemma ReadOffOrders(r: seq<ServiceItem>, byLocation: string, byPrice: string)
    requires forall i, j :: 0 <= i < j < |r| ==>
      PriceOrder(byPrice)(r[i], r[j]) && (PriceOrder(byPrice)(r[j], r[i]) ==> LocationOrder(byLocation)(r[i], r[j]))
    ensures
      && (byPrice == LowToHigh ==> forall i, j :: 0 <= i < j < |r| ==> r[i].price <= r[j].price)
      && (byPrice == HighToLow ==> forall i, j :: 0 <= i < j < |r| ==> r[i].price >= r[j].price)
      && (byLocation == NearestFirst ==> forall i, j :: 0 <= i < j < |r| && r[i].price == r[j].price ==>
            Text.StrLe(CityKey(r[i]), CityKey(r[j])))
      && (byLocation == FarthestFirst ==> forall i, j :: 0 <= i < j < |r| && r[i].price == r[j].price ==>
            Text.StrLe(CityKey(r[j]), CityKey(r[i])))
      && (byPrice != LowToHigh && byPrice != HighToLow && byLocation == NearestFirst ==>
            forall i, j :: 0 <= i < j < |r| ==> Text.StrLe(CityKey(r[i]), CityKey(r[j])))
      && (byPrice != LowToHigh && byPrice != HighToLow && byLocation == FarthestFirst ==>
            forall i, j :: 0 <= i < j < |r| ==> Text.StrLe(CityKey(r[j]), CityKey(r[i])))
  {
    forall i, j | 0 <= i < j < |r|
      ensures byPrice == LowToHigh ==> r[i].price <= r[j].price
      ensures byPrice == HighToLow ==> r[i].price >= r[j].price
      ensures byPrice != LowToHigh && byPrice != HighToLow ==> PriceOrder(byPrice)(r[j], r[i])
      ensures r[i].price == r[j].price ==> PriceOrder(byPrice)(r[j], r[i])
    {
      assert PriceOrder(byPrice)(r[i], r[j]);
    }
    forall i, j | 0 <= i < j < |r| && PriceOrder(byPrice)(r[j], r[i])
      ensures byLocation == NearestFirst ==> Text.StrLe(CityKey(r[i]), CityKey(r[j]))
      ensures byLocation == FarthestFirst ==> Text.StrLe(CityKey(r[j]), CityKey(r[i]))
    {
      assert LocationOrder(byLocation)(r[i], r[j]);
    }
  }

  /** Price order from the last sort; city order (a missing city as '') among
      equal prices, and throughout when no price sort is chosen. */
  lemma PipelineOrdered(services: seq<ServiceItem>, category: string, byLocation: string, byPrice: string)
    ensures var r := Pipeline(services, category, byLocation, byPrice);
      && (byPrice == LowToHigh ==> forall i, j :: 0 <= i < j < |r| ==> r[i].price <= r[j].price)
      && (byPrice == HighToLow ==> forall i, j :: 0 <= i < j < |r| ==> r[i].price >= r[j].price)
      && (byLocation == NearestFirst ==> forall i, j :: 0 <= i < j < |r| && r[i].price == r[j].price ==>
            Text.StrLe(CityKey(r[i]), CityKey(r[j])))
      && (byLocation == FarthestFirst ==> forall i, j :: 0 <= i < j < |r| && r[i].price == r[j].price ==>
            Text.StrLe(CityKey(r[j]), CityKey(r[i])))
      && (byPrice != LowToHigh && byPrice != HighToLow && byLocation == NearestFirst ==>
            forall i, j :: 0 <= i < j < |r| ==> Text.StrLe(CityKey(r[i]), CityKey(r[j])))
      && (byPrice != LowToHigh && byPrice != HighToLow && byLocation == FarthestFirst ==>
            forall i, j :: 0 <= i < j < |r| ==> Text.StrLe(CityKey(r[j]), CityKey(r[i])))
  {
    var f := Filtered(services, category);
    StagesAreSorts(f, byLocation, byPrice);
    StagesAreSorts(ByLocation(f, byLocation), byLocation, byPrice);
    SelectionOrdersArePreorders(byLocation, byPrice);
    SortByThenBy(f, LocationOrder(byLocation), PriceOrder(byPrice));
    ReadOffOrders(Pipeline(services, category, byLocation, byPrice), byLocation, byPrice);
  }

    /** The search sees only the lower-cased text: two lists whose services
      agree on name and description up to capitals keep the same positions,
      so the same number of services. */
  lemma {:induction false} SearchIgnoresCase(a: seq<ServiceItem>, b: seq<ServiceItem>, category: string)
    requires |a| == |b|
    requires forall k :: 0 <= k < |a| ==>
      Text.ToLower(a[k].name) == Text.ToLower(b[k].name) && Text.ToLower(a[k].description) == Text.ToLower(b[k].description)
    ensures forall k :: 0 <= k < |a| ==> (Mentions(Text.ToLower(category))(a[k]) <==> Mentions(Text.ToLower(category))(b[k]))
    ensures |Filtered(a, category)| == |Filtered(b, category)|
    decreases |a|
  {
    if category != AllCategories && a != [] {
      SearchIgnoresCase(a[1..], b[1..], category);
      assert Mentions(Text.ToLower(category))(a[0]) <==> Mentions(Text.ToLower(category))(b[0]);
    }
  }

/** Lower-casing the name keeps a label it already contains: a service
      whose name contains the lower-cased label is found. */
  lemma SearchFindsName(s: ServiceItem, category: string)
    requires Text.Contains(s.name, Text.ToLower(category))
    ensures Mentions(Text.ToLower(category))(s)
  {
    var term := Text.ToLower(category);
    var i := Text.ContainsPosition(s.name, term);
    var lowered := Text.ToLower(s.name);
    forall k | 0 <= k < |term| ensures lowered[i + k] == term[k] {
      assert s.name[i + k] == term[k];
      assert Text.LowerChar(term[k]) == term[k];
    }
    assert lowered[i..i + |term|] == term;
    Text.ContainsFromPosition(lowered, term, i);
  }

  // ------------------------------------------------------------------ guard

  /** What `JSON.parse(atob(token.split('.')[1]))` yields: an exception, or a
      payload whose `exp` (seconds) may be absent. */
  datatype Decoded = Malformed | Payload(exp: Option<int>)

  /** What the page does when it opens. */
  datatype Entry = FetchServices | RedirectToLogin(clearsSession: bool)

  /** The check in the page's effect; `token` and `role` are the session
      entries (`None` when absent), `nowMs` is `Date.now()`. */
  function Guard(token: Option<string>, role: Option<string>, decoded: Decoded, nowMs: nat): (e: Entry)
    ensures e == FetchServices <==>
      && token.Some? && token.value != "" && role == Some("customer")
      && decoded.Payload? && (decoded.exp.None? || nowMs / 1000 <= decoded.exp.value)
    ensures (token.None? || token.value == "" || role != Some("customer")) ==> e == RedirectToLogin(false)
    ensures e.RedirectToLogin? && e.clearsSession ==> token.Some? && role == Some("customer")
  {
    if token.None? || token.value == "" || role != Some("customer") then RedirectToLogin(false)
    else match decoded
      case Malformed => RedirectToLogin(true)
      case Payload(exp) =>
        if exp.Some? && nowMs / 1000 > exp.value then RedirectToLogin(true) else FetchServices
  }

  /** A token is still accepted throughout its expiry second and refused from
      the next second on. */
  lemma ExpiryBoundary(token: string, exp: nat, nowMs: nat)
    requires token != ""
    ensures exp * 1000 <= nowMs < exp * 1000 + 1000 ==>
      Guard(Some(token), Some("customer"), Payload(Some(exp)), nowMs) == FetchServices
    ensures nowMs >= exp * 1000 + 1000 ==>
      Guard(Some(token), Some("customer"), Payload(Some(exp)), nowMs) == RedirectToLogin(true)
  {
    if exp * 1000 <= nowMs < exp * 1000 + 1000 {
      assert nowMs / 1000 == exp by {
        assert nowMs == exp * 1000 + (nowMs - exp * 1000);
      }
    }
    if nowMs >= exp * 1000 + 1000 {
      assert nowMs / 1000 >= exp + 1 by {
        assert nowMs / 1000 * 1000 > nowMs - 1000;
      }
    }
  }
}
