/** The provider list shared by the Home Care, Pets and Beauty pages: a
    fixed catalogue of listings, filtered by exact category and then sorted
    in place by town and by price (the `providers` memo of each page). */
module Listings {
  import opened Seqs
  import opened Sorting
  import Text

  /** One catalogue entry of a static page. */
  datatype Listing = Listing(
    id: nat,
    name: string,
    service: string,
    priceRange: string,
    priceValue: int,
    state: string,
    town: string,
    email: string,
    phone: string,
    category: string)

  // The options of the three drop-downs (the first of each is the default).
  const AllCategories := "All Categories"
  const DefaultLocation := "Location"
  const NearestFirst := "Nearest First"
  const FarthestFirst := "Farthest First"
  const DefaultPrice := "Price"
  const LowToHigh := "Low to High"
  const HighToLow := "High to Low"
  const LocationOptions := [DefaultLocation, NearestFirst, FarthestFirst]
  const PriceOptions := [DefaultPrice, LowToHigh, HighToLow]

  // The comparators, as relations: `le(a, b)` when the comparator of the
  // source returns a value <= 0 for (a, b).
  const TownAscending: (Listing, Listing) -> bool := (a: Listing, b: Listing) => Text.StrLe(a.town, b.town)
  const TownDescending: (Listing, Listing) -> bool := (a: Listing, b: Listing) => Text.StrLe(b.town, a.town)
  const PriceAscending: (Listing, Listing) -> bool := (a: Listing, b: Listing) => a.priceValue <= b.priceValue
  const PriceDescending: (Listing, Listing) -> bool := (a: Listing, b: Listing) => b.priceValue <= a.priceValue
  /** The order a selection that sorts nothing keeps: every pair may stay. */
  const Unordered: (Listing, Listing) -> bool := (a: Listing, b: Listing) => true

  function InCategory(category: string): Listing -> bool
  {
    (p: Listing) => p.category == category
  }

  /** The category stage: `p.category === selectedCategory` unless all are shown. */
  function Filtered(all: seq<Listing>, category: string): seq<Listing>
  {
    if category == AllCategories then all else Filter(all, InCategory(category))
  }

  /** The location stage. */
  function ByLocation(s: seq<Listing>, byLocation: string): seq<Listing>
  {
    if byLocation == NearestFirst then SortBy(s, TownAscending)
    else if byLocation == FarthestFirst then SortBy(s, TownDescending)
    else s
  }

  /** The price stage, applied last. */
  function ByPrice(s: seq<Listing>, byPrice: string): seq<Listing>
  {
    if byPrice == LowToHigh then SortBy(s, PriceAscending)
    else if byPrice == HighToLow then SortBy(s, PriceDescending)
    else s
  }

  /** What the page shows for the three selections. */
  function Pipeline(all: seq<Listing>, category: string, byLocation: string, byPrice: string): seq<Listing>
  {
    ByPrice(ByLocation(Filtered(all, category), byLocation), byPrice)
  }

  /** The order the location selection imposes. */
  function LocationOrder(byLocation: string): (Listing, Listing) -> bool
  {
    if byLocation == NearestFirst then TownAscending
    else if byLocation == FarthestFirst then TownDescending
    else Unordered
  }

  /** The order the price selection imposes. */
  function PriceOrder(byPrice: string): (Listing, Listing) -> bool
  {
    if byPrice == LowToHigh then PriceAscending
    else if byPrice == HighToLow then PriceDescending
    else Unordered
  }

  // ------------------------------------------------------------------ orders

  lemma OrdersArePreorders()
    ensures TotalPreorder(TownAscending) && TotalPreorder(TownDescending)
    ensures TotalPreorder(PriceAscending) && TotalPreorder(PriceDescending)
    ensures TotalPreorder(Unordered)
  {
    forall a: Listing, b: Listing ensures TownAscending(a, b) || TownAscending(b, a) {
      Text.StrLeTotal(a.town, b.town);
    }
    forall a: Listing, b: Listing, c: Listing | TownAscending(a, b) && TownAscending(b, c)
      ensures TownAscending(a, c)
    {
      Text.StrLeTransitive(a.town, b.town, c.town);
    }
    forall a: Listing, b: Listing ensures TownDescending(a, b) || TownDescending(b, a) {
      Text.StrLeTotal(a.town, b.town);
    }
    forall a: Listing, b: Listing, c: Listing | TownDescending(a, b) && TownDescending(b, c)
      ensures TownDescending(a, c)
    {
      Text.StrLeTransitive(c.town, b.town, a.town);
    }
  }

  lemma SelectionOrdersArePreorders(byLocation: string, byPrice: string)
    ensures TotalPreorder(LocationOrder(byLocation)) && TotalPreorder(PriceOrder(byPrice))
  {
    OrdersArePreorders();
  }

  /** Each stage is the stable sort by the order its selection names
      (a selection that sorts nothing is the sort by `Unordered`). */
  lemma StagesAreSorts(s: seq<Listing>, byLocation: string, byPrice: string)
    ensures ByLocation(s, byLocation) == SortBy(s, LocationOrder(byLocation))
    ensures ByPrice(s, byPrice) == SortBy(s, PriceOrder(byPrice))
  {
    SortBySortedInput(s, Unordered);
  }

  // -------------------------------------------------------------- properties

  /** The category stage keeps, in order, exactly the listings of that category. */
  lemma FilteredSpec(all: seq<Listing>, category: string)
    ensures category == AllCategories ==> Filtered(all, category) == all
    ensures Subseq(Filtered(all, category), all)
    ensures category != AllCategories ==>
      forall x :: multiset(Filtered(all, category))[x] ==
        if x.category == category then multiset(all)[x] else 0
  {
    FilterSubseq(all, InCategory(category));
    if category == AllCategories {
      SubseqReflexive(all);
    } else {
      forall x ensures multiset(Filtered(all, category))[x] ==
        if x.category == category then multiset(all)[x] else 0
      {
        FilterCounts(all, InCategory(category), x);
      }
    }
  }

  /** The sorts only reorder the filtered list. */
  lemma PipelinePermutation(all: seq<Listing>, category: string, byLocation: string, byPrice: string)
    ensures multiset(Pipeline(all, category, byLocation, byPrice)) == multiset(Filtered(all, category))
  {
    var f := Filtered(all, category);
    var located := ByLocation(f, byLocation);
    StagesAreSorts(f, byLocation, byPrice);
    StagesAreSorts(located, byLocation, byPrice);
    SortByPermutation(f, LocationOrder(byLocation));
    SortByPermutation(located, PriceOrder(byPrice));
  }

  /** The default selections show the filtered list in catalogue order. */
  lemma DefaultsKeepOrder(all: seq<Listing>, category: string)
    ensures Pipeline(all, category, DefaultLocation, DefaultPrice) == Filtered(all, category)
  {
  }

  /** A selection that keeps one listing shows just that listing. */
  lemma PipelineOfOne(all: seq<Listing>, category: string, byLocation: string, byPrice: string)
    requires |Filtered(all, category)| == 1
    ensures Pipeline(all, category, byLocation, byPrice) == Filtered(all, category)
  {
    var f := Filtered(all, category);
    assert Sorted(f, TownAscending) && Sorted(f, TownDescending);
    assert Sorted(f, PriceAscending) && Sorted(f, PriceDescending);
    SortBySortedInput(f, TownAscending);
    SortBySortedInput(f, TownDescending);
    SortBySortedInput(f, PriceAscending);
    SortBySortedInput(f, PriceDescending);
  }

  /** Reading the two orders off a list sorted by location and then, stably, by price. */
  lemma ReadOffOrders(r: seq<Listing>, byLocation: string, byPrice: string)
    requires forall i, j :: 0 <= i < j < |r| ==>
      PriceOrder(byPrice)(r[i], r[j]) && (PriceOrder(byPrice)(r[j], r[i]) ==> LocationOrder(byLocation)(r[i], r[j]))
    ensures
      && (byPrice == LowToHigh ==> forall i, j :: 0 <= i < j < |r| ==> r[i].priceValue <= r[j].priceValue)
      && (byPrice == HighToLow ==> forall i, j :: 0 <= i < j < |r| ==> r[i].priceValue >= r[j].priceValue)
      && (byLocation == NearestFirst ==> forall i, j :: 0 <= i < j < |r| && r[i].priceValue == r[j].priceValue ==>
            Text.StrLe(r[i].town, r[j].town))
      && (byLocation == FarthestFirst ==> forall i, j :: 0 <= i < j < |r| && r[i].priceValue == r[j].priceValue ==>
            Text.StrLe(r[j].town, r[i].town))
      && (byPrice != LowToHigh && byPrice != HighToLow && byLocation == NearestFirst ==>
            forall i, j :: 0 <= i < j < |r| ==> Text.StrLe(r[i].town, r[j].town))
      && (byPrice != LowToHigh && byPrice != HighToLow && byLocation == FarthestFirst ==>
            forall i, j :: 0 <= i < j < |r| ==> Text.StrLe(r[j].town, r[i].town))
  {
    forall i, j | 0 <= i < j < |r|
      ensures byPrice == LowToHigh ==> r[i].priceValue <= r[j].priceValue
      ensures byPrice == HighToLow ==> r[i].priceValue >= r[j].priceValue
      ensures byPrice != LowToHigh && byPrice != HighToLow ==> PriceOrder(byPrice)(r[j], r[i])
      ensures r[i].priceValue == r[j].priceValue ==> PriceOrder(byPrice)(r[j], r[i])
    {
      assert PriceOrder(byPrice)(r[i], r[j]);
    }
    forall i, j | 0 <= i < j < |r| && PriceOrder(byPrice)(r[j], r[i])
      ensures byLocation == NearestFirst ==> Text.StrLe(r[i].town, r[j].town)
      ensures byLocation == FarthestFirst ==> Text.StrLe(r[j].town, r[i].town)
    {
      assert LocationOrder(byLocation)(r[i], r[j]);
    }
  }

  /** The result is ordered by the price selection and, among listings of
      equal price, by the location selection (the price sort runs last and is stable). */
  lemma PipelineOrdered(all: seq<Listing>, category: string, byLocation: string, byPrice: string)
    ensures var r := Pipeline(all, category, byLocation, byPrice);
      && (byPrice == LowToHigh ==> forall i, j :: 0 <= i < j < |r| ==> r[i].priceValue <= r[j].priceValue)
      && (byPrice == HighToLow ==> forall i, j :: 0 <= i < j < |r| ==> r[i].priceValue >= r[j].priceValue)
      && (byLocation == NearestFirst ==> forall i, j :: 0 <= i < j < |r| && r[i].priceValue == r[j].priceValue ==>
            Text.StrLe(r[i].town, r[j].town))
      && (byLocation == FarthestFirst ==> forall i, j :: 0 <= i < j < |r| && r[i].priceValue == r[j].priceValue ==>
            Text.StrLe(r[j].town, r[i].town))
      && (byPrice != LowToHigh && byPrice != HighToLow && byLocation == NearestFirst ==>
            forall i, j :: 0 <= i < j < |r| ==> Text.StrLe(r[i].town, r[j].town))
      && (byPrice != LowToHigh && byPrice != HighToLow && byLocation == FarthestFirst ==>
            forall i, j :: 0 <= i < j < |r| ==> Text.StrLe(r[j].town, r[i].town))
  {
    var f := Filtered(all, category);
    StagesAreSorts(f, byLocation, byPrice);
    StagesAreSorts(ByLocation(f, byLocation), byLocation, byPrice);
    SelectionOrdersArePreorders(byLocation, byPrice);
    SortByThenBy(f, LocationOrder(byLocation), PriceOrder(byPrice));
    ReadOffOrders(Pipeline(all, category, byLocation, byPrice), byLocation, byPrice);
  }

  // ---------------------------------------------------------------- in place

  /** The `providers` memo.  `filter` builds a new array, but with
      'All Categories' the sorts run on the catalogue array itself. */
  method Providers(all: array<Listing>, category: string, byLocation: string, byPrice: string)
    returns (r: array<Listing>)
    modifies all
    ensures r[..] == Pipeline(old(all[..]), category, byLocation, byPrice)
    ensures category == AllCategories ==> r == all
    ensures category != AllCategories ==> fresh(r) && all[..] == old(all[..])
  {
    if category != AllCategories {
      var kept := Filter(all[..], InCategory(category));
      r := new Listing[|kept|](i requires 0 <= i < |kept| => kept[i]);
      assert r[..] == kept;
    } else {
      r := all;
    }
    if byLocation == NearestFirst {
      SortInPlace(r, TownAscending);
    } else if byLocation == FarthestFirst {
      SortInPlace(r, TownDescending);
    }
    if byPrice == LowToHigh {
      SortInPlace(r, PriceAscending);
    } else if byPrice == HighToLow {
      SortInPlace(r, PriceDescending);
    }
  }
}
