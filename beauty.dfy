/** The Beauty page: its four listings and its category options.  The
    fourth entry's `state: 'TX'` lacks the comma that separates it from
    `town` in the page's source; the record below is the one evidently meant. */
module Beauty {
  import opened Listings
  import opened Seqs

  const Catalogue: seq<Listing> := [
    Listing(1, "nancy nails", "nails and womens hair stylists", "$30-$300", 55,
      "CA", "San Francisco", "info@nancynails.com", "(418) 333-1672", "Nails"),
    Listing(2, "Barber for you", "Mens Haircuts", "$50-$60", 42,
      "CA", "Los Angeles", "contact@barbernow.com", "(213) 555-0456", "Mens Cuts"),
    Listing(3, "Elise beauty", "Make-up Artist", "$40-$100", 70,
      "NY", "New York", "contact@EliseMakeup.com", "(312) 512-0127", "makeup"),
    Listing(4, "Sheilas Beauty", "womens Hairstyle", "$50-$300", 100,
      "TX", "Austin", "info@sheilabeauty.com", "(498) 204-0321", "Womens Hairstyle")
  ]

  /** The category drop-down, in page order. */
  const CategoryOptions := [AllCategories, "Nails", "Mens Cuts", "Makeup", "Womens Hairstyle"]

  /** 'Nails', 'Mens Cuts' and 'Womens Hairstyle' each show exactly one listing. */
  lemma MatchingOptionsSelectOne(k: nat, byLocation: string, byPrice: string)
    requires k == 1 || k == 2 || k == 4
    ensures |Pipeline(Catalogue, CategoryOptions[k], byLocation, byPrice)| == 1
    ensures Pipeline(Catalogue, CategoryOptions[k], byLocation, byPrice)[0].category == CategoryOptions[k]
  {
    var option := CategoryOptions[k];
    var e := if k == 1 then 0 else if k == 2 then 1 else 3;
    DistinctCategories();
    FilterUnique(Catalogue, InCategory(option), e);
    PipelineOfOne(Catalogue, option, byLocation, byPrice);
  }

  /** 'Makeup' shows nothing: the entry's category is 'makeup' and the
      comparison respects case. */
  lemma MakeupSelectsNone(byLocation: string, byPrice: string)
    ensures Pipeline(Catalogue, "Makeup", byLocation, byPrice) == []
  {
    assert forall i :: 0 <= i < |Catalogue| ==> Catalogue[i].category != "Makeup";
    FilterUnique(Catalogue, InCategory("Makeup"), -1);
  }

  lemma DistinctCategories()
    ensures forall i, j :: 0 <= i < j < |Catalogue| ==> Catalogue[i].category != Catalogue[j].category
  {
  }

  /** 'All Categories' shows all four listings. */
  lemma AllCategoriesShowsAll(byLocation: string, byPrice: string)
    ensures multiset(Pipeline(Catalogue, AllCategories, byLocation, byPrice)) == multiset(Catalogue)
  {
    PipelinePermutation(Catalogue, AllCategories, byLocation, byPrice);
  }
}
