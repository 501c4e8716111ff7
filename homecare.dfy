/** The Home Care page: its five listings and its category options. */
module Homecare {
  import opened Listings
  import opened Seqs

  const Catalogue: seq<Listing> := [
    Listing(1, "BrightFix Home Repair", "General Handyman Services", "$40-$120", 75,
      "FL", "Miami", "support@brightfix.com", "(305) 555-1122", "Handy Work"),
    Listing(2, "ProTech Electricians", "Electrical Installations & Repairs", "$80-$200", 140,
      "FL", "Orlando", "contact@protech.com", "(407) 555-3344", "Electrical"),
    Listing(3, "SafeFlow Plumbing", "Plumbing Repairs & Installations", "$60-$180", 110,
      "TX", "Houston", "info@safeflow.com", "(713) 555-5566", "Plumbing"),
    Listing(4, "Structura Builders", "Minor Structural Repairs", "$150-$400", 275,
      "CA", "San Diego", "services@structura.com", "(619) 555-7788", "Structural"),
    Listing(5, "FurniCraft Assembly", "Flatpack & Custom Furniture Assembly", "$50-$140", 95,
      "NY", "Brooklyn", "team@furnicraft.com", "(718) 555-9900", "Furniture Building")
  ]

  /** The category drop-down, in page order. */
  const CategoryOptions := [AllCategories, "Plumbing", "Electrical", "Furniture Building", "Structural", "Handy Work"]

  /** Every specific category option shows exactly one listing, whichever sorts are chosen. */
  lemma EachOptionSelectsOne(k: nat, byLocation: string, byPrice: string)
    requires 1 <= k < |CategoryOptions|
    ensures |Pipeline(Catalogue, CategoryOptions[k], byLocation, byPrice)| == 1
    ensures Pipeline(Catalogue, CategoryOptions[k], byLocation, byPrice)[0].category == CategoryOptions[k]
  {
    var option := CategoryOptions[k];
    var e := if k == 1 then 2 else if k == 2 then 1 else if k == 3 then 4 else if k == 4 then 3 else 0;
    CategoryMatch(option, e);
    PipelineOfOne(Catalogue, option, byLocation, byPrice);
  }

  /** The option named by entry `e` matches that entry and no other. */
  lemma CategoryMatch(option: string, e: nat)
    requires e < |Catalogue| && option == Catalogue[e].category
    ensures Filtered(Catalogue, option) == [Catalogue[e]]
  {
    DistinctCategories();
    FilterUnique(Catalogue, InCategory(option), e);
  }

  lemma DistinctCategories()
    ensures forall i, j :: 0 <= i < j < |Catalogue| ==> Catalogue[i].category != Catalogue[j].category
  {
  }

  /** 'All Categories' shows all five listings. */
  lemma AllCategoriesShowsAll(byLocation: string, byPrice: string)
    ensures multiset(Pipeline(Catalogue, AllCategories, byLocation, byPrice)) == multiset(Catalogue)
  {
    PipelinePermutation(Catalogue, AllCategories, byLocation, byPrice);
  }
}
