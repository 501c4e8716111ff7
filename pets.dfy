/** The Pets page: its four listings and its category options. */
module Pets {
  import opened Listings
  import opened Seqs

  const Catalogue: seq<Listing> := [
    Listing(1, "Happy Paws Pet Care", "Dog Walking & Grooming", "$30-$80", 55,
      "CA", "San Francisco", "info@happypaws.com", "(415) 555-0123", "Dog Walking"),
    Listing(2, "Furry Friends Pet Sitting", "Pet Sitting & Boarding", "$25-$60", 42,
      "CA", "Los Angeles", "contact@furryfriends.com", "(213) 555-0456", "Pet Sitting"),
    Listing(3, "Posh Paws Grooming", "Professional Grooming", "$40-$100", 70,
      "NY", "New York", "contact@poshpaws.com", "(212) 555-0789", "Grooming"),
    Listing(4, "Pampered Pets Boarding", "Luxury Pet Boarding", "$50-$150", 100,
      "TX", "Austin", "info@pamperedpets.com", "(512) 555-0321", "Boarding")
  ]

  /** The category drop-down, in page order. */
  const CategoryOptions := [AllCategories, "Dog Walking", "Grooming", "Pet Sitting", "Boarding"]

  /** Every specific category option shows exactly one listing, whichever sorts are chosen. */
  lemma EachOptionSelectsOne(k: nat, byLocation: string, byPrice: string)
    requires 1 <= k < |CategoryOptions|
    ensures |Pipeline(Catalogue, CategoryOptions[k], byLocation, byPrice)| == 1
    ensures Pipeline(Catalogue, CategoryOptions[k], byLocation, byPrice)[0].category == CategoryOptions[k]
  {
    var option := CategoryOptions[k];
    var e := if k == 1 then 0 else if k == 2 then 2 else if k == 3 then 1 else 3;
    DistinctCategories();
    FilterUnique(Catalogue, InCategory(option), e);
    PipelineOfOne(Catalogue, option, byLocation, byPrice);
  }

  lemma DistinctCategories()
    ensures forall i, j :: 0 <= i < j < |Catalogue| ==> Catalogue[i].category != Catalogue[j].category
  {
  }

  /** 'All Categories' shows all four listings. */
  lemma AllCategoriesShowsAll(byLocation: string, byPrice: string)
    ensures multiset(Pipeline(Catalogue, AllCategories, byLocation, byPrice)) == multiset(Catalogue)
  {
    PipelinePermutation(Catalogue, AllCategories, byLocation, byPrice);
  }
}
