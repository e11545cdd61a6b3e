/** The adopter's listings page: the search box filter and the message shown
    when nothing is listed. */
module AdoptionsPage {
  import opened JsText
  import opened JsValues
  import opened Schema

  /** The search callback: the lower-cased term occurs in the lower-cased
      name, animal type or description. */
  predicate MatchesSearch(term: string, animal: AdoptableAnimal) {
    var q := ToLower(term);
    Includes(ToLower(animal.name), q) || Includes(ToLower(animal.animalType), q)
      || Includes(ToLower(animal.description), q)
  }

  /** `animals?.filter(...)`: nothing while nothing has been fetched. */
  function FilteredAnimals(term: string, fetched: Option<seq<AdoptableAnimal>>): (r: Option<seq<AdoptableAnimal>>)
    ensures r.Some? <==> fetched.Some?
    ensures r.Some? ==> IsSubsequence(r.value, fetched.value)
    ensures r.Some? ==>
      forall a :: multiset(r.value)[a] == if MatchesSearch(term, a) then multiset(fetched.value)[a] else 0
  {
    match fetched
    case None => None
    case Some(animals) =>
      var keep := a => MatchesSearch(term, a);
      FilterIsSubsequence(animals, keep);
      FilterMultiset(animals, keep);
      Some(Filter(animals, keep))
  }

  /** An empty search shows every listing, in order. */
  lemma EmptySearchKeepsAll(animals: seq<AdoptableAnimal>)
    ensures FilteredAnimals("", Some(animals)) == Some(animals)
  {
    assert ToLower("") == "";
    FilterKeepsAll(animals, a => MatchesSearch("", a));
  }

  /** Terms that differ only in letter case find the same listings. */
  lemma SearchIgnoresCase(t: string, u: string, fetched: Option<seq<AdoptableAnimal>>)
    requires ToLower(t) == ToLower(u)
    ensures FilteredAnimals(t, fetched) == FilteredAnimals(u, fetched)
  {
    if fetched.Some? {
      FilterCongruent(fetched.value, a => MatchesSearch(t, a), a => MatchesSearch(u, a));
    }
  }

  /** In particular, typing the term in capitals changes nothing. */
  lemma LowerCasedSearchIsSame(t: string, fetched: Option<seq<AdoptableAnimal>>)
    ensures FilteredAnimals(ToLower(t), fetched) == FilteredAnimals(t, fetched)
  {
    ToLowerIdempotent(t);
    SearchIgnoresCase(ToLower(t), t, fetched);
  }

  datatype View = Loading | Cards(animals: seq<AdoptableAnimal>) | NothingListed(message: string)

  const NoMatchMessage := "No animals match your search criteria. Please try a different search."
  const NoneListedMessage := "No animals are currently available for adoption."

  /** What the page shows: a spinner while loading, the cards when some
      listing passes the search, and otherwise a message that depends only
      on whether a term was typed. */
  function PageView(isLoading: bool, term: string, fetched: Option<seq<AdoptableAnimal>>): (v: View)
    ensures isLoading <==> v.Loading?
    ensures v.Cards? ==> Some(v.animals) == FilteredAnimals(term, fetched) && |v.animals| > 0
    ensures v.NothingListed? ==> v.message == (if term != "" then NoMatchMessage else NoneListedMessage)
    ensures !isLoading && fetched.Some? && |FilteredAnimals(term, fetched).value| > 0 ==> v.Cards?
  {
    if isLoading then Loading
    else
      var shown := FilteredAnimals(term, fetched);
      if shown.Some? && |shown.value| > 0 then Cards(shown.value)
      else NothingListed(if term != "" then NoMatchMessage else NoneListedMessage)
  }
}
