/** The decoded feed of Momentum/UseCase/FeedEntity.swift. */
module FeedEntities {
  import opened Wrappers

  /** A Foundation `URL`: only equality is observable. */
  type Url(==, !new)

  /** `InfoResponse`: pagination metadata. */
  datatype InfoResponse = InfoResponse(count: int, pages: int)

  /** `CharactersResponse`: one character; `species` and `image` may be absent. Equality is field-wise. */
  datatype CharactersResponse = CharactersResponse(
    id: int,
    name: string,
    species: Option<string>,
    image: Option<Url>)

  /** `FeedEntity`: exactly an `info` and an ordered `results` list. */
  datatype FeedEntity = FeedEntity(info: InfoResponse, results: seq<CharactersResponse>)

  /** How many entries of `results` carry character id `id`. */
  function CountId(results: seq<CharactersResponse>, id: int): (n: nat)
    ensures n <= |results|
    ensures n == 0 <==> forall k :: 0 <= k < |results| ==> results[k].id != id
  {
    if results == [] then 0
    else (if results[0].id == id then 1 else 0) + CountId(results[1..], id)
  }

  /** Two equal characters are equal field by field, and a feed keeps duplicates: nothing dedupes `results`. */
  lemma DuplicatesAreKept(c: CharactersResponse, info: InfoResponse)
    ensures |FeedEntity(info, [c, c]).results| == 2
    ensures CountId(FeedEntity(info, [c, c]).results, c.id) == 2
  {
    assert [c, c][1..] == [c];
  }

  /** The initializers store their arguments unchanged. */
  lemma InitializersStoreArguments(count: int, pages: int, id: int, name: string,
                                   species: Option<string>, image: Option<Url>)
    ensures InfoResponse(count, pages).count == count && InfoResponse(count, pages).pages == pages
    ensures var c := CharactersResponse(id, name, species, image);
      c.id == id && c.name == name && c.species == species && c.image == image
  {
  }
}
