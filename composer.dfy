/**
 * Composers (composer.rs): the composer record, the six composer resources
 * and the operations on a fetched composer, which forward its identifier to
 * the genre and work resources.
 */
module Composer {
  import opened Types
  import Text
  import Epoch
  import Genre
  import Work
  import Api
  import Status

  /** A calendar date as the API sends it; its parsing is not modelled. */
  datatype Date = Date(text: string)

  datatype Composer = Composer(
    id: u32,
    name: string,
    completeName: string,
    birth: Option<Date>,
    death: Option<Date>,
    epoch: Epoch.Epoch,
    portrait: string)

  const ListPrefix := "https://api.openopus.org/composer/list/"

  /** The URL `list_popular` fetches. */
  function PopularUrl(): (url: string)
    ensures ParseUrl(url) == Some(Popular)
  {
    StemOf("pop");
    ListPrefix + "pop.json"
  }

  /** The URL `list_essential` fetches. */
  function EssentialUrl(): (url: string)
    ensures ParseUrl(url) == Some(Essential)
  {
    StemOf("rec");
    assert "rec" != "pop";
    ListPrefix + "rec.json"
  }

  /** The URL `list_by_first_letter` fetches: it names its letter. */
  function FirstLetterUrl(firstLetter: char): (url: string)
    ensures ParseUrl(url) == Some(FirstLetter(firstLetter))
  {
    ListPrefix + "name/" + [firstLetter] + ".json"
  }

  /** The URL `list_by_period` fetches: it names its period. */
  function PeriodUrl(epoch: Epoch.Epoch): (url: string)
    ensures ParseUrl(url) == Some(Period(epoch))
  {
    var segment := Epoch.UrlStr(epoch);
    Epoch.FromJsonUrlStr(epoch);
    ParseEpochStem(segment, epoch);
    assert ListPrefix + "epoch/" + segment + ".json" == ListPrefix + ("epoch/" + segment) + ".json";
    ListPrefix + "epoch/" + segment + ".json"
  }

  /** The URL `search` fetches: it names its word, spliced in unescaped. */
  function SearchUrl(word: string): (url: string)
    ensures ParseUrl(url) == Some(Search(word))
  {
    var stem := "search/" + word;
    StemOf(stem);
    assert stem[0] == 's' && stem[7..] == word;
    assert ListPrefix + "search/" + word + ".json" == ListPrefix + stem + ".json";
    ListPrefix + "search/" + word + ".json"
  }

  /** The URL `get_by_id` fetches: it names its identifier. */
  function IdsUrl(id: u32): (url: string)
    ensures ParseUrl(url) == Some(Ids(id))
  {
    var d := Text.Decimal(id as nat);
    Text.ParseU32RoundTrip(id);
    ParseIdsStem(d, id);
    assert ListPrefix + "ids/" + d + ".json" == ListPrefix + ("ids/" + d) + ".json";
    ListPrefix + "ids/" + d + ".json"
  }

  /** The six composer-list requests the client can make. */
  datatype Query =
    | Popular
    | Essential
    | FirstLetter(letter: char)
    | Period(epoch: Epoch.Epoch)
    | Search(word: string)
    | Ids(id: u32)

  /**
   * The URL of each request. Every composer URL names its request: reading it
   * back gives the request that built it, so no two requests share a URL.
   */
  function QueryUrl(q: Query): (url: string)
    ensures ParseUrl(url) == Some(q)
  {
    match q
    case Popular => PopularUrl()
    case Essential => EssentialUrl()
    case FirstLetter(c) => FirstLetterUrl(c)
    case Period(e) => PeriodUrl(e)
    case Search(w) => SearchUrl(w)
    case Ids(id) => IdsUrl(id)
  }

  /** Reads a composer-list URL back into the request it makes. */
  function ParseUrl(url: string): Option<Query> {
    var rest :- Text.StripPrefix(url, ListPrefix);
    var stem :- Text.StripSuffix(rest, ".json");
    if stem == "pop" then Some(Popular)
    else if stem == "rec" then Some(Essential)
    else if "name/" <= stem then (if |stem| == 6 then Some(FirstLetter(stem[5])) else None)
    else if "epoch/" <= stem then
      var e :- Epoch.FromJson(stem[6..]);
      Some(Period(e))
    else if "search/" <= stem then Some(Search(stem[7..]))
    else if "ids/" <= stem then
      var id :- Text.ParseU32(stem[4..]);
      Some(Ids(id))
    else None
  }

  /** The stem of a URL the client builds: what lies between the list prefix and ".json". */
  lemma StemOf(stem: string)
    ensures Text.StripPrefix(ListPrefix + stem + ".json", ListPrefix) == Some(stem + ".json")
    ensures Text.StripSuffix(stem + ".json", ".json") == Some(stem)
  {
    assert ListPrefix + stem + ".json" == ListPrefix + (stem + ".json");
    Text.StripPrefixOf(ListPrefix, stem + ".json");
    Text.StripSuffixOf(stem, ".json");
  }

  /** An identifiers stem reads back as whatever identifier its digits parse to. */
  lemma ParseIdsStem(digits: string, id: u32)
    requires Text.ParseU32(digits) == Some(id)
    ensures ParseUrl(ListPrefix + ("ids/" + digits) + ".json") == Some(Ids(id))
  {
    var stem := "ids/" + digits;
    StemOf(stem);
    assert stem[0] == 'i' && stem[4..] == digits;
  }

  /** An epoch stem reads back as whatever period its segment decodes to. */
  lemma ParseEpochStem(segment: string, e: Epoch.Epoch)
    requires Epoch.FromJson(segment) == Some(e)
    ensures ParseUrl(ListPrefix + ("epoch/" + segment) + ".json") == Some(Period(e))
  {
    var stem := "epoch/" + segment;
    StemOf(stem);
    assert stem[0] == 'e' && stem[6..] == segment;
  }

  /** Distinct requests have distinct URLs. */
  lemma QueryUrlInjective(q1: Query, q2: Query)
    requires QueryUrl(q1) == QueryUrl(q2)
    ensures q1 == q2
  {
  }

  /** Distinct periods are listed from distinct URLs. */
  lemma PeriodUrlInjective(e1: Epoch.Epoch, e2: Epoch.Epoch)
    requires PeriodUrl(e1) == PeriodUrl(e2)
    ensures e1 == e2
  {
    QueryUrlInjective(Period(e1), Period(e2));
  }

  /** `list_popular`. */
  function ListPopular(server: Api.Server<Composer>): (r: Api.Result<seq<Composer>>)
    requires Api.Conforms(server(PopularUrl()))
    ensures Api.Answers(r, server(PopularUrl()))
  {
    Api.ListCommon(server(PopularUrl()))
  }

  /** `list_essential`. */
  function ListEssential(server: Api.Server<Composer>): (r: Api.Result<seq<Composer>>)
    requires Api.Conforms(server(EssentialUrl()))
    ensures Api.Answers(r, server(EssentialUrl()))
  {
    Api.ListCommon(server(EssentialUrl()))
  }

  /** `list_by_first_letter`. */
  function ListByFirstLetter(firstLetter: char, server: Api.Server<Composer>)
    : (r: Api.Result<seq<Composer>>)
    requires Api.Conforms(server(FirstLetterUrl(firstLetter)))
    ensures Api.Answers(r, server(FirstLetterUrl(firstLetter)))
  {
    Api.ListCommon(server(FirstLetterUrl(firstLetter)))
  }

  /** `list_by_period`. */
  function ListByPeriod(epoch: Epoch.Epoch, server: Api.Server<Composer>): (r: Api.Result<seq<Composer>>)
    requires Api.Conforms(server(PeriodUrl(epoch)))
    ensures Api.Answers(r, server(PeriodUrl(epoch)))
  {
    Api.ListCommon(server(PeriodUrl(epoch)))
  }

  /** `search`. */
  function SearchComposers(word: string, server: Api.Server<Composer>): (r: Api.Result<seq<Composer>>)
    requires Api.Conforms(server(SearchUrl(word)))
    ensures Api.Answers(r, server(SearchUrl(word)))
  {
    Api.ListCommon(server(SearchUrl(word)))
  }

  /**
   * What `get_by_id` relies on without checking: a successful answer lists
   * at least one composer.
   */
  predicate ListsSomeone(resp: Api.Response<Composer>) {
    Api.Conforms(resp) && (Api.ListCommon(resp).Ok? ==> |Api.ListCommon(resp).value| > 0)
  }

  /**
   * `get_by_id`: the first composer of the listing for that identifier, or
   * the listing's error passed on unchanged.
   */
  function GetById(id: u32, server: Api.Server<Composer>): (r: Api.Result<Composer>)
    requires ListsSomeone(server(IdsUrl(id)))
    ensures r.Ok? ==> exists items :: Api.Answers(Api.Ok(items), server(IdsUrl(id)))
                                      && |items| > 0 && r.value == items[0]
    ensures r.Err? ==> Api.Answers(Api.Err(r.error), server(IdsUrl(id)))
  {
    match Api.ListCommon(server(IdsUrl(id)))
    case Ok(items) => Api.Ok(items[0])
    case Err(e) => Api.Err(e)
  }

  /**
   * An identifier the API does not know is answered with a failure status,
   * and `get_by_id` hands its message to the caller verbatim.
   */
  lemma GetByIdPropagatesError(id: u32, server: Api.Server<Composer>, e: Status.ErrStatus)
    requires server(IdsUrl(id)).Body?
    requires Status.Decode(server(IdsUrl(id)).status) == Some(Status.Err(e))
    ensures ListsSomeone(server(IdsUrl(id)))
    ensures GetById(id, server) == Api.Err(Api.OpenOpusApiError(e.error))
  {
  }

  /** `genres`: the genre listing for the composer's own identifier. */
  function Genres(c: Composer, server: Api.Server<Genre.Genre>): (r: Api.Result<seq<Genre.Genre>>)
    requires Api.Conforms(server(Genre.ListByComposerIdUrl(c.id)))
    ensures Api.Answers(r, server(Genre.ListByComposerIdUrl(c.id)))
  {
    Genre.ListByComposerId(c.id, server)
  }

  /** `works`: the composer's works in every genre. */
  function Works(c: Composer, server: Api.Server<Work.Work>): (r: Api.Result<seq<Work.Work>>)
    requires Api.Conforms(server(Work.ListUrl(c.id, Genre.All)))
    ensures Api.Answers(r, server(Work.ListUrl(c.id, Genre.All)))
  {
    Work.ListByComposerIdAndGenre(c.id, Genre.All, server)
  }

  /** `popular_works`: the composer's works in the Popular genre. */
  function PopularWorks(c: Composer, server: Api.Server<Work.Work>): (r: Api.Result<seq<Work.Work>>)
    requires Api.Conforms(server(Work.ListUrl(c.id, Genre.Popular)))
    ensures Api.Answers(r, server(Work.ListUrl(c.id, Genre.Popular)))
  {
    Work.ListByComposerIdAndGenre(c.id, Genre.Popular, server)
  }

  /** `recommended_works`: the composer's works in the Recommended genre. */
  function RecommendedWorks(c: Composer, server: Api.Server<Work.Work>): (r: Api.Result<seq<Work.Work>>)
    requires Api.Conforms(server(Work.ListUrl(c.id, Genre.Recommended)))
    ensures Api.Answers(r, server(Work.ListUrl(c.id, Genre.Recommended)))
  {
    Work.ListByComposerIdAndGenre(c.id, Genre.Recommended, server)
  }

  /** `works_by_genre`: the composer's works in the given genre. */
  function WorksByGenre(c: Composer, genre: Genre.Genre, server: Api.Server<Work.Work>)
    : (r: Api.Result<seq<Work.Work>>)
    requires Api.Conforms(server(Work.ListUrl(c.id, genre)))
    ensures Api.Answers(r, server(Work.ListUrl(c.id, genre)))
  {
    Work.ListByComposerIdAndGenre(c.id, genre, server)
  }

  /** `search_works`: a search of the composer's works in every genre. */
  function SearchWorks(c: Composer, word: string, server: Api.Server<Work.Work>)
    : (r: Api.Result<seq<Work.Work>>)
    requires Api.Conforms(server(Work.SearchUrl(c.id, Genre.All, word)))
    ensures Api.Answers(r, server(Work.SearchUrl(c.id, Genre.All, word)))
  {
    Work.SearchWithComposerIdAndGenre(c.id, Genre.All, word, server)
  }

  /** `search_works_with_genre`: takes (word, genre) and forwards (identifier, genre, word). */
  function SearchWorksWithGenre(c: Composer, word: string, genre: Genre.Genre, server: Api.Server<Work.Work>)
    : (r: Api.Result<seq<Work.Work>>)
    requires Api.Conforms(server(Work.SearchUrl(c.id, genre, word)))
    ensures Api.Answers(r, server(Work.SearchUrl(c.id, genre, word)))
  {
    Work.SearchWithComposerIdAndGenre(c.id, genre, word, server)
  }

  /**
   * The shorthand work operations of a composer are the general ones at a
   * fixed genre: `works`, `popular_works` and `recommended_works` are
   * `works_by_genre` at All, Popular and Recommended, and `search_works` is
   * `search_works_with_genre` at All.
   */
  lemma DelegatedWorkRequests(c: Composer, word: string, server: Api.Server<Work.Work>)
    requires Api.Conforms(server(Work.ListUrl(c.id, Genre.All)))
    requires Api.Conforms(server(Work.ListUrl(c.id, Genre.Popular)))
    requires Api.Conforms(server(Work.ListUrl(c.id, Genre.Recommended)))
    requires Api.Conforms(server(Work.SearchUrl(c.id, Genre.All, word)))
    ensures Works(c, server) == WorksByGenre(c, Genre.All, server)
    ensures PopularWorks(c, server) == WorksByGenre(c, Genre.Popular, server)
    ensures RecommendedWorks(c, server) == WorksByGenre(c, Genre.Recommended, server)
    ensures SearchWorks(c, word, server) == SearchWorksWithGenre(c, word, Genre.All, server)
  {
  }

  /** `works` fetches the URL documented for it: ".../genre/all.json". */
  lemma WorksUrlIsAll(c: Composer)
    ensures Work.ListUrl(c.id, Genre.All)
         == "https://api.openopus.org/work/list/composer/" + Text.Decimal(c.id as nat) + "/genre/all.json"
  {
    var head := Work.ListPrefix + Text.Decimal(c.id as nat);
    assert Genre.UrlStr(Genre.All) == "all";
    Text.Regroup4(head, "/genre/", "all", ".json");
  }
}
