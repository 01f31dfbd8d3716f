/**
 * The eight work genres (genre.rs) and the genre resource. A genre's URL
 * form (strum) is its variant name except `All`, written "all"; its JSON
 * form (serde, no renames) is always the variant name.
 */
module Genre {
  import opened Types
  import Text
  import Api

  datatype Genre = All | Popular | Recommended | Chamber | Keyboard | Orchestral | Stage | Vocal

  /** The variant's name: the string serde decodes it from. */
  function Name(g: Genre): string {
    match g
    case All => "All"
    case Popular => "Popular"
    case Recommended => "Recommended"
    case Chamber => "Chamber"
    case Keyboard => "Keyboard"
    case Orchestral => "Orchestral"
    case Stage => "Stage"
    case Vocal => "Vocal"
  }

  /** The path-segment form of a genre (`into_url_str`). */
  function UrlStr(g: Genre): (s: string)
    ensures |s| > 0 && '/' !in s
    ensures s == Name(g) <==> g != All
  {
    if g == All then "all" else Name(g)
  }

  /** Decoding a genre from a JSON string: exactly the variant names decode. */
  function FromJson(s: string): (r: Option<Genre>)
    ensures forall g :: r == Some(g) <==> Name(g) == s
  {
    if s == "All" then Some(All)
    else if s == "Popular" then Some(Popular)
    else if s == "Recommended" then Some(Recommended)
    else if s == "Chamber" then Some(Chamber)
    else if s == "Keyboard" then Some(Keyboard)
    else if s == "Orchestral" then Some(Orchestral)
    else if s == "Stage" then Some(Stage)
    else if s == "Vocal" then Some(Vocal)
    else None
  }

  /** The inverse of `UrlStr` on path segments (used to read URLs back). */
  function FromUrlStr(s: string): (r: Option<Genre>)
    ensures forall g :: r == Some(g) <==> UrlStr(g) == s
  {
    if s == "all" then Some(All) else if s == "All" then None else FromJson(s)
  }

  /** Distinct genres have distinct URL forms. */
  lemma UrlStrInjective(a: Genre, b: Genre)
    requires UrlStr(a) == UrlStr(b)
    ensures a == b
  {
  }

  /**
   * The URL form decodes back as JSON for every genre but `All`, whose URL
   * form "all" is not a JSON genre while "All" is.
   */
  lemma FromJsonUrlStr(g: Genre)
    ensures FromJson(UrlStr(g)) == (if g == All then None else Some(g))
    ensures FromJson(Name(All)) == Some(All)
  {
  }

  const ListPrefix := "https://api.openopus.org/genre/list/composer/"

  /** The URL `list_by_composer_id` fetches: it names its composer. */
  function ListByComposerIdUrl(composerId: u32): (url: string)
    ensures ParseListByComposerIdUrl(url) == Some(composerId)
  {
    var d := Text.Decimal(composerId as nat);
    Text.StripPrefixOf(ListPrefix, d + ".json");
    Text.StripSuffixOf(d, ".json");
    Text.ParseU32RoundTrip(composerId);
    assert ListPrefix + d + ".json" == ListPrefix + (d + ".json");
    ListPrefix + d + ".json"
  }

  /** Reads a genre-list URL back into the composer identifier it names. */
  function ParseListByComposerIdUrl(url: string): Option<u32> {
    var rest :- Text.StripPrefix(url, ListPrefix);
    var digits :- Text.StripSuffix(rest, ".json");
    Text.ParseU32(digits)
  }

  /** Distinct composers have distinct genre-list URLs. */
  lemma ListByComposerIdUrlInjective(id1: u32, id2: u32)
    requires ListByComposerIdUrl(id1) == ListByComposerIdUrl(id2)
    ensures id1 == id2
  {
  }

  /** `list_by_composer_id`: the genres of one composer, or the error the API reports. */
  function ListByComposerId(composerId: u32, server: Api.Server<Genre>): (r: Api.Result<seq<Genre>>)
    requires Api.Conforms(server(ListByComposerIdUrl(composerId)))
    ensures Api.Answers(r, server(ListByComposerIdUrl(composerId)))
  {
    Api.ListCommon(server(ListByComposerIdUrl(composerId)))
  }
}
