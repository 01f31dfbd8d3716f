/**
 * Works (work.rs): the work record, the "0"/"1" flag decoder and the two
 * work resources, listing a composer's works in a genre and searching them.
 */
module Work {
  import opened Types
  import Text
  import Genre
  import Api

  datatype Work = Work(
    title: string,
    subtitle: string,
    searchTerms: string,
    popular: bool,
    recommended: bool,
    id: u32,
    genre: Genre.Genre)

  /** The outcome of a field decoder: a value, or serde's custom error message. */
  datatype Decoded<T> = Decoded(value: T) | DecodeError(message: string)

  /** The raw string literal work.rs hands to `de::Error::custom`, braces included. */
  const InvalidFlagLiteral := "Invalid string: {}. should be \"0\" or \"1\""

  /** The flag string the API sends for `b`. */
  function FlagStr(b: bool): string {
    if b then "1" else "0"
  }

  /**
   * `IntStrBool::deserialize_as` as written: "0" and "1" decode, every other
   * string fails with the same fixed message.
   */
  function IntStrBoolAsWritten(s: string): (r: Decoded<bool>)
    ensures r.Decoded? <==> s == "0" || s == "1"
    ensures r.Decoded? ==> FlagStr(r.value) == s
    ensures r.DecodeError? ==> r.message == InvalidFlagLiteral
  {
    if s == "0" then Decoded(false)
    else if s == "1" then Decoded(true)
    else DecodeError(InvalidFlagLiteral)
  }

  /** The message the decoder evidently means to give: the offending string spliced in. */
  function InvalidFlagMessage(s: string): string {
    "Invalid string: " + s + ". should be \"0\" or \"1\""
  }

  /**
   * The flag decoder with its error message formatted: the same accepted
   * strings and values, and a rejected string is named in the message.
   */
  function IntStrBool(s: string): (r: Decoded<bool>)
    ensures r.Decoded? <==> s == "0" || s == "1"
    ensures r.Decoded? ==> FlagStr(r.value) == s
    ensures r.DecodeError? ==> |s| + 16 <= |r.message| && r.message[16..16 + |s|] == s
  {
    if s == "0" then Decoded(false)
    else if s == "1" then Decoded(true)
    else DecodeError(InvalidFlagMessage(s))
  }

  /** Encoding a flag and decoding it gives the flag back. */
  lemma IntStrBoolRoundTrip(b: bool)
    ensures IntStrBool(FlagStr(b)) == Decoded(b)
    ensures IntStrBoolAsWritten(FlagStr(b)) == Decoded(b)
  {
  }

  /**
   * The written decoder's error does not depend on the input: "2" and "yes"
   * are rejected with one and the same message, which names neither.
   */
  lemma IntStrBoolMessageOmitsInput()
    ensures IntStrBoolAsWritten("2") == IntStrBoolAsWritten("yes")
    ensures IntStrBoolAsWritten("2").DecodeError?
    ensures '2' !in IntStrBoolAsWritten("2").message
    ensures IntStrBool("2") != IntStrBool("yes")
  {
    LiteralOmitsDigitTwo();
    assert IntStrBool("2") != IntStrBool("yes") by {
      assert IntStrBool("2").message[16] == '2';
      assert IntStrBool("yes").message[16] == 'y';
    }
  }

  /**
   * The raw literal has no '2' in it. A separate lemma, so that the proof
   * about the message stays within the resource limit.
   */
  lemma LiteralOmitsDigitTwo()
    ensures '2' !in InvalidFlagLiteral
  {
    forall i | 0 <= i < |InvalidFlagLiteral| ensures InvalidFlagLiteral[i] != '2' { }
  }

  /** The two decoders agree on everything but the text of the error. */
  lemma IntStrBoolCorrectionIsMessageOnly(s: string)
    ensures IntStrBool(s).Decoded? == IntStrBoolAsWritten(s).Decoded?
    ensures IntStrBool(s).Decoded? ==> IntStrBool(s) == IntStrBoolAsWritten(s)
  {
  }

  const ListPrefix := "https://api.openopus.org/work/list/composer/"

  /**
   * The URL `list_by_composer_id_and_genre` fetches: it begins with the list
   * prefix and names its composer and genre.
   */
  function ListUrl(composerId: u32, genre: Genre.Genre): (url: string)
    ensures ParseListUrl(url) == Some((composerId, genre))
  {
    var head := ListPrefix + Text.Decimal(composerId as nat);
    Text.Regroup4(head, "/genre/", Genre.UrlStr(genre), ".json");
    ParseListUrlOf(composerId, Genre.UrlStr(genre), genre);
    head + "/genre/" + Genre.UrlStr(genre) + ".json"
  }

  /**
   * The URL `saerch_with_composer_id_and_genre` fetches: it names its composer,
   * genre and search word, the word spliced in unescaped.
   */
  function SearchUrl(composerId: u32, genre: Genre.Genre, word: string): (url: string)
    ensures ParseSearchUrl(url) == Some((composerId, genre, word))
  {
    var head := ListPrefix + Text.Decimal(composerId as nat) + "/genre/";
    var segment := Genre.UrlStr(genre);
    Text.Regroup5(head, segment, "/search/", word, ".json");
    ParseSearchUrlOf(composerId, segment, genre, word);
    head + segment + "/search/" + word + ".json"
  }

  /**
   * Reads the part both work URLs share: the composer identifier, up to the
   * first '/', and what follows "/genre/".
   */
  function ParseComposerPart(url: string): Option<(u32, string)> {
    var rest :- Text.StripPrefix(url, ListPrefix);
    var split :- Text.SplitFirst(rest, '/');
    var id :- Text.ParseU32(split.0);
    var tail :- Text.StripPrefix(split.1, "genre/");
    Some((id, tail))
  }

  /** Reads a work-list URL back into its composer identifier and genre. */
  function ParseListUrl(url: string): Option<(u32, Genre.Genre)> {
    var part :- ParseComposerPart(url);
    var segment :- Text.StripSuffix(part.1, ".json");
    var genre :- Genre.FromUrlStr(segment);
    Some((part.0, genre))
  }

  /** Reads what follows "/genre/" in a search URL: the genre, then the search word. */
  function ParseSearchTail(tail: string): Option<(Genre.Genre, string)> {
    var genreSplit :- Text.SplitFirst(tail, '/');
    var genre :- Genre.FromUrlStr(genreSplit.0);
    var afterSearch :- Text.StripPrefix(genreSplit.1, "search/");
    var word :- Text.StripSuffix(afterSearch, ".json");
    Some((genre, word))
  }

  /** Reads a work-search URL back into its composer identifier, genre and search word. */
  function ParseSearchUrl(url: string): Option<(u32, Genre.Genre, string)> {
    var part :- ParseComposerPart(url);
    var search :- ParseSearchTail(part.1);
    Some((part.0, search.0, search.1))
  }

  /** The composer-id segment ends at the first '/', since a decimal has none. */
  lemma ComposerPartOf(composerId: u32, tail: string)
    ensures ParseComposerPart(ListPrefix + Text.Decimal(composerId as nat) + "/genre/" + tail)
         == Some((composerId, tail))
  {
    var d := Text.Decimal(composerId as nat);
    var afterId := "genre/" + tail;
    var rest := d + ['/'] + afterId;
    assert ListPrefix + d + "/genre/" + tail == ListPrefix + rest;
    Text.StripPrefixOf(ListPrefix, rest);
    assert '/' !in d;
    Text.SplitFirstOf(d, '/', afterId);
    Text.ParseU32RoundTrip(composerId);
    Text.StripPrefixOf("genre/", tail);
  }

  lemma ParseListUrlOf(composerId: u32, segment: string, genre: Genre.Genre)
    requires Genre.FromUrlStr(segment) == Some(genre)
    ensures ParseListUrl(ListPrefix + Text.Decimal(composerId as nat) + "/genre/" + (segment + ".json"))
         == Some((composerId, genre))
  {
    ComposerPartOf(composerId, segment + ".json");
    Text.StripSuffixOf(segment, ".json");
  }

  /** The genre segment ends at the first '/', since no URL form of a genre has one. */
  lemma SearchTailOf(segment: string, genre: Genre.Genre, word: string)
    requires Genre.FromUrlStr(segment) == Some(genre) && '/' !in segment
    ensures ParseSearchTail(segment + "/search/" + (word + ".json")) == Some((genre, word))
  {
    assert segment + "/search/" + (word + ".json") == segment + ['/'] + ("search/" + (word + ".json"));
    Text.SplitFirstOf(segment, '/', "search/" + (word + ".json"));
    Text.StripPrefixOf("search/", word + ".json");
    Text.StripSuffixOf(word, ".json");
  }

  lemma ParseSearchUrlOf(composerId: u32, segment: string, genre: Genre.Genre, word: string)
    requires Genre.FromUrlStr(segment) == Some(genre) && '/' !in segment
    ensures ParseSearchUrl(ListPrefix + Text.Decimal(composerId as nat) + "/genre/"
                           + (segment + "/search/" + (word + ".json")))
         == Some((composerId, genre, word))
  {
    ComposerPartOf(composerId, segment + "/search/" + (word + ".json"));
    SearchTailOf(segment, genre, word);
  }

  /** Distinct (composer, genre) pairs give distinct list URLs. */
  lemma ListUrlInjective(id1: u32, g1: Genre.Genre, id2: u32, g2: Genre.Genre)
    requires ListUrl(id1, g1) == ListUrl(id2, g2)
    ensures id1 == id2 && g1 == g2
  {
  }

  /** Distinct (composer, genre, word) triples give distinct search URLs. */
  lemma SearchUrlInjective(id1: u32, g1: Genre.Genre, w1: string, id2: u32, g2: Genre.Genre, w2: string)
    requires SearchUrl(id1, g1, w1) == SearchUrl(id2, g2, w2)
    ensures id1 == id2 && g1 == g2 && w1 == w2
  {
  }

  /** The search URL is the list URL with its ".json" replaced by "/search/<word>.json". */
  lemma SearchUrlExtendsListUrl(composerId: u32, genre: Genre.Genre, word: string)
    ensures |ListUrl(composerId, genre)| >= 5
    ensures SearchUrl(composerId, genre, word)
         == ListUrl(composerId, genre)[..|ListUrl(composerId, genre)| - 5] + "/search/" + word + ".json"
  {
  }

  /** The search in the source's own test: composer 145, Chamber, "Cello Sonata". */
  lemma SearchUrlExample()
    ensures SearchUrl(145, Genre.Chamber, "Cello Sonata")
         == "https://api.openopus.org/work/list/composer/145/genre/Chamber/search/Cello Sonata.json"
  {
    var d := Text.Decimal(145);
    assert d == "145" by {
      assert Text.Decimal(1) == "1";
      assert Text.Decimal(14) == Text.Decimal(1) + [Text.DigitChar(4)] && Text.DigitChar(4) == '4';
      assert d == Text.Decimal(14) + [Text.DigitChar(5)] && Text.DigitChar(5) == '5';
    }
    var g := Genre.UrlStr(Genre.Chamber);
    assert g == "Chamber";
    SpliceExample(d, g);
  }

  /**
   * The splice of the example's segments, on plain variables, so that the
   * example's proof stays within the resource limit.
   */
  lemma SpliceExample(d: string, g: string)
    requires d == "145" && g == "Chamber"
    ensures ListPrefix + d + "/genre/" + g + "/search/" + "Cello Sonata" + ".json"
         == "https://api.openopus.org/work/list/composer/145/genre/Chamber/search/Cello Sonata.json"
  {
    var u := ListPrefix + d + "/genre/" + g;
    assert u == "https://api.openopus.org/work/list/composer/145/genre/Chamber";
  }

  /** `list_by_composer_id_and_genre`: the works of one composer in one genre. */
  function ListByComposerIdAndGenre(composerId: u32, genre: Genre.Genre, server: Api.Server<Work>)
    : (r: Api.Result<seq<Work>>)
    requires Api.Conforms(server(ListUrl(composerId, genre)))
    ensures Api.Answers(r, server(ListUrl(composerId, genre)))
  {
    Api.ListCommon(server(ListUrl(composerId, genre)))
  }

  /** `saerch_with_composer_id_and_genre`: one composer's works in one genre matching a word. */
  function SearchWithComposerIdAndGenre(composerId: u32, genre: Genre.Genre, word: string,
                                        server: Api.Server<Work>)
    : (r: Api.Result<seq<Work>>)
    requires Api.Conforms(server(SearchUrl(composerId, genre, word)))
    ensures Api.Answers(r, server(SearchUrl(composerId, genre, word)))
  {
    Api.ListCommon(server(SearchUrl(composerId, genre, word)))
  }
}
