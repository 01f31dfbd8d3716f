# open-opus: a verified model of the client's deterministic core

`open-opus` is a Rust client for the Open Opus REST API, a catalogue of
classical composers, genres and works. Each public operation builds a URL,
issues one HTTP GET, decodes the JSON envelope and branches on its `success`
tag. This project models what is deterministic in that pipeline:

- the closed enumerations `Epoch` (ten periods) and `Genre` (eight genres),
  with their URL path forms and their JSON forms;
- the status envelope `Status` (`OkStatus` / `ErrStatus`), decoded from the
  internally tagged `success` member;
- the `"0"`/`"1"` flag decoder `IntStrBool` of the work record;
- every URL builder;
- the envelope branch shared by all resources (`list_common`), and the
  head-of-list step of `get_by_id`;
- the operations on a fetched composer, which forward its identifier to the
  genre and work resources.

The network is a parameter. `Api.Server<T>` is a function giving the
`Api.Response<T>` that a GET of each URL yields. The response is either
`Failed`, a `reqwest` error (transport failure or an undecodable body), or a
`Body` holding the raw status JSON and the payload list, if present. Each
resource function is stated as "the result is what `Api.Answers` says the
client surfaces for the response to this exact URL." Each URL builder has an
inverse parser. Reading the URL back gives its arguments, so distinct
requests get distinct URLs.

Files and modules:

- `types.dfy`: `Types`, holding `Option`, `u32` and `u64`.
- `text.dfy`: `Text`, holding decimal rendering and parsing, and
  prefix/suffix/separator splitting.
- `json.dfy`: `Json`, the JSON values serde sees.
- `status.dfy`: `Status`.
- `epoch.dfy`: `Epoch`.
- `genre.dfy`: `Genre`.
- `api.dfy`: `Api`, holding the error type (from error.rs) and `ListCommon`.
- `work.dfy`: `Work`.
- `composer.dfy`: `Composer`.

The source names one function `saerch_with_composer_id_and_genre`. Here it
is `Work.SearchWithComposerIdAndGenre`. The composer search `search` is
`Composer.SearchComposers`.

Two steps of `get_by_id` (src/composer.rs:88-94) shape its contract:

- `get_by_id` takes the first element of the listing for the identifier and
  never compares that element's identifier with the one asked for. So
  `Composer.GetById` promises only the head of the list.
- On an empty success listing, the `unwrap` at src/composer.rs:93 panics. So
  the model makes a non-empty listing a precondition (`Composer.ListsSomeone`).

## Model

| member | source | states |
|---|---|---|
| `Text.Decimal` | src/lib.rs:19 | an identifier (a `u32`) is rendered as a non-empty string of decimal digits, with a leading zero only for 0 |
| `Text.DecimalRoundTrip` | src/lib.rs:19 | parsing the decimal rendering of `n` gives `n` back |
| `Text.ParseDecimalSound` | src/lib.rs:19 | a string parses to `n` exactly when it is the rendering of `n` (both directions) |
| `Text.DecimalInjective` | src/lib.rs:19 | distinct identifiers have distinct decimal renderings |
| `Text.ParseU32RoundTrip` | src/lib.rs:19 | a rendered `u32` identifier reads back as the same identifier |
| `Status.Decode` | src/status.rs:3-29 | a decoded status has the variant named by its `success` tag ("true" gives Ok, "false" gives Err), and each of its fields is the JSON member of the same name and type |
| `Status.DecodeEncode` | src/status.rs:3-29 | every Ok status (version, source, `u64` rows, api) and every Err status (version, error, api) decodes back from the object the API sends for it |
| `Status.DecodeComplete` | src/status.rs:4-29 | an object tagged "true" or "false" that carries the variant's fields decodes to exactly that status, whatever other members it has |
| `Status.UnknownTagFails` | src/status.rs:3-10 | a missing tag, a non-string tag, or any tag other than "true" and "false" is a decode failure |
| `Status.VariantFollowsTag` | src/status.rs:4-10 | two statuses that decode with the same tag have the same variant: the tag alone picks it |
| `Epoch.UrlStr` | src/epoch.rs:5-32 | every period's URL form is non-empty |
| `Epoch.FromJson` | src/epoch.rs:4-26 | a JSON string decodes to period `e` exactly when it is `e`'s URL form (the ten-entry table, including "Early Romantic", "20th Century", "Post-War") |
| `Epoch.FromJsonUrlStr` | src/epoch.rs:10-25 | each serde rename equals the strum form, so decoding a period's URL form gives the period back |
| `Epoch.UrlStrInjective` | src/epoch.rs:5-26 | distinct periods have distinct URL forms |
| `Epoch.FromJsonClosed` | src/epoch.rs:4-26 | any string outside the table fails to decode |
| `Epoch.Iter` | src/epoch.rs:4-26 | iteration yields ten periods in declaration order, each period at its own position |
| `Epoch.IterDistinct` | src/epoch.rs:4-26 | iteration never yields the same period twice |
| `Genre.UrlStr` | src/genre.rs:13-29 | a genre's URL form is its variant name except for `All` (which is "all"); it is non-empty and contains no '/' |
| `Genre.FromJson` | src/genre.rs:12-23 | a JSON string decodes to genre `g` exactly when it is `g`'s variant name |
| `Genre.FromUrlStr` | src/genre.rs:13-29 | a path segment reads back as genre `g` exactly when it is `g`'s URL form |
| `Genre.UrlStrInjective` | src/genre.rs:13-23 | distinct genres have distinct URL forms |
| `Genre.FromJsonUrlStr` | src/genre.rs:12-23 | decoding a URL form as JSON gives the genre back for every genre except `All`; "all" does not decode, but "All" does |
| `Genre.ListByComposerIdUrl` | src/genre.rs:32-35 | the URL is "https://api.openopus.org/genre/list/composer/" + decimal id + ".json", and it reads back as the composer identifier it was built from |
| `Genre.ListByComposerIdUrlInjective` | src/genre.rs:32-35 | distinct composers have distinct genre-list URLs |
| `Genre.ListByComposerId` | src/genre.rs:31-44 | the result is the answer to the response for that composer's genre-list URL; success requires the `genres` payload |
| `Api.ListCommon` | src/composer.rs:27-36 | on a success status the result is the payload verbatim; on a failure status it is `OpenOpusApiError` with the server's message verbatim; otherwise it is a transport error (the same match appears at src/work.rs:34-37 and src/genre.rs:40-43) |
| `Api.AnswersUnique` | src/composer.rs:32-35 | a response has at most one answer |
| `Api.AnswerFollowsTag` | src/work.rs:34-37 | for a decodable status, the Ok/Err branch follows the `success` tag, and the error branch carries the API's error |
| `Work.IntStrBoolAsWritten` | src/work.rs:69-84 | "0" decodes to false, "1" to true, and any other string is an error with one fixed message |
| `Work.IntStrBool` | src/work.rs:69-84 | same accepted strings and values; a rejected string appears in the error message |
| `Work.IntStrBoolRoundTrip` | src/work.rs:75-77 | writing a flag as "1"/"0" and decoding it gives the flag back |
| `Work.IntStrBoolMessageOmitsInput` | src/work.rs:78-82 | as written, "2" and "yes" are rejected with the same message, which does not contain "2" |
| `Work.IntStrBoolCorrectionIsMessageOnly` | src/work.rs:75-82 | the corrected decoder accepts and rejects the same strings as the written one |
| `Work.ListUrl` | src/work.rs:44-48 | the URL is "https://api.openopus.org/work/list/composer/" + decimal id + "/genre/" + genre URL form + ".json", and it reads back as its composer identifier and genre |
| `Work.SearchUrl` | src/work.rs:57-62 | the URL is "https://api.openopus.org/work/list/composer/" + decimal id + "/genre/" + genre URL form + "/search/" + word + ".json", with the word inserted unescaped, and it reads back as its composer identifier, genre and search word |
| `Work.ListUrlInjective` | src/work.rs:44-48 | distinct (composer, genre) pairs give distinct list URLs |
| `Work.SearchUrlInjective` | src/work.rs:57-62 | distinct (composer, genre, word) triples give distinct search URLs |
| `Work.SearchUrlExtendsListUrl` | src/work.rs:44-62 | the search URL is the list URL with its ".json" replaced by "/search/" + word + ".json" |
| `Work.SearchUrlExample` | src/work.rs:110-113 | (145, Chamber, "Cello Sonata") gives https://api.openopus.org/work/list/composer/145/genre/Chamber/search/Cello Sonata.json |
| `Work.ListByComposerIdAndGenre` | src/work.rs:40-50 | the result is the answer to the response for the list URL of that composer and genre |
| `Work.SearchWithComposerIdAndGenre` | src/work.rs:52-64 | the result is the answer to the response for the search URL of that composer, genre and word |
| `Composer.PopularUrl` | src/composer.rs:41 | the URL is the fixed "https://api.openopus.org/composer/list/pop.json", and it reads back as the popular-composers request |
| `Composer.EssentialUrl` | src/composer.rs:47 | the URL is the fixed "https://api.openopus.org/composer/list/rec.json", and it reads back as the essential-composers request |
| `Composer.FirstLetterUrl` | src/composer.rs:53-56 | the URL is "https://api.openopus.org/composer/list/name/" + the letter + ".json", and it reads back as that letter |
| `Composer.PeriodUrl` | src/composer.rs:64-67 | the URL is "https://api.openopus.org/composer/list/epoch/" + the period's URL form + ".json", and it reads back as that period |
| `Composer.SearchUrl` | src/composer.rs:77-80 | the URL is "https://api.openopus.org/composer/list/search/" + word + ".json", with the word inserted verbatim, and it reads back as the word |
| `Composer.IdsUrl` | src/composer.rs:90 | the URL is "https://api.openopus.org/composer/list/ids/" + decimal id + ".json", and it reads back as the identifier |
| `Composer.QueryUrl` | src/composer.rs:40-94 | each of the six composer requests reads back from its URL |
| `Composer.QueryUrlInjective` | src/composer.rs:38-94 | no two composer requests share a URL |
| `Composer.PeriodUrlInjective` | src/composer.rs:62-70 | distinct periods are listed from distinct URLs |
| `Composer.ListPopular` | src/composer.rs:40-42 | the result is the answer to the response for the fixed pop.json URL |
| `Composer.ListEssential` | src/composer.rs:46-48 | the result is the answer to the response for the fixed rec.json URL |
| `Composer.ListByFirstLetter` | src/composer.rs:52-58 | the result is the answer to the response for that letter's URL |
| `Composer.ListByPeriod` | src/composer.rs:62-71 | the result is the answer to the response for that period's URL |
| `Composer.SearchComposers` | src/composer.rs:75-84 | the result is the answer to the response for that word's search URL |
| `Composer.GetById` | src/composer.rs:88-94 | on success, the result is the first composer of the listing for that identifier, which must be non-empty; on error, the listing's error is passed on unchanged |
| `Composer.GetByIdPropagatesError` | src/composer.rs:193-197 | when the API answers with a failure status, `get_by_id` returns `OpenOpusApiError` with the server's message |
| `Composer.Genres` | src/composer.rs:98-100 | the result answers the genre-list URL for the composer's own identifier |
| `Composer.Works` | src/composer.rs:104-106 | the result answers the work-list URL for (own identifier, `All`) |
| `Composer.PopularWorks` | src/composer.rs:110-112 | the result answers the work-list URL for (own identifier, `Popular`) |
| `Composer.RecommendedWorks` | src/composer.rs:116-118 | the result answers the work-list URL for (own identifier, `Recommended`) |
| `Composer.WorksByGenre` | src/composer.rs:122-124 | the result answers the work-list URL for (own identifier, given genre) |
| `Composer.SearchWorks` | src/composer.rs:128-130 | the result answers the work-search URL for (own identifier, `All`, word) |
| `Composer.SearchWorksWithGenre` | src/composer.rs:134-140 | takes (word, genre) and answers the work-search URL for (own identifier, genre, word), in the callee's argument order |
| `Composer.DelegatedWorkRequests` | src/composer.rs:102-130 | `works`, `popular_works` and `recommended_works` give the same result as `works_by_genre` at `All`, `Popular` and `Recommended`, and `search_works` the same as `search_works_with_genre` at `All`, for every server |
| `Composer.WorksUrlIsAll` | src/composer.rs:102-106 | `works` fetches .../work/list/composer/<id>/genre/all.json, as documented |

## Left out

- HTTP transport (`reqwest::get`), `async`/`await` and the JSON parsing of bodies are out of the model. The network is the `Server` parameter. Every transport or body-shape failure is the single opaque `ReqwestError` case.
- Decoding of the payload records (`Composer`, `Work`, `Genre` lists) is out. The payload reaches the model already decoded, and a payload that fails to decode is a `Failed` response.
- `processingtime` (an `f64`) is checked only for presence as a JSON number. Its value is dropped.
- `birth` and `death` are opaque `Date` values. Parsing them with `chrono::NaiveDate` is a foreign library.
- Parsing the numeric-string identifiers (`DisplayFromStr` into `u32`, composer.rs:16 and work.rs:23) is out. Library `FromStr` also accepts forms such as leading zeros. `Text.ParseDecimal` is only the inverse of the rendering, used to read URLs back.
- `IntStrBool` starts from the already-deserialized string. The failure of `String::deserialize` on a non-string JSON value, and the text of that error, are not modelled.
- Two rarer input forms that serde also accepts are not modelled. One is a `Status` written as a JSON array whose leading element is the tag. The other is externally tagged unit variants written as one-key objects (for `Epoch`, `Genre`). A numeric `success` tag is rejected by serde_json, and the model rejects it too, since `Status.Tag` reads only a JSON string.
- Duplicate keys in a JSON object are not modelled, because objects are maps.
- The URL given to `reqwest::get` is modelled as the string passed in. `reqwest` then parses it, percent-encoding spaces and treating '?' and '#' in a search word as query or fragment. That parsing is not modelled.
- `dbg!` output and the live-API test suites (with `thread::sleep`) are out.
- `Composer.GetById`: it does not model the panic on an empty success list. A non-empty list is a precondition instead (`ListsSomeone`), because the code leaves the case unchecked.

## Findings

| source | as written | input that shows it | evidently intended | confidence | as-written member | corrected member |
|---|---|---|---|---|---|---|
| src/work.rs:78-82 | the message is a raw string literal handed straight to `de::Error::custom`, so its `{}` is never filled in: every rejected flag gets "Invalid string: {}. should be "0" or "1"" | the strings "2" and "yes" get the same message, which contains neither | the rejected string spliced in with `format!` | high; not executed | `Work.IntStrBoolAsWritten` (shown by `Work.IntStrBoolMessageOmitsInput`) | `Work.IntStrBool` |
