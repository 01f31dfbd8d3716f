/**
 * The ten historical periods (epoch.rs). The string a period is written as
 * in a URL path (strum's `IntoStaticStr`) and the string it is decoded from
 * in JSON (serde's rename) are the same table.
 */
module Epoch {
  import opened Types

  datatype Epoch =
    | Medieval
    | Renaissance
    | Baroque
    | Classical
    | EarlyRomantic
    | Romantic
    | LateRomantic
    | TwentiethCentury
    | PostWar
    | TwentyFirstCentury

  /** The path-segment form of a period (`into_url_str`). */
  function UrlStr(e: Epoch): (s: string)
    ensures |s| > 0
  {
    match e
    case Medieval => "Medieval"
    case Renaissance => "Renaissance"
    case Baroque => "Baroque"
    case Classical => "Classical"
    case EarlyRomantic => "Early Romantic"
    case Romantic => "Romantic"
    case LateRomantic => "Late Romantic"
    case TwentiethCentury => "20th Century"
    case PostWar => "Post-War"
    case TwentyFirstCentury => "21st Century"
  }

  /**
   * Decoding a period from a JSON string (serde's derived `Deserialize`
   * with the renames): exactly the strings of the table decode, each to
   * the period whose URL form it is.
   */
  function FromJson(s: string): (r: Option<Epoch>)
    ensures forall e :: r == Some(e) <==> UrlStr(e) == s
  {
    if s == "Medieval" then Some(Medieval)
    else if s == "Renaissance" then Some(Renaissance)
    else if s == "Baroque" then Some(Baroque)
    else if s == "Classical" then Some(Classical)
    else if s == "Early Romantic" then Some(EarlyRomantic)
    else if s == "Romantic" then Some(Romantic)
    else if s == "Late Romantic" then Some(LateRomantic)
    else if s == "20th Century" then Some(TwentiethCentury)
    else if s == "Post-War" then Some(PostWar)
    else if s == "21st Century" then Some(TwentyFirstCentury)
    else None
  }

  /** The serde name of every period is its URL form, so decoding inverts `UrlStr`. */
  lemma FromJsonUrlStr(e: Epoch)
    ensures FromJson(UrlStr(e)) == Some(e)
  {
  }

  /** Distinct periods have distinct URL forms. */
  lemma UrlStrInjective(a: Epoch, b: Epoch)
    requires UrlStr(a) == UrlStr(b)
    ensures a == b
  {
  }

  /** A string outside the ten-entry table is not a period. */
  lemma FromJsonClosed(s: string)
    requires forall e :: UrlStr(e) != s
    ensures FromJson(s) == None
  {
  }

  /** The period's discriminant: its position in the declaration. */
  function Discriminant(e: Epoch): nat {
    match e
    case Medieval => 0
    case Renaissance => 1
    case Baroque => 2
    case Classical => 3
    case EarlyRomantic => 4
    case Romantic => 5
    case LateRomantic => 6
    case TwentiethCentury => 7
    case PostWar => 8
    case TwentyFirstCentury => 9
  }

  /**
   * What `Epoch::iter()` (strum's `EnumIter`) yields: every period once, in
   * declaration order.
   */
  function Iter(): (s: seq<Epoch>)
    ensures |s| == 10
    ensures forall i :: 0 <= i < |s| ==> Discriminant(s[i]) == i
    ensures forall e :: Discriminant(e) < |s| && s[Discriminant(e)] == e
  {
    [Medieval, Renaissance, Baroque, Classical, EarlyRomantic,
     Romantic, LateRomantic, TwentiethCentury, PostWar, TwentyFirstCentury]
  }

  /** No period is visited twice. */
  lemma IterDistinct(i: nat, j: nat)
    requires i < j < |Iter()|
    ensures Iter()[i] != Iter()[j]
  {
  }
}
