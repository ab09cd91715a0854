/** The fixed set of currencies the bot quotes, in the order its tables list them. */
module Currencies {
  import opened Common

  datatype Code = USD | EUR | RUB | GBP | KZT

  /** The currency codes in declaration order: the order of every per-currency listing. */
  const Codes: seq<Code> := [USD, EUR, RUB, GBP, KZT]

  /** The three-letter code as it appears in callback data and history rows. */
  function Name(c: Code): (s: string)
    ensures |s| == 3
    ensures forall i :: 0 <= i < |s| ==> 'A' <= s[i] <= 'Z'
  {
    match c
    case USD => "USD"
    case EUR => "EUR"
    case RUB => "RUB"
    case GBP => "GBP"
    case KZT => "KZT"
  }

  /** Looking a string up in the currency table: known only for the five codes. */
  function Lookup(s: string): (r: Option<Code>)
    ensures r.Some? ==> Name(r.value) == s
    ensures forall c :: Name(c) == s ==> r == Some(c)
  {
    if s == "USD" then Some(USD)
    else if s == "EUR" then Some(EUR)
    else if s == "RUB" then Some(RUB)
    else if s == "GBP" then Some(GBP)
    else if s == "KZT" then Some(KZT)
    else None
  }

  /** Every code is listed exactly once. */
  lemma CodesComplete(c: Code)
    ensures c in Codes
    ensures forall i, j :: 0 <= i < j < |Codes| ==> Codes[i] != Codes[j]
  {
  }
}
