/** The persisted country record: one value per row of the currency_exchanger table. */
module Entities {
  import opened Outcomes

  /** A point in time, as seconds; the services receive it and only copy it into rows. */
  type Timestamp = int

  /** The columns of the table, with the nullable ones as options. */
  datatype Country = Country(
    id: nat,                       // primary key, assigned by the table
    name: string,
    capital: string,
    region: string,
    population: int,
    currencyCode: Option<string>,
    exchangeRate: Option<real>,
    estimatedGdp: real,
    flagUrl: string,
    lastRefreshedAt: Timestamp)

  /** The range of PostgreSQL's `integer` type, the type of the `population` column. */
  const IntegerMin := -0x8000_0000
  const IntegerMax := 0x7fff_ffff

  /** The text holds no NUL character, which the PostgreSQL driver refuses in a string. */
  predicate NulFree(s: string)
  {
    forall i :: 0 <= i < |s| ==> s[i] != '\0'
  }

  /** What the modelled commit checks of a row: the population fits the `integer` column and
      no text column holds NUL. (Other refusals, such as a boolean in a numeric column, are
      not modelled.) */
  predicate Storable(r: Country)
  {
    IntegerMin <= r.population <= IntegerMax &&
    NulFree(r.name) && NulFree(r.capital) && NulFree(r.region) && NulFree(r.flagUrl) &&
    (r.currencyCode.Some? ==> NulFree(r.currencyCode.value))
  }

  predicate AllStorable(rows: seq<Country>)
  {
    forall i :: 0 <= i < |rows| ==> Storable(rows[i])
  }
}
