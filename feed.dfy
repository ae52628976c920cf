/** The shapes of the two upstream feeds as JSON decodes them, and the derived GDP figure. */
module Feed {
  import opened Outcomes

  // Python tests these keys for truth, so a falsy value (0, false, "", [], {}) behaves like
  // null wherever the code only asks whether the key is "set"; each constructor below says
  // which JSON values it stands for.

  /** The `code` key of a currency object: absent; JSON null; a string; a falsy value that is
      not a string (0, false, [], {}); any other value that is not a string. */
  datatype Code = CodeMissing | CodeNull | CodeText(text: string) | CodeFalsy | CodeOther

  /** One element of a `currencies` list: an object with a code, or any value that is not an object. */
  datatype CurrencyItem = CurrencyObject(code: Code) | CurrencyNonObject

  /** The `currencies` key: absent, null or any falsy value; a non-empty list; or a truthy
      value that is not a list. */
  datatype Currencies = CurrenciesMissing | CurrencyList(items: seq<CurrencyItem>) | CurrenciesOther

  /** The `population` key: absent; null or a falsy value that is not a number ("", [], {});
      a number (a boolean counts as 0 or 1); a string that PostgreSQL reads as the integer
      `count` (such as "123"); any other truthy value that is not a number. */
  datatype Population = PopMissing | PopNull | PopNumber(count: int) | PopNumeral(count: int) | PopOther

  /** One object of the countries feed. `None` for `name` is an absent key or null (an empty
      name is `Some("")`); `None` for the other text keys is an absent key. */
  datatype FeedCountry = FeedCountry(
    name: Option<string>,
    population: Population,
    capital: Option<string>,
    region: Option<string>,
    flag: Option<string>,
    currencies: Currencies)

  /** One element of the countries payload: an object, or a value that is not one (null, a
      number, a boolean, a string, a list, or a key when the payload is itself an object).
      `lacksCurrencies` holds when `'currencies' in v` is false without raising: a string
      without that substring, or a list without that element. */
  datatype FeedEntry = Object(country: FeedCountry) | NonObject(lacksCurrencies: bool)

  predicate AllObjects(feed: seq<FeedEntry>)
  {
    forall i :: 0 <= i < |feed| ==> feed[i].Object?
  }

  /** The countries of a payload made of objects only. */
  function Objects(feed: seq<FeedEntry>): (r: seq<FeedCountry>)
    requires AllObjects(feed)
    ensures |r| == |feed| && forall i :: 0 <= i < |feed| ==> r[i] == feed[i].country
  {
    seq(|feed|, i requires 0 <= i < |feed| && AllObjects(feed) => feed[i].country)
  }

  /** One value of the `rates` object: a number (a boolean counts as 0 or 1); JSON null; a
      value that `> 0` cannot compare (a string, a list, an object). */
  datatype RateValue = RateNumber(value: real) | RateNull | RateOther

  /** The `rates` object of the exchange feed: currency code to units per US dollar. */
  type Rates = map<string, RateValue>

  /** Both feeds, once fetched and decoded. */
  datatype Feeds = Feeds(countries: seq<FeedEntry>, rates: Rates)

  /** The code of the first currency when that currency is an object and its code a string;
      `None` otherwise (no list, an empty list, a non-object, or a code that is absent, null
      or not a string). */
  function FirstCode(e: FeedCountry): Option<string>
  {
    if e.currencies.CurrencyList? && e.currencies.items != [] &&
       e.currencies.items[0].CurrencyObject? && e.currencies.items[0].code.CodeText?
    then Some(e.currencies.items[0].code.text)
    else None
  }

  /** `country.get('name', '')`, where a null name is falsy like the empty one. */
  function NameOrEmpty(e: FeedCountry): string
  {
    if e.name.Some? then e.name.value else ""
  }

  /** `country.get('capital', 'N/A')`. */
  function CapitalOf(e: FeedCountry): string
  {
    if e.capital.Some? then e.capital.value else "N/A"
  }

  /** `country.get('region', 'Unknown')`. */
  function RegionOf(e: FeedCountry): string
  {
    if e.region.Some? then e.region.value else "Unknown"
  }

  /** `country.get('flag', '')`. */
  function FlagOf(e: FeedCountry): string
  {
    if e.flag.Some? then e.flag.value else ""
  }

  /** The lowest and highest value `randrange(1000, 2000)` can draw. */
  const MinDraw := 1000
  const MaxDraw := 1999

  /** `population * factor / rate` when the rate is positive, else 0. */
  function EstimatedGdp(population: int, factor: int, rate: real): (g: real)
    ensures rate <= 0.0 ==> g == 0.0
    ensures rate > 0.0 ==> g * rate == (population * factor) as real
  {
    if rate > 0.0 then (population * factor) as real / rate else 0.0
  }

  /** With a draw in randrange's range, the estimate lies between population * 1000 / rate
      and population * 1999 / rate. */
  lemma GdpWithinDrawRange(population: nat, factor: int, rate: real)
    requires MinDraw <= factor <= MaxDraw
    requires rate > 0.0
    ensures (population * MinDraw) as real / rate <= EstimatedGdp(population, factor, rate)
    ensures EstimatedGdp(population, factor, rate) <= (population * MaxDraw) as real / rate
  {
  }
}
