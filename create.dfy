/** The single create: validate the request, find the first matching feed entry, refuse a
    currency code already stored, and build one new row. */
module Create {
  import opened Outcomes
  import opened Text
  import opened Entities
  import opened Feed

  datatype CreateRequest = CreateRequest(name: string, population: int, currencyCode: string)

  /** The request checks, in order; `None` when the request is acceptable. */
  function ValidateRequest(req: CreateRequest): (err: Option<Error>)
    ensures err == Some(CurrencyCodeRequired) <==> IsBlank(req.currencyCode)
    ensures err == Some(NameRequired) <==> !IsBlank(req.currencyCode) && IsBlank(req.name)
    ensures err == Some(PopulationRequired) <==>
              !IsBlank(req.currencyCode) && !IsBlank(req.name) && req.population <= 0
    ensures err == None <==> !IsBlank(req.currencyCode) && !IsBlank(req.name) && req.population > 0
  {
    if IsBlank(req.currencyCode) then Some(CurrencyCodeRequired)
    else if IsBlank(req.name) then Some(NameRequired)
    else if req.population <= 0 then Some(PopulationRequired)
    else None
  }

  /** What testing one feed entry against the request gives: a match, no match, or an
      exception out of the condition. */
  datatype Probe = Hit | Miss | Fault

  /** The entry lists at least one currency, so the search looks at it. */
  predicate ListsCurrency(e: FeedCountry)
  {
    e.currencies.CurrenciesOther? || (e.currencies.CurrencyList? && e.currencies.items != [])
  }

  /** The first currency of the entry is an object whose code is the string `code`. */
  predicate FirstCodeIs(e: FeedCountry, code: string)
  {
    FirstCode(e) == Some(code)
  }

  /** Evaluating the condition raises: `[0]['code']` fails (the value is not a list, its
      first element is not an object, or that object has no `code`), or the codes differ
      and `country['name']` is missing or null. */
  predicate ProbeRaises(e: FeedCountry, req: CreateRequest)
  {
    e.currencies.CurrenciesOther? ||
    (e.currencies.CurrencyList? && e.currencies.items != [] &&
     (e.currencies.items[0].CurrencyNonObject? ||
      e.currencies.items[0].code.CodeMissing? ||
      (e.currencies.items[0].code != CodeText(req.currencyCode) && e.name.None?)))
  }

  /** The country matches the request: the first code equals the request's, or the names
      are equal ignoring case. */
  predicate Matches(e: FeedCountry, req: CreateRequest)
  {
    FirstCodeIs(e, req.currencyCode) || (e.name.Some? && SameIgnoringCase(e.name.value, req.name))
  }

  /** The condition of the search loop for one country object: the first code equals the
      request's, or else the names are equal ignoring case. */
  function ProbeCountry(e: FeedCountry, req: CreateRequest): (p: Probe)
    ensures !ListsCurrency(e) ==> p == Miss
    ensures FirstCodeIs(e, req.currencyCode) ==> p == Hit
    ensures p == Hit ==>
              ListsCurrency(e) &&
              (FirstCodeIs(e, req.currencyCode) ||
               (e.name.Some? && SameIgnoringCase(e.name.value, req.name)))
    ensures ListsCurrency(e) && e.name.Some? && SameIgnoringCase(e.name.value, req.name) ==> p != Miss
    ensures p == Fault <==> ProbeRaises(e, req)
    ensures p == Hit <==> ListsCurrency(e) && !ProbeRaises(e, req) && Matches(e, req)
    ensures p == Miss <==> !ListsCurrency(e) || (!ProbeRaises(e, req) && !Matches(e, req))
  {
    match e.currencies
    case CurrenciesMissing => Miss
    case CurrenciesOther => Fault                    // `[0]['code']` on a non-list raises
    case CurrencyList(items) =>
      if items == [] then Miss
      else match items[0]
        case CurrencyNonObject => Fault              // `['code']` on a non-object raises
        case CurrencyObject(c) =>
          if c.CodeMissing? then Fault               // KeyError on 'code'
          else if c == CodeText(req.currencyCode) then Hit
          else if e.name.None? then Fault            // `country['name'].lower()` raises
          else if Lower(e.name.value) == Lower(req.name) then Hit
          else Miss
  }

  /** The condition for one element of the payload. On a value that is not an object,
      `'currencies' in country` either raises (null, a number) or is a substring or element
      test whose success makes `country['currencies']` raise; it never matches. */
  function ProbeEntry(e: FeedEntry, req: CreateRequest): (p: Probe)
    ensures p == Hit ==> e.Object?
    ensures e.NonObject? ==> (p == Miss <==> e.lacksCurrencies) && (p == Fault <==> !e.lacksCurrencies)
    ensures e.Object? ==> p == ProbeCountry(e.country, req)
  {
    match e
    case NonObject(lacks) => if lacks then Miss else Fault
    case Object(c) => ProbeCountry(c, req)
  }

  /** The outcome of the search over the feed. */
  datatype Search = Found(index: nat) | Crashed(index: nat) | NoMatch

  predicate AllMiss(feed: seq<FeedEntry>, req: CreateRequest, n: nat)
    requires n <= |feed|
  {
    forall j :: 0 <= j < n ==> ProbeEntry(feed[j], req) == Miss
  }

  /** `s` is what a front-to-back search that stops at the first non-miss reports. */
  predicate SearchResult(feed: seq<FeedEntry>, req: CreateRequest, s: Search)
  {
    match s
    case Found(i) => i < |feed| && ProbeEntry(feed[i], req) == Hit && AllMiss(feed, req, i)
    case Crashed(i) => i < |feed| && ProbeEntry(feed[i], req) == Fault && AllMiss(feed, req, i)
    case NoMatch => AllMiss(feed, req, |feed|)
  }

  function Shift(s: Search): Search
  {
    match s
    case Found(i) => Found(i + 1)
    case Crashed(i) => Crashed(i + 1)
    case NoMatch => NoMatch
  }

  /** The search as a function: the first entry that does not miss decides. */
  function FirstProbe(feed: seq<FeedEntry>, req: CreateRequest): (s: Search)
    ensures SearchResult(feed, req, s)
    decreases |feed|
  {
    if feed == [] then NoMatch
    else match ProbeEntry(feed[0], req)
      case Hit => Found(0)
      case Fault => Crashed(0)
      case Miss =>
        var rest := FirstProbe(feed[1..], req);
        assert forall j :: 1 <= j < |feed| ==> feed[j] == feed[1..][j - 1];
        Shift(rest)
  }

  /** Only one search outcome fits a feed. */
  lemma SearchResultUnique(feed: seq<FeedEntry>, req: CreateRequest, s: Search, t: Search)
    requires SearchResult(feed, req, s) && SearchResult(feed, req, t)
    ensures s == t
  {
  }

  /** The search loop with its `break`. */
  method FindMatch(feed: seq<FeedEntry>, req: CreateRequest) returns (s: Search)
    ensures SearchResult(feed, req, s)
    ensures s == FirstProbe(feed, req)
  {
    s := NoMatch;
    var i := 0;
    while i < |feed|
      invariant 0 <= i <= |feed|
      invariant AllMiss(feed, req, i)
    {
      var p := ProbeEntry(feed[i], req);
      if p == Hit {
        s := Found(i);
        break;
      } else if p == Fault {
        s := Crashed(i);
        break;
      }
      i := i + 1;
    }
    SearchResultUnique(feed, req, s, FirstProbe(feed, req));
  }

  /** `exchange_rates.get(code, 1.0)`; a null code is never a key of the JSON object. */
  function RateOrDefault(rates: Rates, code: Option<string>): (v: RateValue)
    ensures code.Some? && code.value in rates ==> v == rates[code.value]
    ensures code.None? || code.value !in rates ==> v == RateNumber(1.0)
  {
    if code.Some? && code.value in rates then rates[code.value] else RateNumber(1.0)
  }

  /** A stored row already holds this currency code (`== None` compares as IS NULL). */
  predicate CodeStored(rows: seq<Country>, code: Option<string>)
  {
    exists k :: 0 <= k < |rows| && rows[k].currencyCode == code
  }

  /** The matched entry's first code is set but not a string (a number, a boolean, a list,
      an object): the duplicate query cannot bind it. */
  predicate NonStringCode(e: FeedCountry)
  {
    e.currencies.CurrencyList? && e.currencies.items != [] &&
    (e.currencies.items[0] == CurrencyObject(CodeOther) || e.currencies.items[0] == CurrencyObject(CodeFalsy))
  }

  /** Everything after the search: the duplicate check, the rate lookup, then the row. */
  function BuildFromMatch(e: FeedCountry, rates: Rates, rows: seq<Country>, id: nat, factor: int, now: Timestamp)
    : (r: Result<Country>)
    ensures r.Ok? ==>
              !CodeStored(rows, r.value.currencyCode) &&
              r.value.currencyCode == FirstCode(e) && r.value.id == id &&
              RateOrDefault(rates, FirstCode(e)).RateNumber? &&
              r.value.exchangeRate == Some(RateOrDefault(rates, FirstCode(e)).value) &&
              (r.value.exchangeRate.value <= 0.0 ==> r.value.estimatedGdp == 0.0) &&
              r.value.lastRefreshedAt == now
    ensures r == Err(CurrencyExists) <==> !NonStringCode(e) && CodeStored(rows, FirstCode(e))
    ensures NonStringCode(e) ==> r == Err(InternalError)
    ensures !CodeStored(rows, FirstCode(e)) && !RateOrDefault(rates, FirstCode(e)).RateNumber? ==>
              r == Err(InternalError)
    ensures r.Ok? ==>
              (e.population.PopMissing? && r.value.population == 0) ||
              (e.population.PopNumber? && r.value.population == e.population.count) ||
              (e.population.PopNumeral? && r.value.population == e.population.count &&
               r.value.exchangeRate.value <= 0.0)
    ensures !NonStringCode(e) && !CodeStored(rows, FirstCode(e)) && e.name.Some? &&
            RateOrDefault(rates, FirstCode(e)).RateNumber? &&
            (e.population.PopMissing? || e.population.PopNumber? ||
             (e.population.PopNumeral? && RateOrDefault(rates, FirstCode(e)).value <= 0.0)) ==>
              r.Ok?
  {
    if NonStringCode(e) then Err(InternalError)    // the query with a non-string code fails
    else
      var code := FirstCode(e);
      if exists k :: 0 <= k < |rows| && rows[k].currencyCode == code then Err(CurrencyExists)
      else match RateOrDefault(rates, code)
        case RateNull => Err(InternalError)        // `None > 0` raises
        case RateOther => Err(InternalError)       // `> 0` on a non-number raises
        case RateNumber(rate) =>
          match e.population
          case PopNull => Err(InternalError)       // arithmetic on None, or NOT NULL on commit
          case PopOther => Err(InternalError)      // arithmetic on a non-number, or a value the column refuses
          case PopNumeral(n) =>
            if rate > 0.0 then Err(InternalError)  // `str * int` succeeds, the division raises
            else StoreNew(e, n, code, rate, id, factor, now)   // no arithmetic; PostgreSQL casts the digits
          case PopMissing => StoreNew(e, 0, code, rate, id, factor, now)
          case PopNumber(n) => StoreNew(e, n, code, rate, id, factor, now)
  }

  /** The new row: the matched entry's name, the given population, code and rate, the
      defaults for a missing capital, region or flag, and the creation time. */
  function StoreNew(e: FeedCountry, population: int, code: Option<string>, rate: real,
                    id: nat, factor: int, now: Timestamp): (r: Result<Country>)
    ensures r.Ok? <==> e.name.Some?
    ensures r.Err? ==> r.error == InternalError
    ensures r.Ok? ==>
              r.value.id == id && r.value.name == e.name.value && r.value.population == population &&
              r.value.currencyCode == code && r.value.exchangeRate == Some(rate) &&
              r.value.capital == CapitalOf(e) && r.value.region == RegionOf(e) &&
              r.value.flagUrl == FlagOf(e) && r.value.lastRefreshedAt == now
    ensures r.Ok? && rate > 0.0 ==> r.value.estimatedGdp * rate == (population * factor) as real
    ensures r.Ok? && rate <= 0.0 ==> r.value.estimatedGdp == 0.0
  {
    if e.name.None? then Err(InternalError)        // `matching_country['name']` raises
    else Ok(Country(id, e.name.value, CapitalOf(e), RegionOf(e), population, code, Some(rate),
                    EstimatedGdp(population, factor, rate), FlagOf(e), now))
  }

  /** `db.commit()` of the new row: the database refuses a value outside its column type. */
  function Commit(built: Result<Country>): Result<Country>
  {
    if built.Ok? && !Storable(built.value) then Err(InternalError) else built
  }

  /** The whole create: what it returns, given the fetched feeds (or the fetch failure) and
      the stored rows. */
  function CreateOutcome(req: CreateRequest, fetched: Result<Feeds>, rows: seq<Country>,
                         id: nat, factor: int, now: Timestamp): (r: Result<Country>)
    ensures ValidateRequest(req).Some? ==> r == Err(ValidateRequest(req).value)
    ensures ValidateRequest(req).None? && fetched.Err? ==> r == Err(UpstreamFetchFailed)
    ensures ValidateRequest(req).None? && fetched.Ok? ==>
              (r == Err(CountryNotFound) <==> AllMiss(fetched.value.countries, req, |fetched.value.countries|))
    ensures r.Ok? ==>
              ValidateRequest(req).None? && fetched.Ok? &&
              exists i: nat :: SearchResult(fetched.value.countries, req, Found(i)) &&
                          fetched.value.countries[i].Object? &&
                          r.value.currencyCode == FirstCode(fetched.value.countries[i].country) &&
                          !CodeStored(rows, r.value.currencyCode)
    ensures r.Ok? ==> Storable(r.value)
  {
    var invalid := ValidateRequest(req);
    if invalid.Some? then Err(invalid.value)
    else if fetched.Err? then Err(UpstreamFetchFailed)
    else
      var feed := fetched.value.countries;
      match FirstProbe(feed, req)
      case NoMatch => Err(CountryNotFound)
      case Crashed(_) => Err(InternalError)
      case Found(i) => Commit(BuildFromMatch(feed[i].country, fetched.value.rates, rows, id, factor, now))
  }

  /** The values of the row built from `e` with this population fit the columns: the
      population fits `integer` and none of the texts holds NUL. */
  predicate FitsColumns(e: FeedCountry, population: int)
  {
    IntegerMin <= population <= IntegerMax &&
    (e.name.Some? ==> NulFree(e.name.value)) &&
    NulFree(CapitalOf(e)) && NulFree(RegionOf(e)) && NulFree(FlagOf(e)) &&
    (FirstCode(e).Some? ==> NulFree(FirstCode(e).value))
  }

  /** A request whose code is the first code of an object entry, with no earlier entry
      matching or faulting, that code not yet stored and its rate a number or absent, creates
      exactly the row built from that entry. */
  lemma CreateFromFirstMatch(req: CreateRequest, feeds: Feeds, rows: seq<Country>,
                             i: nat, id: nat, factor: int, now: Timestamp)
    requires ValidateRequest(req).None?
    requires i < |feeds.countries| && feeds.countries[i].Object?
    requires FirstCodeIs(feeds.countries[i].country, req.currencyCode)
    requires AllMiss(feeds.countries, req, i)
    requires !CodeStored(rows, Some(req.currencyCode))
    requires RateOrDefault(feeds.rates, Some(req.currencyCode)).RateNumber?
    requires feeds.countries[i].country.population.PopNumber? && feeds.countries[i].country.name.Some?
    requires FitsColumns(feeds.countries[i].country, feeds.countries[i].country.population.count)
    ensures var r := CreateOutcome(req, Ok(feeds), rows, id, factor, now);
            r.Ok? && r.value.currencyCode == Some(req.currencyCode) && r.value.id == id &&
            r.value.name == feeds.countries[i].country.name.value &&
            r.value.population == feeds.countries[i].country.population.count &&
            r.value.exchangeRate == Some(RateOrDefault(feeds.rates, Some(req.currencyCode)).value)
  {
    SearchResultUnique(feeds.countries, req, Found(i), FirstProbe(feeds.countries, req));
  }

  /** A valid request whose name equals, ignoring case, the name of an object entry whose
      first code is a string or null, with no earlier entry matching or faulting, that code
      not yet stored and its rate a number or absent, creates the row built from that entry,
      whatever the request's own code. */
  lemma CreateFromNameMatch(req: CreateRequest, feeds: Feeds, rows: seq<Country>,
                            i: nat, id: nat, factor: int, now: Timestamp)
    requires ValidateRequest(req).None?
    requires i < |feeds.countries| && feeds.countries[i].Object?
    requires var c := feeds.countries[i].country;
             c.currencies.CurrencyList? && c.currencies.items != [] &&
             c.currencies.items[0].CurrencyObject? &&
             (c.currencies.items[0].code.CodeText? || c.currencies.items[0].code.CodeNull?)
    requires feeds.countries[i].country.name.Some?
    requires SameIgnoringCase(feeds.countries[i].country.name.value, req.name)
    requires AllMiss(feeds.countries, req, i)
    requires !CodeStored(rows, FirstCode(feeds.countries[i].country))
    requires RateOrDefault(feeds.rates, FirstCode(feeds.countries[i].country)).RateNumber?
    requires feeds.countries[i].country.population.PopNumber?
    requires FitsColumns(feeds.countries[i].country, feeds.countries[i].country.population.count)
    ensures var r := CreateOutcome(req, Ok(feeds), rows, id, factor, now);
            r.Ok? && r.value.currencyCode == FirstCode(feeds.countries[i].country) && r.value.id == id &&
            r.value.name == feeds.countries[i].country.name.value &&
            r.value.population == feeds.countries[i].country.population.count &&
            r.value.exchangeRate == Some(RateOrDefault(feeds.rates, FirstCode(feeds.countries[i].country)).value)
  {
    SearchResultUnique(feeds.countries, req, Found(i), FirstProbe(feeds.countries, req));
  }
}
