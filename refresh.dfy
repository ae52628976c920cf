/** The batch refresh: one pass over the countries feed that either skips an entry with a
    label or appends a new row stamped with the batch timestamp. */
module Refresh {
  import opened Outcomes
  import opened Text
  import opened Entities
  import opened Feed

  /** What the body of the loop decides for one entry. */
  datatype Verdict =
    | Skip(text: string)
    | Accept(name: string, population: int, code: string, rate: real)

  // The checks of the loop body, in the order it applies them.

  predicate HasName(e: FeedCountry)
  {
    NameOrEmpty(e) != ""
  }

  predicate HasPositivePopulation(e: FeedCountry)
  {
    e.population.PopNumber? && e.population.count > 0
  }

  /** The `currencies` key is absent, null or an empty list. */
  predicate CurrencyAbsent(e: FeedCountry)
  {
    e.currencies.CurrenciesMissing? || (e.currencies.CurrencyList? && e.currencies.items == [])
  }

  /** Reading the first code raises: the key is not a list, its first element is not an
      object, or the code is a non-empty value without `strip`. */
  predicate CurrencyMalformed(e: FeedCountry)
  {
    e.currencies.CurrenciesOther? ||
    (e.currencies.CurrencyList? && e.currencies.items != [] &&
     (e.currencies.items[0].CurrencyNonObject? || e.currencies.items[0].code.CodeOther?))
  }

  /** `country['currencies'][0].get('code', '')` when it is a string, with null read as ''. */
  function CodeOf(e: FeedCountry): string
  {
    if FirstCode(e).Some? then FirstCode(e).value else ""
  }

  /** `exchange_rates.get(code)` is not None: the code is a key with a non-null value. */
  predicate RateListed(rates: Rates, code: string)
  {
    code in rates && !rates[code].RateNull?
  }

  /** Every check passes: the entry becomes a row. */
  predicate Eligible(e: FeedCountry, rates: Rates)
  {
    HasName(e) && HasPositivePopulation(e) && !CurrencyAbsent(e) && !CurrencyMalformed(e) &&
    !IsBlank(CodeOf(e)) && CodeOf(e) in rates && rates[CodeOf(e)].RateNumber?
  }

  /** The body of the loop for one entry, the `except` clause included. */
  function Classify(e: FeedCountry, rates: Rates): (v: Verdict)
    // the first failing check decides the label
    ensures !HasName(e) ==> v == Skip("Unknown")
    ensures HasName(e) && !HasPositivePopulation(e) ==> v == Skip(NameOrEmpty(e))
    ensures HasName(e) && HasPositivePopulation(e) && CurrencyAbsent(e) ==>
              v == Skip(NameOrEmpty(e) + " (no currency)")
    ensures HasName(e) && HasPositivePopulation(e) && !CurrencyAbsent(e) && CurrencyMalformed(e) ==>
              v == Skip(NameOrEmpty(e))
    ensures HasName(e) && HasPositivePopulation(e) && !CurrencyAbsent(e) && !CurrencyMalformed(e) &&
            IsBlank(CodeOf(e)) ==>
              v == Skip(NameOrEmpty(e) + " (no currency code)")
    ensures HasName(e) && HasPositivePopulation(e) && !CurrencyAbsent(e) && !CurrencyMalformed(e) &&
            !IsBlank(CodeOf(e)) && !RateListed(rates, CodeOf(e)) ==>
              v == Skip(NameOrEmpty(e) + " (currency " + CodeOf(e) + " not in exchange API)")
    ensures HasName(e) && HasPositivePopulation(e) && !CurrencyAbsent(e) && !CurrencyMalformed(e) &&
            !IsBlank(CodeOf(e)) && RateListed(rates, CodeOf(e)) && rates[CodeOf(e)].RateOther? ==>
              v == Skip(NameOrEmpty(e))
    // an accepted entry carries the guaranteed fields
    ensures v.Accept? <==> Eligible(e, rates)
    ensures v.Accept? ==>
              v.name == NameOrEmpty(e) && v.name != "" &&
              v.population == e.population.count && v.population > 0 &&
              v.code == CodeOf(e) && !IsBlank(v.code) && v.code in rates &&
              rates[v.code] == RateNumber(v.rate)
  {
    var name := NameOrEmpty(e);
    if name == "" then Skip("Unknown")
    else match e.population
      case PopMissing => Skip(name)
      case PopNull => Skip(name)
      case PopOther => Skip(name)          // `population <= 0` raises; the except clause labels it
      case PopNumeral(_) => Skip(name)     // so does it on a string
      case PopNumber(n) =>
        if n <= 0 then Skip(name)
        else match e.currencies
          case CurrenciesMissing => Skip(name + " (no currency)")
          case CurrenciesOther => Skip(name)   // indexing or `.get` raises
          case CurrencyList(items) =>
            if items == [] then Skip(name + " (no currency)")
            else match items[0]
              case CurrencyNonObject => Skip(name)   // `.get` raises
              case CurrencyObject(c) =>
                match c
                case CodeMissing => Skip(name + " (no currency code)")
                case CodeNull => Skip(name + " (no currency code)")
                case CodeFalsy => Skip(name + " (no currency code)")
                case CodeOther => Skip(name)         // `.strip()` raises
                case CodeText(code) =>
                  if IsBlank(code) then Skip(name + " (no currency code)")
                  else if code !in rates then Skip(name + " (currency " + code + " not in exchange API)")
                  else match rates[code]
                    case RateNull => Skip(name + " (currency " + code + " not in exchange API)")
                    case RateOther => Skip(name)       // `exchange_rate > 0` raises
                    case RateNumber(rate) => Accept(name, n, code, rate)
  }

  /** The row built from an eligible entry: the entry's name, population and first code,
      its rate, the defaults for a missing capital, region or flag, and the batch timestamp. */
  function NewRecord(e: FeedCountry, rates: Rates, id: nat, factor: int, ts: Timestamp): (r: Country)
    requires Eligible(e, rates)
    ensures Guaranteed(r, rates, ts)
    ensures r.id == id && r.name == NameOrEmpty(e) && r.population == e.population.count &&
            r.currencyCode == Some(CodeOf(e))
    ensures r.capital == CapitalOf(e) && r.region == RegionOf(e) && r.flagUrl == FlagOf(e)
    ensures r.exchangeRate.value > 0.0 ==> r.estimatedGdp * r.exchangeRate.value == (r.population * factor) as real
    ensures r.exchangeRate.value <= 0.0 ==> r.estimatedGdp == 0.0
  {
    var v := Classify(e, rates);
    Country(id, v.name, CapitalOf(e), RegionOf(e), v.population, Some(v.code), Some(v.rate),
            EstimatedGdp(v.population, factor, v.rate), FlagOf(e), ts)
  }

  /** What every row appended by a refresh satisfies. */
  predicate Guaranteed(r: Country, rates: Rates, ts: Timestamp)
  {
    r.name != "" && r.population > 0 &&
    r.currencyCode.Some? && !IsBlank(r.currencyCode.value) && r.currencyCode.value in rates &&
    rates[r.currencyCode.value].RateNumber? &&
    r.exchangeRate == Some(rates[r.currencyCode.value].value) &&
    r.lastRefreshedAt == ts
  }

  // The refresh over a prefix of the feed, one entry at a time from the front.

  function CreatedNames(feed: seq<FeedCountry>, rates: Rates): seq<string>
    decreases |feed|
  {
    if feed == [] then []
    else
      var v := Classify(feed[|feed| - 1], rates);
      CreatedNames(feed[..|feed| - 1], rates) + (if v.Accept? then [v.name] else [])
  }

  function SkipLabels(feed: seq<FeedCountry>, rates: Rates): seq<string>
    decreases |feed|
  {
    if feed == [] then []
    else
      var v := Classify(feed[|feed| - 1], rates);
      SkipLabels(feed[..|feed| - 1], rates) + (if v.Skip? then [v.text] else [])
  }

  /** The rows the batch adds; entry i draws `draw(i)`, and ids follow on from `firstId`. */
  function NewRows(feed: seq<FeedCountry>, rates: Rates, draw: nat -> int, ts: Timestamp, firstId: nat): seq<Country>
    decreases |feed|
  {
    if feed == [] then []
    else
      var init := NewRows(feed[..|feed| - 1], rates, draw, ts, firstId);
      var v := Classify(feed[|feed| - 1], rates);
      init + (if v.Accept? then [NewRecord(feed[|feed| - 1], rates, firstId + |init|, draw(|feed| - 1), ts)] else [])
  }

  /** Every entry lands in exactly one of the two lists. */
  lemma {:induction false} OneOutcomePerEntry(feed: seq<FeedCountry>, rates: Rates)
    ensures |CreatedNames(feed, rates)| + |SkipLabels(feed, rates)| == |feed|
    decreases |feed|
  {
    if feed != [] {
      OneOutcomePerEntry(feed[..|feed| - 1], rates);
    }
  }

  /** The rows added are the created names, in order, with consecutive ids, and each
      carries the guaranteed fields. */
  lemma {:induction false} NewRowsFollowNames(feed: seq<FeedCountry>, rates: Rates, draw: nat -> int, ts: Timestamp, firstId: nat)
    ensures |NewRows(feed, rates, draw, ts, firstId)| == |CreatedNames(feed, rates)|
    ensures forall i :: 0 <= i < |CreatedNames(feed, rates)| ==>
              NewRows(feed, rates, draw, ts, firstId)[i].name == CreatedNames(feed, rates)[i] &&
              NewRows(feed, rates, draw, ts, firstId)[i].id == firstId + i
    ensures forall r :: r in NewRows(feed, rates, draw, ts, firstId) ==> Guaranteed(r, rates, ts)
    decreases |feed|
  {
    if feed != [] {
      NewRowsFollowNames(feed[..|feed| - 1], rates, draw, ts, firstId);
    }
  }

  /** The number of entries that fail some check. */
  function CountIneligible(feed: seq<FeedCountry>, rates: Rates): nat
    decreases |feed|
  {
    if feed == [] then 0
    else CountIneligible(feed[..|feed| - 1], rates) + (if Eligible(feed[|feed| - 1], rates) then 0 else 1)
  }

  /** The skip list holds one label per ineligible entry, and the created list one name per
      eligible entry. */
  lemma {:induction false} SkippedAreIneligible(feed: seq<FeedCountry>, rates: Rates)
    ensures |SkipLabels(feed, rates)| == CountIneligible(feed, rates)
    ensures |CreatedNames(feed, rates)| == |feed| - CountIneligible(feed, rates)
    ensures (forall i :: 0 <= i < |feed| ==> Eligible(feed[i], rates)) ==> SkipLabels(feed, rates) == []
    ensures (forall i :: 0 <= i < |feed| ==> !Eligible(feed[i], rates)) ==> CreatedNames(feed, rates) == []
    decreases |feed|
  {
    OneOutcomePerEntry(feed, rates);
    if feed != [] {
      SkippedAreIneligible(feed[..|feed| - 1], rates);
    }
  }

  /** The values an entry's row would take fit the columns: the population fits `integer`
      and none of the name, capital, region, flag and code holds NUL. */
  predicate EntryFits(e: FeedCountry)
  {
    e.population.PopNumber? && e.population.count <= IntegerMax &&
    NulFree(NameOrEmpty(e)) && NulFree(CapitalOf(e)) && NulFree(RegionOf(e)) && NulFree(FlagOf(e)) &&
    NulFree(CodeOf(e))
  }

  /** Every eligible entry fits the columns. */
  predicate EntriesFit(feed: seq<FeedCountry>, rates: Rates)
  {
    forall i :: 0 <= i < |feed| ==> Eligible(feed[i], rates) ==> EntryFits(feed[i])
  }

  lemma EntriesFitAppend(feed: seq<FeedCountry>, e: FeedCountry, rates: Rates)
    ensures EntriesFit(feed + [e], rates) <==>
            EntriesFit(feed, rates) && (Eligible(e, rates) ==> EntryFits(e))
  {
    assert forall i :: 0 <= i < |feed| ==> (feed + [e])[i] == feed[i];
    assert (feed + [e])[|feed|] == e;
  }

  lemma AllStorableConcat(a: seq<Country>, b: seq<Country>)
    ensures AllStorable(a + b) <==> AllStorable(a) && AllStorable(b)
  {
    assert forall i :: 0 <= i < |a| ==> (a + b)[i] == a[i];
    assert forall i :: 0 <= i < |b| ==> (a + b)[|a| + i] == b[i];
  }

  /** The modelled commit accepts the batch exactly when every eligible entry fits the columns
      (eligible populations are positive, so only the upper bound matters). */
  lemma {:induction false} NewRowsStorable(feed: seq<FeedCountry>, rates: Rates, draw: nat -> int,
                                           ts: Timestamp, firstId: nat)
    ensures AllStorable(NewRows(feed, rates, draw, ts, firstId)) <==> EntriesFit(feed, rates)
    decreases |feed|
  {
    if feed != [] {
      var init := feed[..|feed| - 1];
      NewRowsStorable(init, rates, draw, ts, firstId);
      var rows := NewRows(init, rates, draw, ts, firstId);
      var last := feed[|feed| - 1];
      assert feed == init + [last];
      AppendEntry(init, last, rates, draw, ts, firstId, rows, CreatedNames(init, rates), SkipLabels(init, rates));
      if Eligible(last, rates) {
        var r := NewRecord(last, rates, firstId + |rows|, draw(|feed| - 1), ts);
        assert NewRows(feed, rates, draw, ts, firstId) == rows + [r];
        AllStorableConcat(rows, [r]);
        assert AllStorable([r]) <==> Storable(r) by { assert [r][0] == r; }
      } else {
        assert NewRows(feed, rates, draw, ts, firstId) == rows;
      }
      EntriesFitAppend(init, last, rates);
    }
  }

  /** The response of a refresh: counts and name lists. */
  datatype RefreshOutcome = RefreshOutcome(
    created: nat, updated: nat, skipped: nat,
    createdCountries: seq<string>, updatedCountries: seq<string>, skippedCountries: seq<string>)

  /** The largest number of names the response lists as created or updated. */
  const ListedLimit := 10

  function Min(a: nat, b: nat): nat
  {
    if a < b then a else b
  }

  /** The response built from the two lists; the updated list is never appended to. */
  function Summarize(created: seq<string>, skipped: seq<string>): (o: RefreshOutcome)
    ensures o.created == |created| && o.skipped == |skipped|
    ensures o.updated == 0 && o.updatedCountries == []
    ensures o.createdCountries <= created && |o.createdCountries| == Min(ListedLimit, |created|)
    ensures o.skippedCountries == skipped
  {
    var updated: seq<string> := [];
    RefreshOutcome(|created|, |updated|, |skipped|,
                   created[..Min(ListedLimit, |created|)], updated[..Min(ListedLimit, |updated|)], skipped)
  }

  /** The response accounts for every entry: created + skipped is the feed length, nothing
      is reported updated, and at most ten created names are listed. */
  lemma {:induction false} RefreshAccounting(feed: seq<FeedCountry>, rates: Rates)
    ensures var o := Summarize(CreatedNames(feed, rates), SkipLabels(feed, rates));
            o.created + o.skipped == |feed| && o.updated == 0 && |o.createdCountries| <= ListedLimit
  {
    OneOutcomePerEntry(feed, rates);
  }

  /** One more entry extends the three results by what its verdict gives: an accepted entry
      appends its row and its name, a skipped one its label. */
  lemma AppendEntry(feed: seq<FeedCountry>, e: FeedCountry, rates: Rates, draw: nat -> int, ts: Timestamp,
                    firstId: nat, added: seq<Country>, created: seq<string>, skipped: seq<string>)
    requires added == NewRows(feed, rates, draw, ts, firstId)
    requires created == CreatedNames(feed, rates) && skipped == SkipLabels(feed, rates)
    ensures var v := Classify(e, rates);
            v.Accept? ==>
              Eligible(e, rates) &&
              NewRows(feed + [e], rates, draw, ts, firstId) ==
                added + [NewRecord(e, rates, firstId + |added|, draw(|feed|), ts)] &&
              CreatedNames(feed + [e], rates) == created + [v.name] &&
              SkipLabels(feed + [e], rates) == skipped
    ensures var v := Classify(e, rates);
            v.Skip? ==>
              NewRows(feed + [e], rates, draw, ts, firstId) == added &&
              CreatedNames(feed + [e], rates) == created &&
              SkipLabels(feed + [e], rates) == skipped + [v.text]
  {
    assert (feed + [e])[..|feed|] == feed;
  }

  /** The loop of the refresh: classify each entry in feed order, collect the new rows and
      the created and skipped names. Storage is not touched here; the caller commits once.
      An entry that is not an object makes `country.get` raise in the body and again in the
      `except` clause, so the whole refresh stops (`aborted`). */
  method ProcessFeed(feed: seq<FeedEntry>, rates: Rates, draw: nat -> int, ts: Timestamp, firstId: nat)
    returns (aborted: bool, added: seq<Country>, created: seq<string>, skipped: seq<string>)
    ensures aborted <==> !AllObjects(feed)
    ensures !aborted ==>
              added == NewRows(Objects(feed), rates, draw, ts, firstId) &&
              created == CreatedNames(Objects(feed), rates) && skipped == SkipLabels(Objects(feed), rates)
    ensures !aborted ==> |created| + |skipped| == |feed| && |added| == |created|
    ensures !aborted ==>
              forall i :: 0 <= i < |added| ==> added[i].name == created[i] && added[i].id == firstId + i
    ensures !aborted ==> forall r :: r in added ==> Guaranteed(r, rates, ts)
  {
    aborted, added, created, skipped := false, [], [], [];
    ghost var done: seq<FeedCountry> := [];
    for i := 0 to |feed|
      invariant |done| == i && forall j :: 0 <= j < i ==> feed[j] == Object(done[j])
      invariant added == NewRows(done, rates, draw, ts, firstId)
      invariant created == CreatedNames(done, rates)
      invariant skipped == SkipLabels(done, rates)
    {
      if feed[i].NonObject? {
        aborted := true;
        return;
      }
      var e := feed[i].country;
      AppendEntry(done, e, rates, draw, ts, firstId, added, created, skipped);
      var v := Classify(e, rates);
      if v.Accept? {
        added := added + [NewRecord(e, rates, firstId + |added|, draw(i), ts)];
        created := created + [v.name];
      } else {
        skipped := skipped + [v.text];
      }
      done := done + [e];
    }
    assert done == Objects(feed);
    OneOutcomePerEntry(done, rates);
    NewRowsFollowNames(done, rates, draw, ts, firstId);
  }
}
