/** The read side over the stored rows: list with a sort key, look up by name, the rows a
    delete by name keeps, the row count, and the top five by estimated GDP. */
module Queries {
  import opened Outcomes
  import opened Text
  import opened Entities

  // Lookup and delete by name

  predicate NameMatches(r: Country, name: string)
  {
    SameIgnoringCase(r.name, name)
  }

  /** `filter(func.lower(name) == name.lower()).first()`, in storage order. */
  function FindByName(rows: seq<Country>, name: string): (r: Result<Country>)
    ensures r.Err? <==> forall i :: 0 <= i < |rows| ==> !NameMatches(rows[i], name)
    ensures r.Err? ==> r.error == CountryNotFound
    ensures r.Ok? ==> exists i :: 0 <= i < |rows| && rows[i] == r.value && NameMatches(rows[i], name) &&
                                  forall j :: 0 <= j < i ==> !NameMatches(rows[j], name)
    decreases |rows|
  {
    if rows == [] then Err(CountryNotFound)
    else if NameMatches(rows[0], name) then Ok(rows[0])
    else
      var rest := FindByName(rows[1..], name);
      assert forall j :: 1 <= j < |rows| ==> rows[j] == rows[1..][j - 1];
      rest
  }

  /** Looking a name up is insensitive to the case of the argument. */
  lemma FindByNameIgnoresCase(rows: seq<Country>, name: string)
    ensures FindByName(rows, Lower(name)) == FindByName(rows, name)
  {
    LowerIdempotent(name);
  }

  /** The rows left after `delete()` on the same filter. */
  function RemoveByName(rows: seq<Country>, name: string): (r: seq<Country>)
    ensures forall x :: x in r ==> x in rows && !NameMatches(x, name)
    decreases |rows|
  {
    if rows == [] then []
    else
      (if NameMatches(rows[0], name) then [] else [rows[0]]) + RemoveByName(rows[1..], name)
  }

  /** The delete removes every copy of every matching row and keeps every copy of the others. */
  lemma {:induction false} RemoveByNameContents(rows: seq<Country>, name: string)
    ensures forall x :: multiset(RemoveByName(rows, name))[x] ==
                        if NameMatches(x, name) then 0 else multiset(rows)[x]
    decreases |rows|
  {
    if rows != [] {
      RemoveByNameContents(rows[1..], name);
      assert rows == [rows[0]] + rows[1..];
    }
  }

  /** Removing by name works segment by segment, so the rows kept stay in their order. */
  lemma {:induction false} RemoveByNameDistributes(a: seq<Country>, b: seq<Country>, name: string)
    ensures RemoveByName(a + b, name) == RemoveByName(a, name) + RemoveByName(b, name)
    decreases |a|
  {
    if a != [] {
      var head := if NameMatches(a[0], name) then [] else [a[0]];
      var ab := a + b;
      assert ab[0] == a[0] && ab[1..] == a[1..] + b;
      assert RemoveByName(ab, name) == head + RemoveByName(a[1..] + b, name);
      RemoveByNameDistributes(a[1..], b, name);
      assert RemoveByName(a, name) == head + RemoveByName(a[1..], name);
    } else {
      assert a + b == b;
    }
  }

  /** Rows that do not match are all kept. */
  lemma {:induction false} RemoveByNameKeepsOthers(rows: seq<Country>, name: string)
    requires forall i :: 0 <= i < |rows| ==> !NameMatches(rows[i], name)
    ensures RemoveByName(rows, name) == rows
    decreases |rows|
  {
    if rows != [] {
      RemoveByNameKeepsOthers(rows[1..], name);
    }
  }

  /** After the delete nothing matches the name any more. */
  lemma DeletedNameNotFound(rows: seq<Country>, name: string)
    ensures FindByName(RemoveByName(rows, name), name) == Err(CountryNotFound)
  {
  }

  // Status

  /** `query(...).count()`: how many rows the table holds, duplicates included. */
  function StatusCount(rows: seq<Country>): (n: nat)
    ensures n == |multiset(rows)|
    ensures n == 0 <==> rows == []
  {
    |rows|
  }

  /** The count drops exactly when the name was found: delete fails or removes at least one row. */
  lemma {:induction false} DeleteShrinksCount(rows: seq<Country>, name: string)
    ensures StatusCount(RemoveByName(rows, name)) <= StatusCount(rows)
    ensures StatusCount(RemoveByName(rows, name)) < StatusCount(rows) <==> FindByName(rows, name).Ok?
    decreases |rows|
  {
    if rows != [] {
      DeleteShrinksCount(rows[1..], name);
    }
  }

  // Listing

  datatype SortKey = GdpDesc | GdpAsc | PopulationDesc | PopulationAsc | NameAsc | NameDesc

  /** The query-string spelling of each key. */
  function KeyName(k: SortKey): string
  {
    match k
    case GdpDesc => "gdp_desc"
    case GdpAsc => "gdp_asc"
    case PopulationDesc => "population_desc"
    case PopulationAsc => "population_asc"
    case NameAsc => "name_asc"
    case NameDesc => "name_desc"
  }

  const KeyNames: set<string> :=
    {"gdp_desc", "gdp_asc", "population_desc", "population_asc", "name_asc", "name_desc"}

  /** The `sort` parameter, lower-cased; absent, empty or unknown means name ascending. */
  function ParseSortKey(sort: Option<string>): (k: SortKey)
    ensures (sort.None? || sort.value == "") ==> k == NameAsc
    ensures sort.Some? && sort.value != "" && Lower(sort.value) in KeyNames ==> KeyName(k) == Lower(sort.value)
    ensures sort.Some? && Lower(sort.value) !in KeyNames ==> k == NameAsc
  {
    if sort.None? || sort.value == "" then NameAsc
    else
      var s := Lower(sort.value);
      if s == "gdp_desc" then GdpDesc
      else if s == "gdp_asc" then GdpAsc
      else if s == "population_desc" then PopulationDesc
      else if s == "population_asc" then PopulationAsc
      else if s == "name_asc" then NameAsc
      else if s == "name_desc" then NameDesc
      else NameAsc
  }

  /** `a` may come before `b` under the key. */
  predicate InOrder(k: SortKey, a: Country, b: Country)
  {
    match k
    case GdpDesc => a.estimatedGdp >= b.estimatedGdp
    case GdpAsc => a.estimatedGdp <= b.estimatedGdp
    case PopulationDesc => a.population >= b.population
    case PopulationAsc => a.population <= b.population
    case NameAsc => LexLeq(a.name, b.name)
    case NameDesc => LexLeq(b.name, a.name)
  }

  lemma InOrderTotal(k: SortKey, a: Country, b: Country)
    ensures InOrder(k, a, b) || InOrder(k, b, a)
  {
    if k == NameAsc || k == NameDesc {
      LexLeqTotal(a.name, b.name);
    }
  }

  lemma InOrderTransitive(k: SortKey, a: Country, b: Country, c: Country)
    requires InOrder(k, a, b) && InOrder(k, b, c)
    ensures InOrder(k, a, c)
  {
    if k == NameAsc {
      LexLeqTransitive(a.name, b.name, c.name);
    } else if k == NameDesc {
      LexLeqTransitive(c.name, b.name, a.name);
    }
  }

  predicate SortedBy(k: SortKey, s: seq<Country>)
  {
    forall i, j :: 0 <= i < j < |s| ==> InOrder(k, s[i], s[j])
  }

  /** A row that may precede every row of a sorted sequence can head it. */
  lemma SortedCons(k: SortKey, h: Country, t: seq<Country>)
    requires SortedBy(k, t)
    requires forall j :: 0 <= j < |t| ==> InOrder(k, h, t[j])
    ensures SortedBy(k, [h] + t)
  {
    var s := [h] + t;
    forall i, j | 0 <= i < j < |s| ensures InOrder(k, s[i], s[j]) {
      assert s[j] == t[j - 1];
      if i > 0 {
        assert s[i] == t[i - 1];
      }
    }
  }

  /** Insert `x` before the first row it may precede. */
  function Insert(k: SortKey, x: Country, s: seq<Country>): (r: seq<Country>)
    requires SortedBy(k, s)
    ensures SortedBy(k, r)
    ensures multiset(r) == multiset(s) + multiset{x}
    decreases |s|
  {
    if s == [] then [x]
    else if InOrder(k, x, s[0]) then
      HeadPrecedesAll(k, x, s);
      SortedCons(k, x, s);
      [x] + s
    else
      var rest := Insert(k, x, s[1..]);
      assert s == [s[0]] + s[1..];
      InsertedAfterHead(k, x, s, rest);
      SortedCons(k, s[0], rest);
      [s[0]] + rest
  }

  lemma HeadPrecedesAll(k: SortKey, x: Country, s: seq<Country>)
    requires SortedBy(k, s) && s != [] && InOrder(k, x, s[0])
    ensures forall j :: 0 <= j < |s| ==> InOrder(k, x, s[j])
  {
    forall j | 0 < j < |s| ensures InOrder(k, x, s[j]) {
      InOrderTransitive(k, x, s[0], s[j]);
    }
  }

  /** When `x` cannot precede the head, the head precedes everything `x` is inserted among. */
  lemma InsertedAfterHead(k: SortKey, x: Country, s: seq<Country>, rest: seq<Country>)
    requires SortedBy(k, s) && s != [] && !InOrder(k, x, s[0])
    requires multiset(rest) == multiset(s[1..]) + multiset{x}
    ensures forall j :: 0 <= j < |rest| ==> InOrder(k, s[0], rest[j])
  {
    InOrderTotal(k, x, s[0]);
    forall j | 0 <= j < |rest| ensures InOrder(k, s[0], rest[j]) {
      var y := rest[j];
      assert y in multiset(rest);
      if y != x {
        assert y in multiset(s[1..]);
        var m :| 0 <= m < |s[1..]| && s[1..][m] == y;
        assert s[m + 1] == y;
      }
    }
  }

  /** Stable insertion sort: rows with equal keys keep their storage order. */
  function SortRows(k: SortKey, rows: seq<Country>): (r: seq<Country>)
    ensures SortedBy(k, r)
    ensures multiset(r) == multiset(rows)
    decreases |rows|
  {
    if rows == [] then []
    else
      assert rows == [rows[0]] + rows[1..];
      Insert(k, rows[0], SortRows(k, rows[1..]))
  }

  /** `get_all_country`: every stored row, ordered by the chosen key. The region and currency
      filters build a query that the sort then replaces, so they select nothing. */
  function ListCountries(rows: seq<Country>, region: Option<string>, currency: Option<string>,
                         sort: Option<string>): (r: seq<Country>)
    ensures multiset(r) == multiset(rows) && |r| == |rows|
    ensures SortedBy(ParseSortKey(sort), r)
  {
    assert |multiset(SortRows(ParseSortKey(sort), rows))| == |multiset(rows)|;
    SortRows(ParseSortKey(sort), rows)
  }

  /** The filters have no effect on the listing. */
  lemma ListIgnoresFilters(rows: seq<Country>, region: Option<string>, currency: Option<string>,
                           sort: Option<string>)
    ensures ListCountries(rows, region, currency, sort) == ListCountries(rows, None, None, sort)
  {
  }

  /** A concrete table on which the region filter `Asia` still lists a European row. */
  lemma RegionFilterIgnored()
    ensures var row := Country(1, "France", "Paris", "Europe", 67000000, Some("EUR"), Some(0.9),
                               1.0, "", 0);
            row in ListCountries([row], Some("Asia"), None, None) && !RegionMatches(row, Some("Asia"))
  {
    var row := Country(1, "France", "Paris", "Europe", 67000000, Some("EUR"), Some(0.9), 1.0, "", 0);
    var r := ListCountries([row], Some("Asia"), None, None);
    assert multiset(r) == multiset{row};
    assert row in multiset(r);
    assert Lower("Europe") == "europe" && Lower("Asia") == "asia";
    forall i | OccursAt("asia", "europe", i) ensures "europe"[i] == 'a' {
      assert "europe"[i..i + 4][0] == "asia"[0];
    }
  }

  // The listing as evidently intended: the filters select rows, then the sort applies.

  /** `n` occurs in `h` starting at position `i`. */
  predicate OccursAt(n: string, h: string, i: int)
  {
    0 <= i && i + |n| <= |h| && h[i..i + |n|] == n
  }

  /** `n` is a substring of `h`. */
  predicate Occurs(n: string, h: string)
  {
    exists i | 0 <= i <= |h| :: OccursAt(n, h, i)
  }

  function UpperChar(c: char): char
  {
    if 'a' <= c <= 'z' then (c as int - 32) as char else c
  }

  function Upper(s: string): (r: string)
    ensures |r| == |s|
  {
    seq(|s|, i requires 0 <= i < |s| => UpperChar(s[i]))
  }

  /** `region.ilike('%' + region + '%')`, skipped when the parameter is absent or empty. */
  predicate RegionMatches(r: Country, region: Option<string>)
  {
    region.None? || region.value == "" || Occurs(Lower(region.value), Lower(r.region))
  }

  /** `currency_code == currency.upper()`, skipped when the parameter is absent or empty. */
  predicate CurrencyMatches(r: Country, currency: Option<string>)
  {
    currency.None? || currency.value == "" || r.currencyCode == Some(Upper(currency.value))
  }

  predicate PassesFilters(r: Country, region: Option<string>, currency: Option<string>)
  {
    RegionMatches(r, region) && CurrencyMatches(r, currency)
  }

  function SelectRows(rows: seq<Country>, region: Option<string>, currency: Option<string>): seq<Country>
    decreases |rows|
  {
    if rows == [] then []
    else (if PassesFilters(rows[0], region, currency) then [rows[0]] else []) +
         SelectRows(rows[1..], region, currency)
  }

  /** The selection keeps every copy of a row that passes and no copy of one that does not. */
  lemma {:induction false} SelectRowsContents(rows: seq<Country>, region: Option<string>, currency: Option<string>)
    ensures forall x :: multiset(SelectRows(rows, region, currency))[x] ==
                        if PassesFilters(x, region, currency) then multiset(rows)[x] else 0
    decreases |rows|
  {
    if rows != [] {
      SelectRowsContents(rows[1..], region, currency);
      assert rows == [rows[0]] + rows[1..];
    }
  }

  /** The filtered listing: exactly the rows that pass both filters, ordered by the key. */
  function ListCountriesFiltered(rows: seq<Country>, region: Option<string>, currency: Option<string>,
                                 sort: Option<string>): (r: seq<Country>)
    ensures forall x :: multiset(r)[x] == if PassesFilters(x, region, currency) then multiset(rows)[x] else 0
    ensures forall x :: x in r ==> PassesFilters(x, region, currency)
    ensures SortedBy(ParseSortKey(sort), r)
  {
    SelectRowsContents(rows, region, currency);
    SortRows(ParseSortKey(sort), SelectRows(rows, region, currency))
  }

  /** Without filters the filtered listing is the listing. */
  lemma FilteredWithoutFilters(rows: seq<Country>, sort: Option<string>)
    ensures ListCountriesFiltered(rows, None, None, sort) == ListCountries(rows, None, None, sort)
  {
    SelectAllRows(rows);
  }

  lemma {:induction false} SelectAllRows(rows: seq<Country>)
    ensures SelectRows(rows, None, None) == rows
    decreases |rows|
  {
    if rows != [] {
      SelectAllRows(rows[1..]);
      assert rows == [rows[0]] + rows[1..];
    }
  }

  // Summary image data

  /** The number of rows the summary image ranks. */
  const TopCount := 5

  /** The first `n` rows of a sequence sorted by descending GDP are sorted, come from it, and
      have at least the GDP of every row left behind. */
  lemma SortedPrefixTop(s: seq<Country>, n: nat)
    requires SortedBy(GdpDesc, s) && n <= |s|
    ensures SortedBy(GdpDesc, s[..n]) && multiset(s[..n]) <= multiset(s)
    ensures forall x :: x in multiset(s) - multiset(s[..n]) ==>
              forall i :: 0 <= i < n ==> s[i].estimatedGdp >= x.estimatedGdp
  {
    assert s == s[..n] + s[n..];
    assert multiset(s) == multiset(s[..n]) + multiset(s[n..]);
    forall x | x in multiset(s) - multiset(s[..n])
      ensures forall i :: 0 <= i < n ==> s[i].estimatedGdp >= x.estimatedGdp
    {
      assert x in multiset(s[n..]);
      var j :| 0 <= j < |s[n..]| && s[n..][j] == x;
      assert s[n + j] == x;
    }
  }

  /** `filter(gdp is not None).order_by(desc(gdp)).limit(5)`; every stored GDP is non-null. */
  function TopByGdp(rows: seq<Country>): (r: seq<Country>)
    ensures |r| == if |rows| < TopCount then |rows| else TopCount
    ensures SortedBy(GdpDesc, r)
    ensures multiset(r) <= multiset(rows)
    ensures forall x :: x in multiset(rows) - multiset(r) ==>
              forall i :: 0 <= i < |r| ==> r[i].estimatedGdp >= x.estimatedGdp
  {
    var s := SortRows(GdpDesc, rows);
    assert |s| == |rows| by { assert |multiset(s)| == |multiset(rows)|; }
    var n := if |s| < TopCount then |s| else TopCount;
    SortedPrefixTop(s, n);
    s[..n]
  }
}
