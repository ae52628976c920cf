/** The currency_exchanger table as an object whose rows the services change in place. */
module Storage {
  import opened Outcomes
  import opened Entities
  import opened Feed
  import opened Refresh
  import opened Create
  import opened Queries

  class CountryTable {
    /** The rows, in storage order. */
    var rows: seq<Country>
    /** The id the next inserted row receives. */
    var nextId: nat

    /** Primary keys are unique: they ascend in storage order and stay below `nextId`; and
        every row is one the commit accepted. */
    ghost predicate Valid()
      reads this
    {
      IdsAscending(rows, nextId) && AllStorable(rows)
    }

    constructor ()
      ensures Valid() && rows == [] && nextId == 1
    {
      rows := [];
      nextId := 1;
    }

    /** `bulk_refresh_countries`: a failed fetch, a payload element that is not an object, or
        a new row the commit refuses leaves the table alone; otherwise the rows built from the eligible entries are added
        in one commit, after every existing row, with the next ids. */
    method BulkRefresh(fetched: Result<Feeds>, draw: nat -> int, ts: Timestamp) returns (r: Result<RefreshOutcome>)
      requires Valid()
      modifies this
      ensures Valid()
      ensures fetched.Err? ==> r == Err(UpstreamFetchFailed) && rows == old(rows) && nextId == old(nextId)
      ensures fetched.Ok? && !AllObjects(fetched.value.countries) ==>
                r == Err(InternalError) && rows == old(rows) && nextId == old(nextId)
      ensures fetched.Ok? && AllObjects(fetched.value.countries) &&
              !AllStorable(NewRows(Objects(fetched.value.countries), fetched.value.rates, draw, ts, old(nextId))) ==>
                r == Err(InternalError) && rows == old(rows) && nextId == old(nextId)
      ensures fetched.Ok? && AllObjects(fetched.value.countries) &&
              AllStorable(NewRows(Objects(fetched.value.countries), fetched.value.rates, draw, ts, old(nextId))) ==>
                var feed, rates := Objects(fetched.value.countries), fetched.value.rates;
                rows == old(rows) + NewRows(feed, rates, draw, ts, old(nextId)) &&
                nextId == old(nextId) + |CreatedNames(feed, rates)| &&
                r == Ok(Summarize(CreatedNames(feed, rates), SkipLabels(feed, rates))) &&
                StatusCount(rows) == StatusCount(old(rows)) + |CreatedNames(feed, rates)| &&
                (forall i :: |old(rows)| <= i < |rows| ==> Guaranteed(rows[i], rates, ts))
    {
      if fetched.Err? {
        return Err(UpstreamFetchFailed);
      }
      var rates := fetched.value.rates;
      var aborted, added, created, skipped := ProcessFeed(fetched.value.countries, rates, draw, ts, nextId);
      if aborted {
        // the rows the loop added are never committed
        return Err(InternalError);
      }
      if !AllStorable(added) {
        // `db.commit()` refuses the batch, so none of it is stored
        return Err(InternalError);
      }
      ghost var before := rows;
      AppendKeepsIdOrder(rows, added, nextId);
      AllStorableConcat(rows, added);
      rows := rows + added;
      nextId := nextId + |added|;
      assert forall i :: |before| <= i < |rows| ==> rows[i] == added[i - |before|];
      r := Ok(Summarize(created, skipped));
    }

    /** `create_country_exchanger`: on success exactly one row is appended, on any error the
        table is unchanged. */
    method CreateCountry(req: CreateRequest, fetched: Result<Feeds>, factor: int, now: Timestamp)
      returns (r: Result<Country>)
      requires Valid()
      modifies this
      ensures Valid()
      ensures r == CreateOutcome(req, fetched, old(rows), old(nextId), factor, now)
      ensures r.Ok? ==> rows == old(rows) + [r.value] && nextId == old(nextId) + 1
      ensures r.Err? ==> rows == old(rows) && nextId == old(nextId)
    {
      var invalid := ValidateRequest(req);
      if invalid.Some? {
        return Err(invalid.value);
      }
      if fetched.Err? {
        return Err(UpstreamFetchFailed);
      }
      var feed := fetched.value.countries;
      var s := FindMatch(feed, req);
      match s {
        case NoMatch =>
          r := Err(CountryNotFound);
        case Crashed(_) =>
          r := Err(InternalError);
        case Found(i) =>
          r := Commit(BuildFromMatch(feed[i].country, fetched.value.rates, rows, nextId, factor, now));
          if r.Ok? {
            AllStorableConcat(rows, [r.value]);
            assert [r.value][0] == r.value;
            rows := rows + [r.value];
            nextId := nextId + 1;
          }
      }
    }

    /** `delete_country_by_name`: with no match the table is unchanged; otherwise every
        case-insensitive match goes and the first one is returned. */
    method DeleteByName(name: string) returns (r: Result<Country>)
      requires Valid()
      modifies this
      ensures Valid() && nextId == old(nextId)
      ensures r == FindByName(old(rows), name)
      ensures r.Err? ==> rows == old(rows) && r.error == CountryNotFound
      ensures r.Ok? ==> rows == RemoveByName(old(rows), name) && StatusCount(rows) < StatusCount(old(rows))
    {
      r := FindByName(rows, name);
      if r.Ok? {
        DeleteShrinksCount(rows, name);
        RemoveKeepsIdOrder(rows, name, nextId);
        RemoveKeepsStorable(rows, name);
        rows := RemoveByName(rows, name);
      }
    }
  }

  /** Ids ascend in storage order and stay below `bound`. */
  ghost predicate IdsAscending(rows: seq<Country>, bound: nat)
  {
    (forall i, j :: 0 <= i < j < |rows| ==> rows[i].id < rows[j].id) &&
    (forall i :: 0 <= i < |rows| ==> rows[i].id < bound)
  }

  /** Appending rows numbered on from `bound` keeps ids ascending, below the advanced bound. */
  lemma AppendKeepsIdOrder(rows: seq<Country>, added: seq<Country>, bound: nat)
    requires IdsAscending(rows, bound)
    requires forall i :: 0 <= i < |added| ==> added[i].id == bound + i
    ensures IdsAscending(rows + added, bound + |added|)
  {
    var all := rows + added;
    assert forall i :: 0 <= i < |rows| ==> all[i] == rows[i];
    assert forall i :: |rows| <= i < |all| ==> all[i] == added[i - |rows|];
  }

  /** The rows a delete keeps were all accepted by the commit. */
  lemma RemoveKeepsStorable(rows: seq<Country>, name: string)
    requires AllStorable(rows)
    ensures AllStorable(RemoveByName(rows, name))
  {
    var kept := RemoveByName(rows, name);
    forall i | 0 <= i < |kept|
      ensures Storable(kept[i])
    {
      assert kept[i] in rows;
      var j :| 0 <= j < |rows| && rows[j] == kept[i];
    }
  }

  /** A row with an id below every later id, and below the bound, can head an ascending run. */
  lemma ConsAscending(h: Country, t: seq<Country>, bound: nat)
    requires IdsAscending(t, bound) && h.id < bound
    requires forall x :: x in t ==> h.id < x.id
    ensures IdsAscending([h] + t, bound)
  {
    var all := [h] + t;
    assert forall i :: 1 <= i < |all| ==> all[i] == t[i - 1] && all[i] in t;
  }

  /** The rows a delete keeps still have ascending ids, all below the same bound. */
  lemma {:induction false} RemoveKeepsIdOrder(rows: seq<Country>, name: string, bound: nat)
    requires IdsAscending(rows, bound)
    ensures IdsAscending(RemoveByName(rows, name), bound)
    decreases |rows|
  {
    if rows != [] {
      var t := rows[1..];
      assert forall i :: 0 <= i < |t| ==> t[i] == rows[i + 1];
      RemoveKeepsIdOrder(t, name, bound);
      var kept := RemoveByName(t, name);
      forall x | x in kept
        ensures rows[0].id < x.id
      {
        var m :| 0 <= m < |t| && t[m] == x;
        assert rows[m + 1] == x;
      }
      if !NameMatches(rows[0], name) {
        ConsAscending(rows[0], kept, bound);
      }
    }
  }
}
