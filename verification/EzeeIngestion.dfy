/** Ingestion of reservations made outside the program: the arrival list and the rows created from it. */
module EzeeIngestion {
  import opened Wrappers
  import opened Tables
  import opened Database
  import opened EzeeReconciliation

  // ---------------------------------------------------------------- the arrival list

  datatype Part = Part(currentStatus: string, roomName: Option<string>, adults: Option<nat>, children: Option<nat>)

  /** An entry of the arrival list; a reservation of several rooms may come as several entries. */
  datatype Arrival = Arrival(uniqueId: string, parts: seq<Part>)

  datatype Summary = Summary(reservationNo: string, status: string, roomName: Option<string>, guests: nat)

  function GuestsOf(parts: seq<Part>, n: nat): nat
    requires n <= |parts|
  {
    if n == 0 then 0
    else GuestsOf(parts, n - 1) + parts[n - 1].adults.GetOr(1) + parts[n - 1].children.GetOr(0)
  }

  function Summarise(a: Arrival): Summary
    requires a.parts != []
  {
    var total := GuestsOf(a.parts, |a.parts|);
    Summary(a.uniqueId, a.parts[0].currentStatus, a.parts[0].roomName, if total == 0 then 1 else total)
  }

  /** A part without a count is of one adult, without a count of children of none. */
  lemma GuestsAdd(parts: seq<Part>, n: nat)
    requires n < |parts|
    ensures GuestsOf(parts, 0) == 0
    ensures GuestsOf(parts, n + 1) == GuestsOf(parts, n)
              + (if parts[n].adults.Some? then parts[n].adults.value else 1)
              + (if parts[n].children.Some? then parts[n].children.value else 0)
  {
  }

  /** What is taken from an entry: status and room of its first part, and the guests of all, but at least one. */
  ghost predicate IsSummaryOf(r: Summary, a: Arrival)
  {
    && a.parts != [] && r.reservationNo == a.uniqueId
    && r.status == a.parts[0].currentStatus && r.roomName == a.parts[0].roomName
    && r.guests == if GuestsOf(a.parts, |a.parts|) == 0 then 1 else GuestsOf(a.parts, |a.parts|)
  }

  ghost predicate FirstOfItsNumber(arrivals: seq<Arrival>, i: nat)
    requires i < |arrivals|
  {
    forall j | 0 <= j < i :: arrivals[j].uniqueId != arrivals[i].uniqueId
  }

  /** Summaries of the first entries of each number among the first `n`; an entry without parts uses its number up. */
  ghost function Deduplicated(arrivals: seq<Arrival>, n: nat): seq<Summary>
    requires n <= |arrivals|
  {
    if n == 0 then []
    else
      Deduplicated(arrivals, n - 1)
      + if FirstOfItsNumber(arrivals, n - 1) && arrivals[n - 1].parts != [] then [Summarise(arrivals[n - 1])] else []
  }

  method FetchReservationsByDateRange(arrivals: seq<Arrival>) returns (results: seq<Summary>)
    ensures results == Deduplicated(arrivals, |arrivals|)
  {
    results := [];
    var seen: set<string> := {};
    for i := 0 to |arrivals|
      invariant seen == set j | 0 <= j < i :: arrivals[j].uniqueId
      invariant results == Deduplicated(arrivals, i)
    {
      var resNo := arrivals[i].uniqueId;
      if resNo !in seen {
        seen := seen + {resNo};
        if arrivals[i].parts != [] {
          var totalGuests := 0;
          for k := 0 to |arrivals[i].parts|
            invariant totalGuests == GuestsOf(arrivals[i].parts, k)
          {
            var t := arrivals[i].parts[k];
            totalGuests := totalGuests + t.adults.GetOr(1) + t.children.GetOr(0);
          }
          var tran := arrivals[i].parts[0];
          results := results
            + [Summary(resNo, tran.currentStatus, tran.roomName, if totalGuests == 0 then 1 else totalGuests)];
        }
      } else {
        assert !FirstOfItsNumber(arrivals, i);
      }
    }
  }

  /** The list holds exactly a summary of the first entry of each number, unless that entry is empty. */
  lemma FetchedExactly(arrivals: seq<Arrival>, r: Summary)
    ensures r in Deduplicated(arrivals, |arrivals|) <==>
            exists i | 0 <= i < |arrivals| :: FirstOfItsNumber(arrivals, i) && IsSummaryOf(r, arrivals[i])
  {
    DeduplicatedComesFrom(arrivals, |arrivals|, r);
    forall i | 0 <= i < |arrivals|
      ensures IsSummaryOf(r, arrivals[i]) <==> arrivals[i].parts != [] && Summarise(arrivals[i]) == r
    {
    }
  }

  ghost predicate DistinctNumbers(feed: seq<Summary>)
  {
    forall i, j | 0 <= i < j < |feed| :: feed[i].reservationNo != feed[j].reservationNo
  }

  lemma {:induction false} DeduplicatedComesFrom(arrivals: seq<Arrival>, n: nat, r: Summary)
    requires n <= |arrivals|
    ensures r in Deduplicated(arrivals, n) <==>
            exists i | 0 <= i < n ::
              FirstOfItsNumber(arrivals, i) && arrivals[i].parts != [] && Summarise(arrivals[i]) == r
  {
    if n > 0 {
      DeduplicatedComesFrom(arrivals, n - 1, r);
    }
  }

  /** Each number at most once. */
  lemma {:induction false} DeduplicatedIsDistinct(arrivals: seq<Arrival>, n: nat)
    requires n <= |arrivals|
    ensures DistinctNumbers(Deduplicated(arrivals, n))
  {
    if n > 0 {
      DeduplicatedIsDistinct(arrivals, n - 1);
      var earlier := Deduplicated(arrivals, n - 1);
      forall k | 0 <= k < |earlier| && FirstOfItsNumber(arrivals, n - 1)
        ensures earlier[k].reservationNo != arrivals[n - 1].uniqueId
      {
        DeduplicatedComesFrom(arrivals, n - 1, earlier[k]);
      }
    }
  }

  // ---------------------------------------------------------------- generated reservation ids

  function UpperChar(c: char): char
  {
    if 'a' <= c <= 'z' then (c as int - 32) as char else c
  }

  function Upper(s: string): (t: string)
    ensures |t| == |s|
  {
    if s == "" then "" else [UpperChar(s[0])] + Upper(s[1..])
  }

  function CityCode(city: Option<string>): string
  {
    var name := if city.None? || city.value == "" then "UNK" else city.value;
    Upper(if |name| < 3 then name else name[..3])
  }

  /** The first three letters in capitals, all of a shorter name, and UNK without one. */
  lemma CityCodeExactly(city: Option<string>, i: nat)
    ensures city.None? || city.value == "" ==> CityCode(city) == "UNK"
    ensures city.Some? && city.value != "" ==> |CityCode(city)| == if |city.value| < 3 then |city.value| else 3
    ensures city.Some? && i < |CityCode(city)| && i < |city.value| ==>
              CityCode(city)[i] == if 'a' <= city.value[i] <= 'z' then 'A' + (city.value[i] - 'a') else city.value[i]
  {
    if city.Some? && city.value != "" {
      UpperAt(if |city.value| < 3 then city.value else city.value[..3], i);
    } else {
      assert "UNK"[..3] == "UNK" && Upper("UNK") == "UNK";
    }
  }

  lemma {:induction false} UpperAt(s: string, i: nat)
    ensures i < |s| ==> Upper(s)[i] == UpperChar(s[i])
  {
    if 0 < i < |s| {
      UpperAt(s[1..], i - 1);
    }
  }

  function GeneratedEri(code: string, no: string): Eri
  {
    "EZEE-" + code + "-" + no
  }

  lemma GeneratedErisDiffer(code: string, no: string, other: string)
    requires no != other
    ensures GeneratedEri(code, no) != GeneratedEri(code, other)
  {
    var prefix := "EZEE-" + code + "-";
    assert GeneratedEri(code, no)[|prefix|..] == no;
    assert GeneratedEri(code, other)[|prefix|..] == other;
  }

  // ---------------------------------------------------------------- creating rows

  datatype Property = Property(id: PropertyId, city: Option<string>)

  ghost predicate NumberCached(bookings: Bookings, no: string)
  {
    exists e :: e in bookings && bookings[e].reservationNo == Some(no)
  }

  /** Neither cancelled nor a no-show. */
  predicate Live(res: Summary)
  {
    MapStatus(res.status) != Some(Cancelled) && MapStatus(res.status) != Some(NoShow)
  }

  ghost predicate IsNew(bookings: Bookings, code: string, res: Summary)
  {
    && !NumberCached(bookings, res.reservationNo)
    && GeneratedEri(code, res.reservationNo) !in bookings
    && Live(res)
  }

  function RowFor(property: PropertyId, res: Summary): BookingRow
  {
    BookingRow(property, None, MapStatus(res.status).GetOr(Confirmed), true, res.guests, [], Some(res.reservationNo),
               res.roomName)
  }

  /** In eZee's words: what is neither cancelled nor a no-show gets a row, active and without a guest. */
  lemma RowExactly(property: PropertyId, res: Summary)
    ensures Live(res) <==> res.status != "Cancelled Reservation" && res.status != "No Show"
    ensures var row := RowFor(property, res);
            && row.property == property && row.guest.None? && row.active && row.guests == res.guests && row.rooms == []
            && row.reservationNo == Some(res.reservationNo) && row.room == res.roomName
            && (Live(res) ==>
                 row.status == if res.status == "Checked In" then CheckedIn
                               else if res.status == "Checked Out" then CheckedOut else Confirmed)
  {
  }

  /** The rows after the first `n` summaries of one property's feed. */
  ghost function Ingested(bookings: Bookings, property: Property, feed: seq<Summary>, n: nat): Bookings
    requires n <= |feed|
  {
    if n == 0 then bookings
    else
      var earlier := Ingested(bookings, property, feed, n - 1);
      var res := feed[n - 1];
      var code := CityCode(property.city);
      if IsNew(bookings, code, res)
      then earlier[GeneratedEri(code, res.reservationNo) := RowFor(property.id, res)]
      else earlier
  }

  /** What the properties' feeds yield; a failed fetch skips its property. */
  type Feeds = PropertyId -> Option<seq<Summary>>

  ghost predicate FeedsDistinct(properties: seq<Property>, feeds: Feeds)
  {
    forall k | 0 <= k < |properties| :: feeds(properties[k].id).Some? ==> DistinctNumbers(feeds(properties[k].id).value)
  }

  /** The rows after the first `n` properties; each property looks up what the ones before it created. */
  ghost function IngestedAll(bookings: Bookings, properties: seq<Property>, feeds: Feeds, n: nat): Bookings
    requires n <= |properties|
  {
    if n == 0 then bookings
    else
      var earlier := IngestedAll(bookings, properties, feeds, n - 1);
      var feed := feeds(properties[n - 1].id);
      if feed.None? then earlier else Ingested(earlier, properties[n - 1], feed.value, |feed.value|)
  }

  /** No create ever meets an existing reservation id, whatever the feed's order. */
  lemma {:induction false} CreatesAreFresh(bookings: Bookings, property: Property, feed: seq<Summary>, n: nat, k: nat)
    requires n <= k < |feed| && DistinctNumbers(feed)
    requires GeneratedEri(CityCode(property.city), feed[k].reservationNo) !in bookings
    ensures GeneratedEri(CityCode(property.city), feed[k].reservationNo) !in Ingested(bookings, property, feed, n)
  {
    if n > 0 {
      CreatesAreFresh(bookings, property, feed, n - 1, k);
      GeneratedErisDiffer(CityCode(property.city), feed[n - 1].reservationNo, feed[k].reservationNo);
    }
  }

  /** One property's feed. Creating a row under an existing key would throw; it never happens. */
  method IngestFeed(db: Database, property: Property, feed: seq<Summary>) returns (ingested: set<Eri>)
    requires DistinctNumbers(feed)
    modifies db`bookings
    ensures db.bookings == Ingested(old(db.bookings), property, feed, |feed|)
    ensures ingested == db.bookings.Keys - old(db.bookings).Keys
  {
    ghost var before := db.bookings;
    var existing := set e | e in db.bookings && db.bookings[e].reservationNo.Some? ::
      db.bookings[e].reservationNo.value;
    var cityCode := CityCode(property.city);
    var existingByEri := db.bookings.Keys;
    ingested := {};
    for i := 0 to |feed|
      invariant db.bookings == Ingested(before, property, feed, i)
      invariant before.Keys <= db.bookings.Keys
      invariant ingested == db.bookings.Keys - before.Keys
    {
      var res := feed[i];
      var eri := GeneratedEri(cityCode, res.reservationNo);
      if res.reservationNo !in existing && eri !in existingByEri {
        var mappedStatus := MapStatus(res.status);
        if mappedStatus != Some(Cancelled) && mappedStatus != Some(NoShow) {
          CreatesAreFresh(before, property, feed, i, i);
          assert eri !in db.bookings;
          db.bookings := db.bookings[eri := BookingRow(
            property.id, None, if mappedStatus.Some? then mappedStatus.value else Confirmed, true, res.guests, [],
            Some(res.reservationNo), res.roomName)];
          ingested := ingested + {eri};
        }
      }
    }
  }

  /** eZee's arrival list for each property, absent when the fetch failed. */
  type ArrivalLists = PropertyId -> Option<seq<Arrival>>

  ghost function FeedOf(arrivals: Option<seq<Arrival>>): Option<seq<Summary>>
  {
    match arrivals
    case None => None
    case Some(a) => Some(Deduplicated(a, |a|))
  }

  ghost function FeedsOf(lists: ArrivalLists): Feeds
  {
    (id: PropertyId) => FeedOf(lists(id))
  }

  lemma FeedsOfAreDistinct(properties: seq<Property>, lists: ArrivalLists)
    ensures FeedsDistinct(properties, FeedsOf(lists))
  {
    forall k | 0 <= k < |properties| && lists(properties[k].id).Some?
      ensures DistinctNumbers(FeedsOf(lists)(properties[k].id).value)
    {
      var arrivals := lists(properties[k].id).value;
      DeduplicatedIsDistinct(arrivals, |arrivals|);
    }
  }

  method IngestExternalBookings(db: Database, properties: seq<Property>, lists: ArrivalLists)
    returns (ingested: set<Eri>)
    modifies db`bookings
    ensures db.bookings == IngestedAll(old(db.bookings), properties, FeedsOf(lists), |properties|)
    ensures ingested == db.bookings.Keys - old(db.bookings).Keys
  {
    ghost var before := db.bookings;
    ingested := {};
    for k := 0 to |properties|
      invariant db.bookings == IngestedAll(before, properties, FeedsOf(lists), k)
      invariant before.Keys <= db.bookings.Keys
      invariant ingested == db.bookings.Keys - before.Keys
    {
      var list := lists(properties[k].id);
      if list.Some? {
        var feed := FetchReservationsByDateRange(list.value);
        DeduplicatedIsDistinct(list.value, |list.value|);
        IngestedKeeps(db.bookings, properties[k], feed, |feed|);
        var created := IngestFeed(db, properties[k], feed);
        ingested := ingested + created;
      }
    }
  }

  // ---------------------------------------------------------------- what a pass achieves

  /** Different bookings have different reservation numbers. */
  ghost predicate NumbersDistinct(bookings: Bookings)
  {
    forall e, f | e in bookings && f in bookings && e != f ::
      bookings[e].reservationNo.Some? ==> bookings[e].reservationNo != bookings[f].reservationNo
  }

  ghost predicate Cached(bookings: Bookings, code: string, res: Summary)
  {
    NumberCached(bookings, res.reservationNo) || GeneratedEri(code, res.reservationNo) in bookings
  }

  /** Rows are only added. */
  ghost predicate Grows(before: Bookings, after: Bookings)
  {
    forall e | e in before :: e in after && after[e] == before[e]
  }

  lemma {:induction false} IngestedKeeps(bookings: Bookings, property: Property, feed: seq<Summary>, n: nat)
    requires n <= |feed|
    ensures Grows(bookings, Ingested(bookings, property, feed, n))
  {
    if n > 0 {
      IngestedKeeps(bookings, property, feed, n - 1);
    }
  }

  /** Rows that a feed added carry numbers of that feed that were not cached before. */
  lemma {:induction false} AddedComeFromFeed(
    bookings: Bookings, property: Property, feed: seq<Summary>, n: nat, e: Eri)
    requires n <= |feed| && e in Ingested(bookings, property, feed, n) && e !in bookings
    ensures exists i | 0 <= i < n ::
              Ingested(bookings, property, feed, n)[e].reservationNo == Some(feed[i].reservationNo)
    ensures forall no :: Ingested(bookings, property, feed, n)[e].reservationNo == Some(no) ==>
              !NumberCached(bookings, no)
  {
    hide GeneratedEri, CityCode;
    var code := CityCode(property.city);
    if IsNew(bookings, code, feed[n - 1]) && e == GeneratedEri(code, feed[n - 1].reservationNo) {
    } else {
      AddedComeFromFeed(bookings, property, feed, n - 1, e);
    }
  }

  /** Every new arrival of the feed gets its own row. */
  lemma {:induction false} NewArrivalsGetRows(
    bookings: Bookings, property: Property, feed: seq<Summary>, n: nat, i: nat)
    requires i < n <= |feed| && DistinctNumbers(feed) && IsNew(bookings, CityCode(property.city), feed[i])
    ensures var eri := GeneratedEri(CityCode(property.city), feed[i].reservationNo);
            && eri in Ingested(bookings, property, feed, n)
            && Ingested(bookings, property, feed, n)[eri] == RowFor(property.id, feed[i])
  {
    hide IsNew, RowFor, GeneratedEri, CityCode;
    if i < n - 1 {
      NewArrivalsGetRows(bookings, property, feed, n - 1, i);
      GeneratedErisDiffer(CityCode(property.city), feed[i].reservationNo, feed[n - 1].reservationNo);
    }
  }

  lemma {:induction false} FeedKeepsNumbersDistinct(
    bookings: Bookings, property: Property, feed: seq<Summary>, n: nat)
    requires n <= |feed| && DistinctNumbers(feed) && NumbersDistinct(bookings)
    ensures NumbersDistinct(Ingested(bookings, property, feed, n))
  {
    hide GeneratedEri, CityCode, Live;
    var code := CityCode(property.city);
    if n > 0 {
      FeedKeepsNumbersDistinct(bookings, property, feed, n - 1);
      if IsNew(bookings, code, feed[n - 1]) {
        var earlier := Ingested(bookings, property, feed, n - 1);
        forall e | e in earlier
          ensures earlier[e].reservationNo != Some(feed[n - 1].reservationNo)
        {
          IngestedKeeps(bookings, property, feed, n - 1);
          if e !in bookings {
            AddedComeFromFeed(bookings, property, feed, n - 1, e);
          }
        }
      }
    }
  }

  lemma FeedGrows(bookings: Bookings, property: Property, feed: seq<Summary>, n: nat)
    requires 0 < n <= |feed| && DistinctNumbers(feed)
    ensures Grows(Ingested(bookings, property, feed, n - 1), Ingested(bookings, property, feed, n))
  {
    hide GeneratedEri, CityCode, Live;
    var code := CityCode(property.city);
    if IsNew(bookings, code, feed[n - 1]) {
      CreatesAreFresh(bookings, property, feed, n - 1, n - 1);
    }
  }

  lemma StaysCached(before: Bookings, after: Bookings, code: string, res: Summary)
    requires Cached(before, code, res) && Grows(before, after)
    ensures Cached(after, code, res)
  {
    if NumberCached(before, res.reservationNo) {
      var e :| e in before && before[e].reservationNo == Some(res.reservationNo);
      assert e in after && after[e].reservationNo == Some(res.reservationNo);
    }
  }

  /** Every live arrival of the feed is cached, by its number or under its generated id. */
  lemma {:induction false} FeedIsCached(bookings: Bookings, property: Property, feed: seq<Summary>, n: nat, i: nat)
    requires i < n <= |feed| && DistinctNumbers(feed) && Live(feed[i])
    ensures Cached(Ingested(bookings, property, feed, n), CityCode(property.city), feed[i])
  {
    hide GeneratedEri, CityCode, Live;
    var code, after := CityCode(property.city), Ingested(bookings, property, feed, n);
    if i < n - 1 {
      FeedIsCached(bookings, property, feed, n - 1, i);
      FeedGrows(bookings, property, feed, n);
      StaysCached(Ingested(bookings, property, feed, n - 1), after, code, feed[i]);
    } else if !IsNew(bookings, code, feed[i]) {
      IngestedKeeps(bookings, property, feed, n);
      StaysCached(bookings, after, code, feed[i]);
    }
  }

  lemma {:induction false} NothingNew(bookings: Bookings, property: Property, feed: seq<Summary>, n: nat)
    requires n <= |feed|
    requires forall i | 0 <= i < |feed| && Live(feed[i]) :: Cached(bookings, CityCode(property.city), feed[i])
    ensures Ingested(bookings, property, feed, n) == bookings
  {
    hide GeneratedEri, CityCode, Live;
    if n > 0 {
      NothingNew(bookings, property, feed, n - 1);
    }
  }

  lemma {:induction false} PassGrows(bookings: Bookings, properties: seq<Property>, feeds: Feeds, m: nat, n: nat)
    requires m <= n <= |properties|
    ensures Grows(IngestedAll(bookings, properties, feeds, m), IngestedAll(bookings, properties, feeds, n))
  {
    if m < n {
      PassGrows(bookings, properties, feeds, m, n - 1);
      var feed := feeds(properties[n - 1].id);
      if feed.Some? {
        IngestedKeeps(IngestedAll(bookings, properties, feeds, n - 1), properties[n - 1], feed.value, |feed.value|);
      }
    }
  }

  /** A pass keeps reservation numbers distinct, within and across properties. */
  lemma {:induction false} PassKeepsNumbersDistinct(
    bookings: Bookings, properties: seq<Property>, feeds: Feeds, n: nat)
    requires n <= |properties| && FeedsDistinct(properties, feeds) && NumbersDistinct(bookings)
    ensures NumbersDistinct(IngestedAll(bookings, properties, feeds, n))
  {
    hide NumbersDistinct, DistinctNumbers, Ingested;
    if n > 0 {
      PassKeepsNumbersDistinct(bookings, properties, feeds, n - 1);
      var feed := feeds(properties[n - 1].id);
      if feed.Some? {
        FeedKeepsNumbersDistinct(
          IngestedAll(bookings, properties, feeds, n - 1), properties[n - 1], feed.value, |feed.value|);
      }
    }
  }

  /** After a pass every live arrival of every fetched feed is cached. */
  lemma PassCachesArrivals(bookings: Bookings, properties: seq<Property>, feeds: Feeds, k: nat, i: nat)
    requires FeedsDistinct(properties, feeds) && k < |properties|
    requires feeds(properties[k].id).Some? && i < |feeds(properties[k].id).value|
    requires Live(feeds(properties[k].id).value[i])
    ensures Cached(IngestedAll(bookings, properties, feeds, |properties|), CityCode(properties[k].city),
                   feeds(properties[k].id).value[i])
  {
    hide Cached, DistinctNumbers, Ingested, Grows, CityCode, Live;
    var feed := feeds(properties[k].id).value;
    FeedIsCached(IngestedAll(bookings, properties, feeds, k), properties[k], feed, |feed|, i);
    PassGrows(bookings, properties, feeds, k + 1, |properties|);
    StaysCached(IngestedAll(bookings, properties, feeds, k + 1),
                IngestedAll(bookings, properties, feeds, |properties|), CityCode(properties[k].city), feed[i]);
  }

  lemma {:induction false} SecondPassPrefix(
    bookings: Bookings, properties: seq<Property>, feeds: Feeds, n: nat)
    requires FeedsDistinct(properties, feeds) && n <= |properties|
    ensures var after := IngestedAll(bookings, properties, feeds, |properties|);
            IngestedAll(after, properties, feeds, n) == after
  {
    hide Cached, DistinctNumbers, Ingested, CityCode, Live;
    var after := IngestedAll(bookings, properties, feeds, |properties|);
    if n > 0 {
      SecondPassPrefix(bookings, properties, feeds, n - 1);
      var property := properties[n - 1];
      var feed := feeds(property.id);
      if feed.Some? {
        forall i | 0 <= i < |feed.value| && Live(feed.value[i])
          ensures Cached(after, CityCode(property.city), feed.value[i])
        {
          PassCachesArrivals(bookings, properties, feeds, n - 1, i);
        }
        NothingNew(after, property, feed.value, |feed.value|);
      }
    }
  }

  /** A second pass over the same feeds creates nothing. */
  lemma SecondPassCreatesNothing(bookings: Bookings, properties: seq<Property>, feeds: Feeds)
    requires FeedsDistinct(properties, feeds)
    ensures var after := IngestedAll(bookings, properties, feeds, |properties|);
            IngestedAll(after, properties, feeds, |properties|) == after
  {
    hide IngestedAll;
    SecondPassPrefix(bookings, properties, feeds, |properties|);
  }

  /**
   * A pass over the properties' arrival lists keeps reservation numbers distinct and existing rows as
   * they are, caches every live arrival, and repeated over the same lists creates nothing.
   */
  lemma PassIsComplete(bookings: Bookings, properties: seq<Property>, lists: ArrivalLists)
    ensures var after := IngestedAll(bookings, properties, FeedsOf(lists), |properties|);
            && Grows(bookings, after)
            && (NumbersDistinct(bookings) ==> NumbersDistinct(after))
            && (forall k, i | 0 <= k < |properties| && FeedsOf(lists)(properties[k].id).Some?
                              && 0 <= i < |FeedsOf(lists)(properties[k].id).value|
                              && Live(FeedsOf(lists)(properties[k].id).value[i]) ::
                 Cached(after, CityCode(properties[k].city), FeedsOf(lists)(properties[k].id).value[i]))
            && IngestedAll(after, properties, FeedsOf(lists), |properties|) == after
  {
    hide NumbersDistinct, Cached, Ingested, CityCode, Live, FeedsOf, Grows;
    var feeds := FeedsOf(lists);
    FeedsOfAreDistinct(properties, lists);
    PassGrows(bookings, properties, feeds, 0, |properties|);
    SecondPassCreatesNothing(bookings, properties, feeds);
    if NumbersDistinct(bookings) {
      PassKeepsNumbersDistinct(bookings, properties, feeds, |properties|);
    }
    forall k, i | 0 <= k < |properties| && feeds(properties[k].id).Some?
                  && 0 <= i < |feeds(properties[k].id).value| && Live(feeds(properties[k].id).value[i])
      ensures Cached(IngestedAll(bookings, properties, feeds, |properties|), CityCode(properties[k].city),
                     feeds(properties[k].id).value[i])
    {
      PassCachesArrivals(bookings, properties, feeds, k, i);
    }
  }
}
