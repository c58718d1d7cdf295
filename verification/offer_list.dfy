/** The offer list: each offer's status badge and the list's search and
    status filter. Dates are instants on one time line, in milliseconds:
    an offer's start and end dates are date-only values, which stand for
    midnight UTC of their day, while `now` is the moment the list is
    computed, time of day included. */
module OfferList {
  import opened Wrappers
  import opened Text
  import opened Lists

  datatype Offer = Offer(title: string, description: Option<string>, startDate: int, endDate: int)

  datatype Status = Upcoming | Expired | Active

  /** `getStatus`: the badge shown beside an offer. */
  function GetStatus(now: int, start: int, end: int): (r: Status)
    ensures r == Upcoming <==> now < start
    ensures r == Expired <==> start <= now && end < now
    ensures r == Active <==> start <= now <= end
  {
    if now < start then Upcoming
    else if now > end then Expired
    else Active
  }

  /** `matchesSearch`: the title, or the description when there is one,
      contains the search text, ignoring case. */
  predicate MatchesSearch(term: string, o: Offer) {
    Contains(Lower(o.title), Lower(term))
    || (o.description.Some? && Contains(Lower(o.description.value), Lower(term)))
  }

  /** The status filter's own date test, for the three values it knows. */
  predicate PassesStatus(statusFilter: string, now: int, o: Offer) {
    if statusFilter == "all" then true
    else if statusFilter == "active" then now >= o.startDate && now <= o.endDate
    else if statusFilter == "upcoming" then now < o.startDate
    else if statusFilter == "expired" then now > o.endDate
    else true
  }

  predicate Keep(term: string, statusFilter: string, now: int, o: Offer) {
    MatchesSearch(term, o) && PassesStatus(statusFilter, now, o)
  }

  /** `filteredOffers` */
  function FilteredOffers(offers: seq<Offer>, term: string, statusFilter: string, now: int): seq<Offer> {
    Filter(offers, (o: Offer) => Keep(term, statusFilter, now, o))
  }

  /** The list shows exactly the offers that match the search and pass the
      status filter. */
  lemma FilteredOffersExactly(offers: seq<Offer>, term: string, statusFilter: string, now: int, o: Offer)
    ensures o in FilteredOffers(offers, term, statusFilter, now)
        <==> o in offers && MatchesSearch(term, o) && PassesStatus(statusFilter, now, o)
  {
    FilterMembership(offers, (o: Offer) => Keep(term, statusFilter, now, o), o);
  }

  /** "all", or a filter value the list does not know, keeps every
      search-matching offer whatever its dates. */
  lemma UnknownFilterKeepsMatches(offers: seq<Offer>, term: string, statusFilter: string, now: int)
    requires statusFilter !in {"active", "upcoming", "expired"}
    ensures FilteredOffers(offers, term, statusFilter, now) == FilteredOffers(offers, term, "all", now)
  {
    FilterCongruent(offers, (o: Offer) => Keep(term, statusFilter, now, o),
                            (o: Offer) => Keep(term, "all", now, o));
  }

  /** With an empty search and "all", every offer is listed. */
  lemma AllAndEmptySearchListsEverything(offers: seq<Offer>, now: int)
    ensures FilteredOffers(offers, "", "all", now) == offers
  {
    forall i | 0 <= i < |offers| ensures Keep("", "all", now, offers[i]) {
      ContainsEmpty(Lower(offers[i].title));
    }
    FilterKeepsAll(offers, (o: Offer) => Keep("", "all", now, o));
  }

  /** For an offer whose start is not after its end, each status filter keeps
      exactly the offers whose badge carries that status. */
  lemma StatusFilterMatchesBadge(now: int, o: Offer)
    requires o.startDate <= o.endDate
    ensures PassesStatus("active", now, o) <==> GetStatus(now, o.startDate, o.endDate) == Active
    ensures PassesStatus("upcoming", now, o) <==> GetStatus(now, o.startDate, o.endDate) == Upcoming
    ensures PassesStatus("expired", now, o) <==> GetStatus(now, o.startDate, o.endDate) == Expired
  {
  }

  /** The "expired" filter tests only the end date, so an offer whose end
      precedes its start is listed as expired while its badge reads
      "Upcoming". The offer form rejects such dates, so only offers stored
      by other means show this. */
  lemma ExpiredFilterIgnoresStart()
    ensures var o := Offer("Eid", None, 10, 5);
      PassesStatus("expired", 7, o) && GetStatus(7, o.startDate, o.endDate) == Upcoming
  {
  }

  /** One day, in milliseconds. */
  const DAY_MS := 86_400_000

  /** Because an end date stands for the midnight that begins its day, an
      offer is already Expired, and passes the "expired" filter, during
      nearly all of its last day: here one hour into it. */
  lemma EndDayShowsExpired(day: int)
    ensures var o := Offer("Diwali", None, (day - 3) * DAY_MS, day * DAY_MS);
      var now := day * DAY_MS + 3_600_000;
      GetStatus(now, o.startDate, o.endDate) == Expired
      && PassesStatus("expired", now, o) && !PassesStatus("active", now, o)
  {
  }
}
