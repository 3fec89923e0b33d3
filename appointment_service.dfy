// The appointment list of src/services/appointmentService.ts: the query `list` sends
// and the date and search filters it applies in memory to the answer, and `listOpen`.
// The answer of the query is a parameter; getById, create, update and delete are
// database calls only and are left out.
module AppointmentService {
  import opened Wrappers
  import opened Text
  import Seqs
  import opened DateTime

  datatype Customer = Customer(name: string, phone: string)
  datatype Vehicle = Vehicle(brand: string, model: string, licensePlate: string)

  /** AppointmentWithDetails; the joined customer and vehicle may be missing. */
  datatype Appointment = Appointment(
    id: string, status: string, scheduledAt: Time, customer: Option<Customer>,
    vehicle: Option<Vehicle>)

  /** AppointmentListOptions; every option may be absent. */
  datatype ListOptions = ListOptions(
    status: Option<string>, dateFilter: Option<string>, searchTerm: Option<string>,
    limit: Option<nat>)

  /** The part of the query that depends on the options. */
  datatype Query = Query(companyId: string, status: Option<string>, limit: Option<nat>)

  /** A present, non-empty option (JavaScript truthiness of a string). */
  predicate Given(o: Option<string>) { o.Some? && o.value != "" }

  /** The query: the company's appointments, of one status unless it is absent or 'all',
    * at most `limit` of them when a non-zero limit is given. */
  function BuildQuery(companyId: string, o: ListOptions): (q: Query)
    ensures q.companyId == companyId
    ensures q.status.Some? <==> Given(o.status) && o.status.value != "all"
    ensures q.status.Some? ==> q.status == o.status
    ensures q.limit.Some? <==> o.limit.Some? && o.limit.value != 0
    ensures q.limit.Some? ==> q.limit == o.limit
  {
    Query(companyId,
          if Given(o.status) && o.status.value != "all" then o.status else None,
          if o.limit.Some? && o.limit.value != 0 then o.limit else None)
  }

  /** The day-truncated date test shared by the service and the page: 'today' is the same
    * day, 'upcoming' today or later, 'past' before today; any other value keeps all. */
  predicate MatchesDate(dateFilter: string, a: Appointment, now: Time)
  {
    var day := StartOfDay(a.scheduledAt);
    var today := StartOfDay(now);
    if dateFilter == "today" then day == today
    else if dateFilter == "upcoming" then day >= today
    else if dateFilter == "past" then day < today
    else true
  }

  /** `a.customer?.name.toLowerCase().includes(term) ||
    * a.vehicle?.license_plate.toLowerCase().includes(term)`: a missing customer or
    * vehicle never matches. */
  predicate MatchesSearch(a: Appointment, term: string)
  {
    || (a.customer.Some? && Contains(Lower(a.customer.value.name), term))
    || (a.vehicle.Some? && Contains(Lower(a.vehicle.value.licensePlate), term))
  }

  function ByDate(dateFilter: string, now: Time): Appointment -> bool
  {
    (a: Appointment) => MatchesDate(dateFilter, a, now)
  }

  function BySearch(term: string): Appointment -> bool
  {
    (a: Appointment) => MatchesSearch(a, term)
  }

  function DateStep(result: seq<Appointment>, dateFilter: Option<string>, now: Time)
    : seq<Appointment>
  {
    if Given(dateFilter) && dateFilter.value != "all" then
      Seqs.Filter(result, ByDate(dateFilter.value, now))
    else result
  }

  function SearchStep(result: seq<Appointment>, searchTerm: Option<string>): seq<Appointment>
  {
    if Given(searchTerm) then Seqs.Filter(result, BySearch(Lower(searchTerm.value)))
    else result
  }

  /** The in-memory filtering of the fetched rows: by date, then by search. */
  function InMemory(rows: seq<Appointment>, o: ListOptions, now: Time): seq<Appointment>
  {
    SearchStep(DateStep(rows, o.dateFilter, now), o.searchTerm)
  }

  /** Whether one fetched appointment is returned. */
  predicate Returned(o: ListOptions, now: Time, a: Appointment)
  {
    && (Given(o.dateFilter) && o.dateFilter.value != "all" ==> MatchesDate(o.dateFilter.value, a, now))
    && (Given(o.searchTerm) ==> MatchesSearch(a, Lower(o.searchTerm.value)))
  }

  /** The two filters are one filter by Returned. */
  lemma InMemoryIsOneFilter(rows: seq<Appointment>, o: ListOptions, now: Time)
    ensures InMemory(rows, o, now) == Seqs.Filter(rows, (a: Appointment) => Returned(o, now, a))
  {
    var pd := (a: Appointment) =>
      Given(o.dateFilter) && o.dateFilter.value != "all" ==> MatchesDate(o.dateFilter.value, a, now);
    var ps := (a: Appointment) => Given(o.searchTerm) ==> MatchesSearch(a, Lower(o.searchTerm.value));
    if Given(o.dateFilter) && o.dateFilter.value != "all" {
      Seqs.FilterExt(rows, ByDate(o.dateFilter.value, now), pd);
    } else {
      Seqs.FilterAll(rows, pd);
    }
    var dated := DateStep(rows, o.dateFilter, now);
    if Given(o.searchTerm) {
      Seqs.FilterExt(dated, BySearch(Lower(o.searchTerm.value)), ps);
    } else {
      Seqs.FilterAll(dated, ps);
    }
    Seqs.FilterFilter(rows, pd, ps, (a: Appointment) => Returned(o, now, a));
  }

  /** The in-memory filters only remove appointments and keep the fetched order. */
  lemma InMemoryIsSubsequence(rows: seq<Appointment>, o: ListOptions, now: Time)
    ensures Seqs.IsSubseq(InMemory(rows, o, now), rows)
  {
    InMemoryIsOneFilter(rows, o, now);
    Seqs.FilterIsSubseq(rows, (a: Appointment) => Returned(o, now, a));
  }

  /** A fetched appointment is returned exactly when it passes the date filter that is on
    * and matches the search term that is given, by customer name or plate, ignoring case. */
  lemma InMemoryMembers(rows: seq<Appointment>, o: ListOptions, now: Time, a: Appointment)
    ensures a in InMemory(rows, o, now) <==> a in rows && Returned(o, now, a)
  {
    InMemoryIsOneFilter(rows, o, now);
    Seqs.FilterMem(rows, (a: Appointment) => Returned(o, now, a), a);
  }

  /** An absent, empty or 'all' date filter leaves the fetched rows as they are. */
  lemma NoDateFilterKeepsRows(rows: seq<Appointment>, o: ListOptions, now: Time)
    requires o.dateFilter.None? || o.dateFilter == Some("") || o.dateFilter == Some("all")
    ensures DateStep(rows, o.dateFilter, now) == rows
    ensures !Given(o.searchTerm) ==> InMemory(rows, o, now) == rows
  {
  }

  /** Every appointment is either upcoming or past, never both, and today's are
    * upcoming: the two filters split the list. */
  lemma UpcomingPastPartition(rows: seq<Appointment>, now: Time)
    ensures forall a :: MatchesDate("upcoming", a, now) <==> !MatchesDate("past", a, now)
    ensures forall a :: MatchesDate("today", a, now) ==> MatchesDate("upcoming", a, now)
    ensures |Seqs.Filter(rows, ByDate("upcoming", now))| + |Seqs.Filter(rows, ByDate("past", now))|
            == |rows|
  {
    Seqs.FilterPartition(rows, ByDate("upcoming", now), ByDate("past", now));
  }

  /** list: builds the query, and on its answer applies the in-memory filters. */
  method List(companyId: string, o: ListOptions, answer: Result<seq<Appointment>>, now: Time)
    returns (query: Query, r: Result<seq<Appointment>>)
    ensures query == BuildQuery(companyId, o)
    ensures r.Err? <==> answer.Err?
    ensures answer.Err? ==> r.error == answer.error
    ensures r.Ok? ==> r.value == InMemory(answer.value, o, now)
  {
    query := BuildQuery(companyId, o);
    if answer.Err? {
      return query, Err(answer.error);
    }
    var result := answer.value;
    if Given(o.dateFilter) && o.dateFilter.value != "all" {
      result := Seqs.Filter(result, ByDate(o.dateFilter.value, now));
    }
    if Given(o.searchTerm) {
      var term := Lower(o.searchTerm.value);
      result := Seqs.Filter(result, BySearch(term));
    }
    r := Ok(result);
  }

  /** listOpen: the 'scheduled' appointments, with no in-memory filtering. */
  method ListOpen(companyId: string, answer: Result<seq<Appointment>>, now: Time)
    returns (query: Query, r: Result<seq<Appointment>>)
    ensures query == Query(companyId, Some("scheduled"), None)
    ensures r == answer
  {
    query, r := List(companyId, ListOptions(Some("scheduled"), None, None, None), answer, now);
  }
}
