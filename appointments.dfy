// The appointments page (src/pages/operations/Appointments.tsx): the filter applied to
// the list the service returns, the status badge, the statistics cards and the
// cancellation reason written on cancel. Loading, deleting, the WhatsApp modals and the
// markup are I/O or rendering.
module Appointments {
  import opened Wrappers
  import opened Text
  import Seqs
  import opened DateTime
  import opened AppointmentService

  /** The search box, the status select and the date select. */
  datatype PageFilter = PageFilter(searchTerm: string, statusFilter: string, dateFilter: string)

  /** Whether one appointment is shown: it matches the lower-cased term by customer name
    * or plate, has the selected status unless 'all', and passes the date filter. */
  predicate Shown(f: PageFilter, now: Time, a: Appointment)
  {
    && MatchesSearch(a, Lower(f.searchTerm))
    && (f.statusFilter == "all" || a.status == f.statusFilter)
    && MatchesDate(f.dateFilter, a, now)
  }

  function ByPage(f: PageFilter, now: Time): Appointment -> bool
  {
    (a: Appointment) => Shown(f, now, a)
  }

  /** filteredAppointments */
  function Filtered(appointments: seq<Appointment>, f: PageFilter, now: Time): (r: seq<Appointment>)
    ensures |r| <= |appointments|
    ensures forall a :: a in r <==> a in appointments && Shown(f, now, a)
  {
    var r := Seqs.Filter(appointments, ByPage(f, now));
    forall a ensures a in r <==> a in appointments && Shown(f, now, a) {
      Seqs.FilterMem(appointments, ByPage(f, now), a);
    }
    r
  }

  /** The options loadAppointments passes to the service: the three page filters. */
  function Options(f: PageFilter): ListOptions
  {
    ListOptions(Some(f.statusFilter), Some(f.dateFilter), Some(f.searchTerm), None)
  }

  /** The service has already applied the date and search filters (and the status, in the
    * query); filtering its result again on the page gives what the page filter alone gives
    * on the fetched rows. */
  lemma RefilterAgrees(rows: seq<Appointment>, f: PageFilter, now: Time)
    ensures Filtered(InMemory(rows, Options(f), now), f, now) == Filtered(rows, f, now)
  {
    var o := Options(f);
    var returned := (a: Appointment) => Returned(o, now, a);
    InMemoryIsOneFilter(rows, o, now);
    forall a ensures ByPage(f, now)(a) == (returned(a) && ByPage(f, now)(a)) {
      if Shown(f, now, a) {
        assert Lower(o.searchTerm.value) == Lower(f.searchTerm);
      }
    }
    Seqs.FilterFilter(rows, returned, ByPage(f, now), ByPage(f, now));
  }

  /** The page filter keeps the order of the list. */
  lemma FilteredIsSubsequence(appointments: seq<Appointment>, f: PageFilter, now: Time)
    ensures Seqs.IsSubseq(Filtered(appointments, f, now), appointments)
  {
    Seqs.FilterIsSubseq(appointments, ByPage(f, now));
  }

  /** An appointment with neither a customer nor a vehicle is never shown, whatever the
    * term, even the empty one. */
  lemma NoCustomerNoVehicleHidden(f: PageFilter, now: Time, a: Appointment)
    requires a.customer.None? && a.vehicle.None?
    ensures !Shown(f, now, a)
  {
  }

  /** With an empty term every appointment that has a customer or a vehicle matches. */
  lemma EmptyTermMatchesJoined(a: Appointment)
    requires a.customer.Some? || a.vehicle.Some?
    ensures MatchesSearch(a, Lower(""))
  {
    assert Lower("") == "";
    if a.customer.Some? {
      ContainsEmpty(Lower(a.customer.value.name));
    } else {
      ContainsEmpty(Lower(a.vehicle.value.licensePlate));
    }
  }

  /** 'upcoming' and 'past' split the shown appointments of the other two filters. */
  lemma UpcomingPastSplit(appointments: seq<Appointment>, searchTerm: string,
                          statusFilter: string, now: Time)
    ensures |Filtered(appointments, PageFilter(searchTerm, statusFilter, "upcoming"), now)|
          + |Filtered(appointments, PageFilter(searchTerm, statusFilter, "past"), now)|
         == |Filtered(appointments, PageFilter(searchTerm, statusFilter, "all"), now)|
  {
    var all := PageFilter(searchTerm, statusFilter, "all");
    var up := PageFilter(searchTerm, statusFilter, "upcoming");
    var past := PageFilter(searchTerm, statusFilter, "past");
    UpcomingPastPartition(Filtered(appointments, all, now), now);
    Seqs.FilterFilter(appointments, ByPage(all, now), ByDate("upcoming", now), ByPage(up, now));
    Seqs.FilterFilter(appointments, ByPage(all, now), ByDate("past", now), ByPage(past, now));
  }

  datatype Badge = Badge(caption: string, className: string)

  /** The badges record of getStatusBadge. */
  function KnownBadge(status: string): Option<Badge>
  {
    if status == "pending" then Some(Badge("Pendente", "badge-yellow"))
    else if status == "confirmed" then Some(Badge("Confirmado", "badge-green"))
    else if status == "in_progress" then Some(Badge("Em Andamento", "badge-purple"))
    else if status == "completed" then Some(Badge("Concluído", "badge-primary"))
    else if status == "cancelled" then Some(Badge("Cancelado", "badge-red"))
    else None
  }

  /** `badges[status] || badges.confirmed` */
  function StatusBadge(status: string): (b: Badge)
    ensures KnownBadge(status).Some? ==> b == KnownBadge(status).value
    ensures KnownBadge(status).None? ==> b == KnownBadge("confirmed").value
  {
    match KnownBadge(status)
    case Some(b) => b
    case None => Badge("Confirmado", "badge-green")
  }

  /** Exactly the five statuses have a badge of their own; every other status shows the
    * 'confirmed' badge, and the five badges are distinct. */
  lemma BadgeFallback(status: string)
    ensures KnownBadge(status).Some? <==>
      status in {"pending", "confirmed", "in_progress", "completed", "cancelled"}
    ensures status !in {"pending", "confirmed", "in_progress", "completed", "cancelled"} ==>
      StatusBadge(status) == StatusBadge("confirmed")
    ensures status != "confirmed" && KnownBadge(status).Some? ==>
      StatusBadge(status) != StatusBadge("confirmed")
  {
  }

  /** The statuses an appointment can have (AppointmentStatus in src/types/database.ts);
    * new appointments start as 'scheduled'. */
  predicate IsAppointmentStatus(status: string)
  {
    status in {"scheduled", "confirmed", "in_progress", "completed", "cancelled"}
  }

  /** As written, the record has no 'scheduled' entry: an appointment that is only
    * scheduled shows the 'Confirmado' badge. */
  lemma ScheduledShowsConfirmed()
    ensures IsAppointmentStatus("scheduled")
    ensures StatusBadge("scheduled") == StatusBadge("confirmed")
    ensures StatusBadge("scheduled").caption == "Confirmado"
  {
  }

  /** The record with its 'pending' entry applied to 'scheduled', the status the
    * application actually gives to an appointment that is not yet confirmed. */
  function CorrectedStatusBadge(status: string): (b: Badge)
    ensures status != "scheduled" ==> b == StatusBadge(status)
    ensures status == "scheduled" ==> b == StatusBadge("pending")
  {
    if status == "scheduled" then StatusBadge("pending") else StatusBadge(status)
  }

  /** With the correction every appointment status has a badge of its own. */
  lemma CorrectedBadgesDistinct(s: string, t: string)
    requires IsAppointmentStatus(s) && IsAppointmentStatus(t) && s != t
    ensures CorrectedStatusBadge(s) != CorrectedStatusBadge(t)
  {
  }

  /** The statistics cards. */
  datatype Stats = Stats(total: nat, pending: nat, confirmed: nat, cancelled: nat, today: nat)

  function WithStatus(status: string): Appointment -> bool
  {
    (a: Appointment) => a.status == status
  }

  /** `date.toDateString() === today.toDateString()`: the same calendar day. */
  function SameDay(now: Time): Appointment -> bool
  {
    (a: Appointment) => Day(a.scheduledAt) == Day(now)
  }

  /** The cards count over the shown appointments. */
  function StatsOf(shown: seq<Appointment>, now: Time): (s: Stats)
    ensures s.total == |shown|
    ensures s.pending <= s.total && s.confirmed <= s.total && s.cancelled <= s.total
    ensures s.today <= s.total
  {
    Stats(|shown|, |Seqs.Filter(shown, WithStatus("pending"))|,
          |Seqs.Filter(shown, WithStatus("confirmed"))|,
          |Seqs.Filter(shown, WithStatus("cancelled"))|,
          |Seqs.Filter(shown, SameDay(now))|)
  }

  /** An appointment has one status, so the three status cards never add up to more than
    * the total. */
  lemma {:induction false} StatusCountsWithinTotal(shown: seq<Appointment>, now: Time)
    ensures StatsOf(shown, now).pending + StatsOf(shown, now).confirmed
          + StatsOf(shown, now).cancelled <= StatsOf(shown, now).total
  {
    if shown != [] {
      StatusCountsWithinTotal(shown[1..], now);
    }
  }

  /** The 'today' card counts what the 'today' date filter keeps: the day-truncated
    * comparison and the calendar-day comparison agree. */
  lemma TodayCardMatchesTodayFilter(shown: seq<Appointment>, now: Time)
    ensures StatsOf(shown, now).today == |Seqs.Filter(shown, ByDate("today", now))|
  {
    forall i | 0 <= i < |shown|
      ensures SameDay(now)(shown[i]) == ByDate("today", now)(shown[i])
    {
      SameStartSameDay(shown[i].scheduledAt, now);
    }
    Seqs.FilterExt(shown, SameDay(now), ByDate("today", now));
  }

  lemma SameStartSameDay(t: Time, u: Time)
    ensures StartOfDay(t) == StartOfDay(u) <==> Day(t) == Day(u)
  {
    assert StartOfDay(t) == Day(t) * 86400000;
    assert StartOfDay(u) == Day(u) * 86400000;
  }

  /** The cancellation_reason handleCancelConfirm writes: the typed reason when
    * 'Outro (especificar)' was chosen, the chosen reason otherwise. */
  function CancellationReason(reason: string, customReason: Option<string>): (r: Option<string>)
    ensures reason == "Outro (especificar)" ==> r == customReason
    ensures reason != "Outro (especificar)" ==> r == Some(reason)
  {
    if reason == "Outro (especificar)" then customReason else Some(reason)
  }
}
