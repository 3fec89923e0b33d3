// The shop status widget (src/components/dashboard/ShopStatusWidget.tsx): the count of
// today's appointments that are not cancelled, and the quiet / moderate / busy reading of
// it. The count is a database query: the rows it counts are described by a function and
// its answer is a parameter.
module ShopStatus {
  import opened Wrappers
  import Seqs
  import opened DateTime

  datatype Status = Quiet | Moderate | Busy

  /** The thresholds of loadTodayAppointments. */
  function Classify(count: int): (s: Status)
    ensures s == Quiet <==> count <= 2
    ensures s == Moderate <==> 3 <= count <= 5
    ensures s == Busy <==> count > 5
  {
    if count <= 2 then Quiet else if count <= 5 then Moderate else Busy
  }

  /** More appointments never make the day quieter. */
  lemma ClassifyMonotone(a: int, b: int)
    requires a <= b
    ensures Classify(a) == Busy ==> Classify(b) == Busy
    ensures Classify(b) == Quiet ==> Classify(a) == Quiet
  {
  }

  /** The fields of an appointment the query filters on. */
  datatype AppointmentRow = AppointmentRow(scheduledAt: Time, status: string)

  /** The query's filter: scheduled between the start and the end of today, inclusive,
    * and not cancelled. */
  function CountedBy(now: Time): AppointmentRow -> bool
  {
    (a: AppointmentRow) =>
      StartOfDay(now) <= a.scheduledAt <= EndOfDay(now) && a.status != "cancelled"
  }

  /** The rows the query counts. */
  function Counted(rows: seq<AppointmentRow>, now: Time): seq<AppointmentRow>
  {
    Seqs.Filter(rows, CountedBy(now))
  }

  /** The time range of the query is exactly today's calendar day, so the count is that
    * of today's appointments that are not cancelled. */
  lemma CountsTodaysOpenAppointments(rows: seq<AppointmentRow>, now: Time, a: AppointmentRow)
    ensures a in Counted(rows, now) <==>
      a in rows && Day(a.scheduledAt) == Day(now) && a.status != "cancelled"
  {
    Seqs.FilterMem(rows, CountedBy(now), a);
    if Day(a.scheduledAt) == Day(now) {
      DayBounds(now, a.scheduledAt);
    }
  }

  class Widget {
    var status: Status
    var count: int
    var loading: bool

    constructor ()
      ensures status == Quiet && count == 0 && loading
    {
      status := Quiet;
      count := 0;
      loading := true;
    }

    /** loadTodayAppointments. Without a company nothing changes; an error or a null count
      * leaves count and status as they were; loading ends in every other case. */
    method LoadTodayAppointments(hasCompany: bool, answer: Result<Option<nat>>)
      modifies this
      ensures !hasCompany ==>
        status == old(status) && count == old(count) && loading == old(loading)
      ensures hasCompany ==> !loading
      ensures hasCompany && answer.Ok? && answer.value.Some? ==>
        count == answer.value.value && status == Classify(count)
      ensures hasCompany && !(answer.Ok? && answer.value.Some?) ==>
        status == old(status) && count == old(count)
    {
      if !hasCompany {
        return;
      }
      if answer.Ok? && answer.value.Some? {
        var c := answer.value.value;
        count := c;
        if c <= 2 {
          status := Quiet;
        } else if c <= 5 {
          status := Moderate;
        } else {
          status := Busy;
        }
      }
      loading := false;
    }
  }
}
