// The upcoming-birthday selection of src/services/birthdayService.ts
// (getUpcomingBirthdays): which customers have a birthday within the lead time, how many
// days away it is, and the ordering of the list. Reading and creating the settings, the
// customer query and the notification history are database I/O: their answers are
// parameters.
module BirthdayService {
  import opened Wrappers
  import opened Text
  import opened DateTime

  /** BirthdayNotificationSettings, the two fields the selection reads. */
  datatype Settings = Settings(enabled: bool, leadTimeDays: int)

  /** A row of the customer query; birth_date is stored as MM-DD. */
  datatype CustomerRow = CustomerRow(
    id: string, name: string, phone: Option<string>, birthDate: Option<string>)

  /** BirthdayCustomer */
  datatype BirthdayCustomer = BirthdayCustomer(
    id: string, name: string, phone: Option<string>, birthDate: string, isToday: bool,
    daysUntil: int)

  /** `birth_date.split('-').map(Number)` on a five-character MM-DD value: the month and
    * the day, or None when a part is not a number. */
  function MonthDay(s: string): (r: Option<(nat, nat)>)
    requires |s| == 5
    ensures r.Some? <==> s[2] == '-' && AllDigits(s[..2]) && AllDigits(s[3..])
  {
    if s[2] == '-' && AllDigits(s[..2]) && AllDigits(s[3..]) then
      Some((ParseDigits(s[..2]), ParseDigits(s[3..])))
    else None
  }

  /** The day number of `new Date(year, monthIndex, day)`: a month index outside 0-11
    * moves into another year and a day outside the month into another month. */
  function JsDate(year: int, monthIndex: int, day: int): int
  {
    DaysFromCivil(Civil(year + monthIndex / 12, monthIndex % 12 + 1, 1)) + day - 1
  }

  /** For a month 1-12, JsDate is the calendar's day number, the day counted on from the
    * first of the month. */
  lemma JsDateOfMonth(year: int, month: int, day: int)
    requires 1 <= month <= 12
    ensures JsDate(year, month - 1, day) == DaysFromCivil(Civil(year, month, 1)) + day - 1
    ensures 1 <= day <= DaysInMonth(year, month) ==>
      JsDate(year, month - 1, day) == DaysFromCivil(Civil(year, month, day))
  {
    assert (month - 1) / 12 == 0 && (month - 1) % 12 == month - 1;
  }

  /** What the loop body decides for one customer. */
  datatype Decision = Skip | Include(daysUntil: int)

  /** One turn of the forEach: a birth date of length 5 with a numeric month and day is
    * upcoming when this year's birthday is 0 to lead-time days away, or when it has
    * passed and next year's is at most lead-time days away. */
  function Decide(birthDate: Option<string>, leadTimeDays: int, now: Time): (d: Decision)
    ensures d.Include? ==> birthDate.Some? && |birthDate.value| == 5
    ensures d.Include? ==> d.daysUntil <= leadTimeDays
  {
    if birthDate.None? || |birthDate.value| != 5 then Skip
    else match MonthDay(birthDate.value)
      case None => Skip
      case Some(md) =>
        var today := Day(now);
        var year := CivilFromDays(today).year;
        var diff := JsDate(year, md.0 - 1, md.1) - today;
        if 0 <= diff <= leadTimeDays then Include(diff)
        else if diff < 0 then
          var next := JsDate(year + 1, md.0 - 1, md.1) - today;
          if next <= leadTimeDays then Include(next) else Skip
        else Skip
  }

  function Entry(c: CustomerRow, daysUntil: int): BirthdayCustomer
    requires c.birthDate.Some?
  {
    BirthdayCustomer(c.id, c.name, c.phone, c.birthDate.value, daysUntil == 0, daysUntil)
  }

  /** The `upcoming` list the forEach builds over `cs`, in the order of `cs`. */
  function Selected(cs: seq<CustomerRow>, leadTimeDays: int, now: Time): seq<BirthdayCustomer>
  {
    if cs == [] then []
    else
      var c := cs[|cs| - 1];
      Selected(cs[..|cs| - 1], leadTimeDays, now) + Step(c, leadTimeDays, now)
  }

  /** A listed birthday comes from a customer the loop decided to include, with the days
    * that decision computed, and every such customer is listed. */
  lemma {:induction false} SelectedMembers(cs: seq<CustomerRow>, leadTimeDays: int, now: Time,
                                           b: BirthdayCustomer)
    ensures b in Selected(cs, leadTimeDays, now) <==>
      exists c :: c in cs && Decide(c.birthDate, leadTimeDays, now).Include?
        && b == Entry(c, Decide(c.birthDate, leadTimeDays, now).daysUntil)
  {
    if cs != [] {
      var init := cs[..|cs| - 1];
      var c := cs[|cs| - 1];
      SelectedMembers(init, leadTimeDays, now, b);
      assert cs == init + [c];
      assert forall x :: x in cs <==> x in init || x == c;
    }
  }

  /** Next year's birthday is never before today, and is after today when the day is at
    * least 1. */
  lemma NextYearNotBefore(month: int, day: int, now: Time)
    requires 1 <= month <= 12 && day >= 0
    ensures JsDate(CivilFromDays(Day(now)).year + 1, month - 1, day) - Day(now) >= 0
    ensures day >= 1 ==> JsDate(CivilFromDays(Day(now)).year + 1, month - 1, day) - Day(now) > 0
  {
    var today := Day(now);
    var c := CivilFromDays(today);
    DayOfYearBounds(c);
    assert today < DaysBeforeYear(c.year) + DaysInYear(c.year);
    DaysBeforeYearStep(c.year);
    JsDateOfMonth(c.year + 1, month, day);
    if month > 1 {
      DaysBeforeMonthMonotone(c.year + 1, 1, month);
    }
    assert DaysBeforeMonth(c.year + 1, month) >= 0;
    var next := JsDate(c.year + 1, month - 1, day);
    assert next == DaysBeforeYear(c.year + 1) + DaysBeforeMonth(c.year + 1, month) + day - 1;
    assert next - today >= day;
  }

  /** This year's birthday falls today exactly when today has its month and day. */
  lemma ThisYearIsToday(month: int, day: int, now: Time)
    requires 1 <= month <= 12 && 1 <= day <= DaysInMonth(CivilFromDays(Day(now)).year, month)
    ensures JsDate(CivilFromDays(Day(now)).year, month - 1, day) == Day(now) <==>
      CivilFromDays(Day(now)).month == month && CivilFromDays(Day(now)).day == day
  {
    var c := CivilFromDays(Day(now));
    var birthday := Civil(c.year, month, day);
    JsDateOfMonth(c.year, month, day);
    if DaysFromCivil(birthday) == Day(now) {
      DaysFromCivilInjective(birthday, c);
    }
  }

  /** Every listed birthday is at most lead-time days away and not in the past, when the
    * stored month is 01-12. */
  lemma IncludedWithinLead(birthDate: string, leadTimeDays: int, now: Time)
    requires |birthDate| == 5 && MonthDay(birthDate).Some?
    requires 1 <= MonthDay(birthDate).value.0 <= 12
    ensures Decide(Some(birthDate), leadTimeDays, now).Include? ==>
      0 <= Decide(Some(birthDate), leadTimeDays, now).daysUntil <= leadTimeDays
  {
    var md := MonthDay(birthDate).value;
    NextYearNotBefore(md.0, md.1, now);
  }

  /** is_today holds exactly when the stored month and day are today's: the birthday is
    * listed with 0 days to go on that date and on no other. */
  lemma TodayIffSameMonthDay(birthDate: string, leadTimeDays: int, now: Time)
    requires |birthDate| == 5 && MonthDay(birthDate).Some? && leadTimeDays >= 0
    requires 1 <= MonthDay(birthDate).value.0 <= 12
    requires 1 <= MonthDay(birthDate).value.1
               <= DaysInMonth(CivilFromDays(Day(now)).year, MonthDay(birthDate).value.0)
    ensures Decide(Some(birthDate), leadTimeDays, now) == Include(0) <==>
      CivilFromDays(Day(now)).month == MonthDay(birthDate).value.0
      && CivilFromDays(Day(now)).day == MonthDay(birthDate).value.1
  {
    var md := MonthDay(birthDate).value;
    NextYearNotBefore(md.0, md.1, now);
    ThisYearIsToday(md.0, md.1, now);
  }

  /** JavaScript's `sort((a, b) => a.days_until - b.days_until)`: closest first. */
  predicate SortedByDays(s: seq<BirthdayCustomer>)
  {
    forall i, j :: 0 <= i < j < |s| ==> s[i].daysUntil <= s[j].daysUntil
  }

  /** Inserts `b` after every entry that is not further away, keeping ties in list order. */
  function InsertByDays(s: seq<BirthdayCustomer>, b: BirthdayCustomer): (r: seq<BirthdayCustomer>)
    requires SortedByDays(s)
    ensures SortedByDays(r) && multiset(r) == multiset(s) + multiset{b}
  {
    if s == [] then [b]
    else if b.daysUntil < s[0].daysUntil then
      assert forall i :: 0 <= i < |s| ==> s[0].daysUntil <= s[i].daysUntil;
      ConsSorted(b, s);
      [b] + s
    else
      var rest := InsertByDays(s[1..], b);
      assert s == [s[0]] + s[1..];
      assert forall i :: 0 <= i < |s[1..]| ==> s[0].daysUntil <= s[1..][i].daysUntil;
      LowerBoundKept(s[1..], b, rest, s[0].daysUntil);
      ConsSorted(s[0], rest);
      [s[0]] + rest
  }

  /** An entry no further away than any of a sorted list, put in front of it, leaves the
    * list sorted. */
  lemma ConsSorted(x: BirthdayCustomer, t: seq<BirthdayCustomer>)
    requires SortedByDays(t)
    requires forall i :: 0 <= i < |t| ==> x.daysUntil <= t[i].daysUntil
    ensures SortedByDays([x] + t)
  {
    var r := [x] + t;
    forall i, j | 0 <= i < j < |r| ensures r[i].daysUntil <= r[j].daysUntil {
      if i > 0 {
        assert r[i] == t[i - 1] && r[j] == t[j - 1];
      } else {
        assert r[j] == t[j - 1];
      }
    }
  }

  /** A bound every entry of `t` and `b` meet is met by every entry of a list holding
    * exactly those. */
  lemma LowerBoundKept(t: seq<BirthdayCustomer>, b: BirthdayCustomer, rest: seq<BirthdayCustomer>,
                       lo: int)
    requires multiset(rest) == multiset(t) + multiset{b}
    requires forall i :: 0 <= i < |t| ==> lo <= t[i].daysUntil
    requires lo <= b.daysUntil
    ensures forall i :: 0 <= i < |rest| ==> lo <= rest[i].daysUntil
  {
    forall i | 0 <= i < |rest| ensures lo <= rest[i].daysUntil {
      assert rest[i] in multiset(rest);
      if rest[i] != b {
        assert rest[i] in multiset(t);
        assert rest[i] in t;
      }
    }
  }

  /** The sorted list: a permutation of its input ordered by days_until. */
  function SortByDays(s: seq<BirthdayCustomer>): (r: seq<BirthdayCustomer>)
    ensures SortedByDays(r) && multiset(r) == multiset(s)
  {
    if s == [] then []
    else
      assert s == s[..|s| - 1] + [s[|s| - 1]];
      InsertByDays(SortByDays(s[..|s| - 1]), s[|s| - 1])
  }

  /** The part Selected appends for one customer. */
  function Step(c: CustomerRow, leadTimeDays: int, now: Time): seq<BirthdayCustomer>
  {
    match Decide(c.birthDate, leadTimeDays, now)
    case Include(d) => [Entry(c, d)]
    case Skip => []
  }

  /** The body of the forEach for one customer: pushes its entry when it is upcoming. */
  method Visit(upcoming: seq<BirthdayCustomer>, customer: CustomerRow, lead: int, now: Time)
    returns (next: seq<BirthdayCustomer>)
    ensures next == upcoming + Step(customer, lead, now)
  {
    next := upcoming;
    if customer.birthDate.None? || |customer.birthDate.value| != 5 {
      return;
    }
    var md := MonthDay(customer.birthDate.value);
    if md.None? {
      return;
    }
    var today := Day(now);
    var currentYear := CivilFromDays(today).year;
    var diffDays := JsDate(currentYear, md.value.0 - 1, md.value.1) - today;
    var isUpcoming := false;
    var daysUntil := diffDays;
    if 0 <= diffDays <= lead {
      isUpcoming := true;
    } else if diffDays < 0 {
      var nextDiff := JsDate(currentYear + 1, md.value.0 - 1, md.value.1) - today;
      if nextDiff <= lead {
        isUpcoming := true;
        daysUntil := nextDiff;
      }
    }
    assert Decide(customer.birthDate, lead, now)
      == if isUpcoming then Include(daysUntil) else Skip;
    if isUpcoming {
      next := upcoming + [Entry(customer, daysUntil)];
    }
  }

  /** getUpcomingBirthdays: nothing when notifications are off; otherwise the upcoming
    * birthdays of the fetched customers, closest first. An error of either query is
    * thrown on. */
  method GetUpcomingBirthdays(settings: Result<Settings>, customers: Result<seq<CustomerRow>>,
                              now: Time)
    returns (r: Result<seq<BirthdayCustomer>>)
    ensures settings.Err? ==> r == Err(settings.error)
    ensures settings.Ok? && !settings.value.enabled ==> r == Ok([])
    ensures settings.Ok? && settings.value.enabled && customers.Err? ==> r == Err(customers.error)
    ensures settings.Ok? && settings.value.enabled && customers.Ok? ==>
      r.Ok? && SortedByDays(r.value)
      && multiset(r.value)
         == multiset(Selected(customers.value, settings.value.leadTimeDays, now))
  {
    if settings.Err? {
      return Err(settings.error);
    }
    if !settings.value.enabled {
      return Ok([]);
    }
    if customers.Err? {
      return Err(customers.error);
    }
    var rows := customers.value;
    var lead := settings.value.leadTimeDays;
    var upcoming: seq<BirthdayCustomer> := [];
    var i := 0;
    while i < |rows|
      invariant 0 <= i <= |rows|
      invariant upcoming == Selected(rows[..i], lead, now)
    {
      assert rows[..i + 1][..i] == rows[..i];
      upcoming := Visit(upcoming, rows[i], lead, now);
      i := i + 1;
    }
    assert rows[..|rows|] == rows;
    r := Ok(SortByDays(upcoming));
  }
}
