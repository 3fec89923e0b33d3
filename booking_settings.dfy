// The online-booking tab of the settings page (src/pages/settings/BookingSettings.tsx):
// the default settings, the working-hours editor and the blocked-dates list.
// Loading and saving the settings and the booking link are database I/O.
module BookingSettings {
  import opened Wrappers
  import opened Text
  import opened StringSort

  datatype Weekday = Monday | Tuesday | Wednesday | Thursday | Friday | Saturday | Sunday

  datatype WorkingHours = WorkingHours(enabled: bool, start: string, end: string)

  datatype Settings = Settings(
    enabled: bool, autoApprove: bool, minAdvanceHours: int, maxAdvanceDays: int,
    slotDuration: int, bufferMinutes: int, workingHours: map<Weekday, WorkingHours>,
    blockedDates: seq<string>, timezone: Option<string>)

  /** Every day of the week has its hours, as the settings type declares. */
  predicate HasAllDays(s: Settings)
  {
    forall d: Weekday :: d in s.workingHours
  }

  const WeekdayHours := WorkingHours(true, "08:00", "18:00")

  /** DEFAULT_SETTINGS */
  const DefaultSettings := Settings(
    true, false, 2, 30, 30, 15,
    map[Monday := WeekdayHours, Tuesday := WeekdayHours, Wednesday := WeekdayHours,
        Thursday := WeekdayHours, Friday := WeekdayHours,
        Saturday := WorkingHours(true, "08:00", "14:00"),
        Sunday := WorkingHours(false, "00:00", "00:00")],
    [], Some("America/Sao_Paulo"))

  /** In the defaults every day is configured, Sunday is the only closed day, and Saturday
    * closes early. */
  lemma DefaultsFacts()
    ensures HasAllDays(DefaultSettings)
    ensures forall d: Weekday :: !DefaultSettings.workingHours[d].enabled <==> d == Sunday
    ensures DefaultSettings.workingHours[Saturday].end == "14:00"
    ensures DefaultSettings.blockedDates == []
  {
    forall d: Weekday ensures d in DefaultSettings.workingHours {
      match d
      case Monday => case Tuesday => case Wednesday => case Thursday =>
      case Friday => case Saturday => case Sunday =>
    }
  }

  /** The `field: value` pair updateWorkingHours writes. */
  datatype HoursEdit = SetEnabled(b: bool) | SetStart(t: string) | SetEnd(t: string)

  function ApplyEdit(h: WorkingHours, e: HoursEdit): WorkingHours
  {
    match e
    case SetEnabled(b) => h.(enabled := b)
    case SetStart(t) => h.(start := t)
    case SetEnd(t) => h.(end := t)
  }

  /** updateWorkingHours: one field of one day; every other day and every other setting is
    * kept. */
  function UpdateWorkingHours(s: Settings, day: Weekday, e: HoursEdit): (r: Settings)
    requires day in s.workingHours
    ensures r.(workingHours := s.workingHours) == s
    ensures r.workingHours.Keys == s.workingHours.Keys
    ensures forall d :: d in s.workingHours && d != day ==> r.workingHours[d] == s.workingHours[d]
    ensures e.SetEnabled? ==> r.workingHours[day] == s.workingHours[day].(enabled := e.b)
    ensures e.SetStart? ==> r.workingHours[day] == s.workingHours[day].(start := e.t)
    ensures e.SetEnd? ==> r.workingHours[day] == s.workingHours[day].(end := e.t)
  {
    s.(workingHours := s.workingHours[day := ApplyEdit(s.workingHours[day], e)])
  }

  /** What addBlockedDate did. */
  datatype AddOutcome = Ignored | AlreadyBlocked | Added(dates: seq<string>)

  /** addBlockedDate on the list and the date input. */
  function AddBlockedDate(dates: seq<string>, newDate: string): (r: AddOutcome)
    ensures newDate == "" <==> r == Ignored
    ensures newDate != "" && newDate in dates <==> r == AlreadyBlocked
    ensures r.Added? ==> newDate in r.dates && Sorted(r.dates)
    ensures r.Added? ==> multiset(r.dates) == multiset(dates) + multiset{newDate}
  {
    if newDate == "" then Ignored
    else if newDate in dates then AlreadyBlocked
    else
      var r := Sort(dates + [newDate]);
      assert newDate in multiset(r);
      Added(r)
  }

  /** The list never holds a date twice. */
  lemma AddKeepsNoDuplicates(dates: seq<string>, newDate: string)
    requires NoDuplicates(dates)
    ensures AddBlockedDate(dates, newDate).Added? ==> NoDuplicates(AddBlockedDate(dates, newDate).dates)
  {
    var r := AddBlockedDate(dates, newDate);
    if r.Added? {
      NoDuplicatesViaMultiset(dates);
      NoDuplicatesViaMultiset(r.dates);
      assert multiset(dates)[newDate] == 0;
    }
  }

  /** removeBlockedDate: `filter(d => d !== date)` */
  function RemoveBlockedDate(dates: seq<string>, date: string): (r: seq<string>)
    ensures date !in r
    ensures forall x :: x in r <==> x in dates && x != date
    ensures |r| <= |dates|
  {
    if dates == [] then []
    else (if dates[0] != date then [dates[0]] else []) + RemoveBlockedDate(dates[1..], date)
  }

  /** With no duplicates, removing a listed date drops exactly that entry and keeps the
    * others in order. */
  lemma {:induction false} RemoveAt(dates: seq<string>, k: nat)
    requires NoDuplicates(dates) && k < |dates|
    ensures RemoveBlockedDate(dates, dates[k]) == dates[..k] + dates[k + 1..]
  {
    var t := dates[1..];
    assert NoDuplicates(t) by {
      forall i, j | 0 <= i < j < |t| ensures t[i] != t[j] {
        assert t[i] == dates[i + 1] && t[j] == dates[j + 1];
      }
    }
    if k == 0 {
      forall j | 0 <= j < |t| ensures t[j] != dates[0] {
        assert t[j] == dates[j + 1];
      }
      RemoveAbsent(t, dates[0]);
    } else {
      assert dates[0] != dates[k];
      assert t[k - 1] == dates[k];
      RemoveAt(t, k - 1);
      assert [dates[0]] + (t[..k - 1] + t[k..]) == dates[..k] + dates[k + 1..];
    }
  }

  lemma {:induction false} RemoveAbsent(dates: seq<string>, date: string)
    requires date !in dates
    ensures RemoveBlockedDate(dates, date) == dates
  {
    if dates != [] {
      RemoveAbsent(dates[1..], date);
      assert [dates[0]] + dates[1..] == dates;
    }
  }

  /** Removing keeps the list sorted. */
  lemma RemoveKeepsSorted(dates: seq<string>, date: string)
    requires Sorted(dates)
    ensures Sorted(RemoveBlockedDate(dates, date))
  {
    SortedAll(dates);
    RemovePreservesOrder(dates, date);
  }

  lemma {:induction false} RemovePreservesOrder(dates: seq<string>, date: string)
    requires forall i, j :: 0 <= i < j < |dates| ==> LessEq(dates[i], dates[j])
    ensures Sorted(RemoveBlockedDate(dates, date))
  {
    if dates != [] {
      var t := dates[1..];
      assert forall i, j :: 0 <= i < j < |t| ==> LessEq(t[i], t[j]) by {
        forall i, j | 0 <= i < j < |t| ensures LessEq(t[i], t[j]) {
          assert t[i] == dates[i + 1] && t[j] == dates[j + 1];
        }
      }
      RemovePreservesOrder(t, date);
      var rest := RemoveBlockedDate(t, date);
      if dates[0] != date && rest != [] {
        assert rest[0] in t;
        var j :| 0 <= j < |t| && t[j] == rest[0];
        assert dates[j + 1] == rest[0];
      }
    }
  }

  /** The value of a digit string, most significant digit first. */
  function Pow10(n: nat): (r: nat)
    ensures r >= 1
  {
    if n == 0 then 1 else 10 * Pow10(n - 1)
  }

  function Value(s: string): (v: nat)
    requires AllDigits(s)
    ensures v < Pow10(|s|)
  {
    if s == [] then 0
    else
      var rest := Value(s[1..]);
      DigitStep(DigitValue(s[0]), Pow10(|s| - 1), rest);
      DigitValue(s[0]) * Pow10(|s| - 1) + rest
  }

  lemma DigitStep(d: nat, p: nat, v: nat)
    requires d < 10 && v < p
    ensures d * p + v < 10 * p
  {
    assert d * p <= 9 * p;
  }

  /** Between digit strings of one length, the string order is the numeric order. */
  lemma {:induction false} LessIsNumeric(a: string, b: string)
    requires AllDigits(a) && AllDigits(b) && |a| == |b|
    ensures Less(a, b) <==> Value(a) < Value(b)
    ensures a == b <==> Value(a) == Value(b)
  {
    if a != [] {
      var p := Pow10(|a| - 1);
      var da, db := DigitValue(a[0]), DigitValue(b[0]);
      LessIsNumeric(a[1..], b[1..]);
      assert Value(a) == da * p + Value(a[1..]) && Value(b) == db * p + Value(b[1..]);
      if da < db {
        LeadingDigitDecides(da, db, p, Value(a[1..]), Value(b[1..]));
        assert a[0] < b[0];
      } else if db < da {
        LeadingDigitDecides(db, da, p, Value(b[1..]), Value(a[1..]));
        assert b[0] < a[0];
      } else {
        assert a[0] == b[0];
        assert a == [a[0]] + a[1..] && b == [b[0]] + b[1..];
      }
    }
  }

  lemma LeadingDigitDecides(d1: nat, d2: nat, p: nat, v1: nat, v2: nat)
    requires d1 < d2 && v1 < p
    ensures d1 * p + v1 < d2 * p + v2
  {
    assert (d1 + 1) * p <= d2 * p;
  }

  lemma {:induction false} LessSplit(a1: string, a2: string, b1: string, b2: string)
    requires |a1| == |b1|
    ensures Less(a1 + a2, b1 + b2) <==> Less(a1, b1) || (a1 == b1 && Less(a2, b2))
  {
    if a1 != [] {
      assert (a1 + a2)[0] == a1[0] && (b1 + b2)[0] == b1[0];
      assert (a1 + a2)[1..] == a1[1..] + a2 && (b1 + b2)[1..] == b1[1..] + b2;
      LessSplit(a1[1..], a2, b1[1..], b2);
      if a1[0] == b1[0] {
        assert a1 == b1 <==> a1[1..] == b1[1..] by {
          assert a1 == [a1[0]] + a1[1..] && b1 == [b1[0]] + b1[1..];
        }
      }
    } else {
      assert a1 + a2 == a2 && b1 + b2 == b2;
    }
  }

  /** A `YYYY-MM-DD` date as the `<input type="date">` yields it. */
  predicate IsIsoDate(s: string)
  {
    |s| == 10 && s[4] == '-' && s[7] == '-'
    && AllDigits(s[..4]) && AllDigits(s[5..7]) && AllDigits(s[8..])
  }

  function Year(s: string): nat requires IsIsoDate(s) { Value(s[..4]) }
  function Month(s: string): nat requires IsIsoDate(s) { Value(s[5..7]) }
  function Day(s: string): nat requires IsIsoDate(s) { Value(s[8..]) }

  /** The dates' string order is calendar order: by year, then month, then day. */
  lemma IsoDateOrderIsChronological(a: string, b: string)
    requires IsIsoDate(a) && IsIsoDate(b)
    ensures Less(a, b) <==>
      Year(a) < Year(b) || (Year(a) == Year(b) && (Month(a) < Month(b) || (Month(a) == Month(b) && Day(a) < Day(b))))
  {
    assert a == a[..4] + ("-" + (a[5..7] + ("-" + a[8..])));
    assert b == b[..4] + ("-" + (b[5..7] + ("-" + b[8..])));
    LessSplit(a[..4], "-" + (a[5..7] + ("-" + a[8..])), b[..4], "-" + (b[5..7] + ("-" + b[8..])));
    LessSplit("-", a[5..7] + ("-" + a[8..]), "-", b[5..7] + ("-" + b[8..]));
    LessSplit(a[5..7], "-" + a[8..], b[5..7], "-" + b[8..]);
    LessSplit("-", a[8..], "-", b[8..]);
    LessIrreflexive("-");
    LessIsNumeric(a[..4], b[..4]);
    LessIsNumeric(a[5..7], b[5..7]);
    LessIsNumeric(a[8..], b[8..]);
  }

  /** The page state the handlers replace. */
  class Page {
    var settings: Settings
    var newBlockedDate: string

    constructor ()
      ensures settings == DefaultSettings && newBlockedDate == ""
    {
      settings := DefaultSettings;
      newBlockedDate := "";
    }

    method HandleUpdateWorkingHours(day: Weekday, e: HoursEdit)
      requires HasAllDays(settings)
      modifies this
      ensures settings == UpdateWorkingHours(old(settings), day, e) && HasAllDays(settings)
      ensures newBlockedDate == old(newBlockedDate)
    {
      settings := UpdateWorkingHours(settings, day, e);
    }

    /** addBlockedDate: the input is cleared only when the date was added. */
    method HandleAddBlockedDate() returns (outcome: AddOutcome)
      modifies this
      ensures outcome == AddBlockedDate(old(settings.blockedDates), old(newBlockedDate))
      ensures outcome.Added? ==> settings == old(settings).(blockedDates := outcome.dates) && newBlockedDate == ""
      ensures !outcome.Added? ==> settings == old(settings) && newBlockedDate == old(newBlockedDate)
    {
      outcome := AddBlockedDate(settings.blockedDates, newBlockedDate);
      if outcome.Added? {
        settings := settings.(blockedDates := outcome.dates);
        newBlockedDate := "";
      }
    }

    method HandleRemoveBlockedDate(date: string)
      modifies this
      ensures settings == old(settings).(blockedDates := RemoveBlockedDate(old(settings.blockedDates), date))
      ensures newBlockedDate == old(newBlockedDate)
    {
      settings := settings.(blockedDates := RemoveBlockedDate(settings.blockedDates, date));
    }
  }
}
