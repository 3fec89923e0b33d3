// The rate-limited WhatsApp sender (src/services/whatsapp/anti-ban-client.ts):
// a priority queue drained one message per timer tick, within a daily limit and
// business hours. The clock, the random delay and the HTTP call's outcome are
// parameters; the 5-second timer is modelled as calls to Tick, and a send in
// flight as the pair Tick (which takes the head) and CompleteSend.
module AntiBanClient {
  import opened Wrappers
  import opened Text
  import Seqs
  import DateTime
  import WhatsApp

  const MaxMessagesPerDay := 50
  const MinDelay := 30000
  const MaxDelay := 120000
  const BusinessHoursStart := 8
  const BusinessHoursEnd := 20

  datatype Priority = High | Normal | Low

  /** The sort key `{ high: 0, normal: 1, low: 2 }`. */
  function Rank(p: Priority): nat
  {
    match p
    case High => 0
    case Normal => 1
    case Low => 2
  }

  datatype Item = Item(phone: string, message: string, priority: Priority,
                       appointmentId: Option<string>, kind: Option<string>)

  predicate IsHigh(m: Item) { m.priority == High }
  predicate IsNormal(m: Item) { m.priority == Normal }
  predicate IsLow(m: Item) { m.priority == Low }

  function Has(p: Priority): Item -> bool
  {
    match p
    case High => IsHigh
    case Normal => IsNormal
    case Low => IsLow
  }

  /** The queue after the stable sort by priority: the high messages, then the normal
    * ones, then the low ones, each group in its original order. */
  function Arrange(q: seq<Item>): seq<Item>
  {
    Seqs.Filter(q, IsHigh) + Seqs.Filter(q, IsNormal) + Seqs.Filter(q, IsLow)
  }

  predicate Sorted(q: seq<Item>)
  {
    forall i, j :: 0 <= i < j < |q| ==> Rank(q[i].priority) <= Rank(q[j].priority)
  }

  /** The arranged queue is ordered high < normal < low. */
  lemma ArrangeSorted(q: seq<Item>)
    ensures Sorted(Arrange(q))
  {
    var a, b, c := Seqs.Filter(q, IsHigh), Seqs.Filter(q, IsNormal), Seqs.Filter(q, IsLow);
    var r := Arrange(q);
    assert forall i :: 0 <= i < |r| ==>
      Rank(r[i].priority) == (if i < |a| then 0 else if i < |a| + |b| then 1 else 2);
  }

  lemma {:induction false} ArrangeCounts(q: seq<Item>)
    ensures multiset(Seqs.Filter(q, IsHigh)) + multiset(Seqs.Filter(q, IsNormal))
            + multiset(Seqs.Filter(q, IsLow)) == multiset(q)
  {
    if q != [] {
      var t := q[1..];
      ArrangeCounts(t);
      assert q == [q[0]] + t;
      assert multiset(q) == multiset{q[0]} + multiset(t);
      Seqs.FilterCons(q, q, IsHigh);
      Seqs.FilterCons(q, q, IsNormal);
      Seqs.FilterCons(q, q, IsLow);
    }
  }

  /** Sorting neither loses nor duplicates a message. */
  lemma ArrangePermutes(q: seq<Item>)
    ensures multiset(Arrange(q)) == multiset(q)
  {
    ArrangeCounts(q);
  }

  /** The sort is stable: the messages of each priority keep their queueing order. */
  lemma ArrangeStable(q: seq<Item>, p: Priority)
    ensures Seqs.Filter(Arrange(q), Has(p)) == Seqs.Filter(q, Has(p))
  {
    var a, b, c := Seqs.Filter(q, IsHigh), Seqs.Filter(q, IsNormal), Seqs.Filter(q, IsLow);
    Seqs.FilterConcat(a + b, c, Has(p));
    Seqs.FilterConcat(a, b, Has(p));
    match p
    case High =>
      Seqs.FilterIdempotent(q, IsHigh);
      Seqs.FilterNone(b, IsHigh);
      Seqs.FilterNone(c, IsHigh);
    case Normal =>
      Seqs.FilterIdempotent(q, IsNormal);
      Seqs.FilterNone(a, IsNormal);
      Seqs.FilterNone(c, IsNormal);
    case Low =>
      Seqs.FilterIdempotent(q, IsLow);
      Seqs.FilterNone(a, IsLow);
      Seqs.FilterNone(b, IsLow);
  }

  /** A new message joins the end of its priority group. */
  lemma QueuedLast(q: seq<Item>, m: Item, p: Priority)
    ensures Seqs.Filter(Arrange(q + [m]), Has(p))
            == Seqs.Filter(q, Has(p)) + (if m.priority == p then [m] else [])
  {
    ArrangeStable(q + [m], p);
    Seqs.FilterConcat(q, [m], Has(p));
  }

  /** `getDate()`: the day of the month of a local-time instant. */
  function DayOfMonth(t: DateTime.Time): int
  {
    DateTime.CivilFromDays(DateTime.Day(t)).day
  }

  /** isBusinessHours: from 08:00 up to, not including, 20:00. */
  predicate IsBusinessHours(t: DateTime.Time)
  {
    BusinessHoursStart <= DateTime.Hours(t) < BusinessHoursEnd
  }

  lemma BusinessHoursWindow(t: DateTime.Time)
    ensures IsBusinessHours(t) <==> 28800000 <= DateTime.TimeOfDay(t) < 72000000
  {
  }

  const BanKeywords: seq<string> :=
    ["banned", "blocked", "suspended", "violation", "terms of service", "403", "unauthorized", "account"]

  /** isBanError on the error's message. */
  predicate IsBanError(message: string)
  {
    exists k :: 0 <= k < |BanKeywords| && Contains(Lower(message), BanKeywords[k])
  }

  /** Letter case in the message does not matter. */
  lemma BanErrorIgnoresCase(message: string)
    ensures IsBanError(Upper(message)) <==> IsBanError(message)
  {
    assert Lower(Upper(message)) == Lower(message);
  }

  /** A message with a keyword anywhere in it is a ban error. */
  lemma BanKeywordDetected(before: string, after: string)
    ensures IsBanError(before + "403" + after)
  {
    var s := Lower(before + "403" + after);
    assert s[|before|..|before| + 3] == "403";
    ContainsAt(s, "403", |before|);
    assert BanKeywords[5] == "403";
  }

  /** formatPhone: the WhatsApp number in the form the API addresses, `<digits>@s.whatsapp.net`. */
  function FormatPhone(phone: string): (r: string)
    ensures IsPrefix("55", r)
    ensures |r| == |WhatsApp.FormatPhoneForWhatsApp(phone)| + 15
    ensures r[|r| - 15..] == "@s.whatsapp.net"
    ensures AllDigits(r[..|r| - 15]) && r[..|r| - 15] == WhatsApp.FormatPhoneForWhatsApp(phone)
  {
    var n := WhatsApp.FormatPhoneForWhatsApp(phone);
    assert (n + "@s.whatsapp.net")[..|n|] == n;
    n + "@s.whatsapp.net"
  }

  datatype Stats = Stats(queueSize: nat, dailyCount: int, dailyLimit: int, remaining: int,
                         lastMessageTime: Option<int>, isBusinessHours: bool, isProcessing: bool)

  /** What one timer tick did. */
  datatype TickOutcome = Empty | Busy | DailyLimit | OutsideHours | Waiting | Sending(item: Item)

  class Client {
    var queue: seq<Item>
    var lastMessageTime: int
    var dailyMessageCount: int
    var dailyResetTime: int
    var isProcessing: bool

    /** The queue stays ordered by priority, and the daily count within the limit (it is
      * still below the limit while a send is in flight). */
    predicate Valid()
      reads this
    {
      Sorted(queue) && 0 <= dailyMessageCount <= MaxMessagesPerDay
      && (isProcessing ==> dailyMessageCount < MaxMessagesPerDay)
    }

    constructor (now: int)
      ensures Valid()
      ensures queue == [] && lastMessageTime == 0 && dailyMessageCount == 0
      ensures dailyResetTime == now && !isProcessing
    {
      queue := [];
      lastMessageTime := 0;
      dailyMessageCount := 0;
      dailyResetTime := now;
      isProcessing := false;
    }

    /** queueMessage: refused once the daily limit is reached; otherwise appended (with
      * priority 'normal' unless given) and the queue re-sorted. */
    method QueueMessage(phone: string, message: string, priority: Option<Priority>,
                        appointmentId: Option<string>, kind: Option<string>)
      returns (r: Outcome)
      requires Valid()
      modifies this
      ensures Valid()
      ensures r.Failed? <==> old(dailyMessageCount) >= MaxMessagesPerDay
      ensures r.Failed? ==> queue == old(queue)
      ensures r.Done? ==> queue == Arrange(old(queue) + [Item(phone, message, priority.GetOr(Normal), appointmentId, kind)])
      ensures r.Done? ==> |queue| == |old(queue)| + 1
      ensures dailyMessageCount == old(dailyMessageCount) && lastMessageTime == old(lastMessageTime)
      ensures isProcessing == old(isProcessing) && dailyResetTime == old(dailyResetTime)
    {
      if dailyMessageCount >= MaxMessagesPerDay {
        return Failed("Daily message limit reached (50). Try again tomorrow.");
      }
      var item := Item(phone, message, priority.GetOr(Normal), appointmentId, kind);
      var q := queue + [item];
      ArrangeSorted(q);
      ArrangePermutes(q);
      assert |Arrange(q)| == |multiset(Arrange(q))| == |q|;
      queue := Arrange(q);
      return Done;
    }

    /** One run of the interval callback at instant `now`, with `randomDelay` drawn by
      * getRandomDelay. Returns the head of the queue when it starts sending it. */
    method Tick(now: int, randomDelay: int) returns (outcome: TickOutcome)
      requires Valid()
      requires MinDelay <= randomDelay < MaxDelay
      modifies this
      ensures Valid()
      ensures DayOfMonth(now) != DayOfMonth(old(dailyResetTime)) ==> dailyMessageCount == 0 && dailyResetTime == now
      ensures DayOfMonth(now) == DayOfMonth(old(dailyResetTime)) ==>
        dailyMessageCount == old(dailyMessageCount) && dailyResetTime == old(dailyResetTime)
      ensures lastMessageTime == old(lastMessageTime)
      ensures outcome.Sending? <==>
        old(queue) != [] && !old(isProcessing) && dailyMessageCount < MaxMessagesPerDay
        && IsBusinessHours(now) && now - lastMessageTime >= randomDelay
      ensures outcome.Sending? ==> outcome.item == old(queue)[0] && queue == old(queue)[1..] && isProcessing
      ensures !outcome.Sending? ==> queue == old(queue) && isProcessing == old(isProcessing)
    {
      if DayOfMonth(now) != DayOfMonth(dailyResetTime) {
        dailyMessageCount := 0;
        dailyResetTime := now;
      }
      if |queue| == 0 {
        return Empty;
      }
      if isProcessing {
        return Busy;
      }
      if dailyMessageCount >= MaxMessagesPerDay {
        return DailyLimit;
      }
      if !IsBusinessHours(now) {
        return OutsideHours;
      }
      var timeSinceLastMessage := now - lastMessageTime;
      if timeSinceLastMessage < randomDelay {
        return Waiting;
      }
      isProcessing := true;
      var item := queue[0];
      queue := queue[1..];
      return Sending(item);
    }

    /** The end of sendMessageNow and of the tick: `error` is None when the API accepted
      * the message. Success moves the counters; a ban-like error empties the queue. */
    method CompleteSend(now: int, error: Option<string>)
      requires Valid() && isProcessing
      modifies this
      ensures Valid() && !isProcessing
      ensures error.None? ==> lastMessageTime == now && dailyMessageCount == old(dailyMessageCount) + 1
      ensures error.None? ==> queue == old(queue)
      ensures error.Some? ==> lastMessageTime == old(lastMessageTime) && dailyMessageCount == old(dailyMessageCount)
      ensures error.Some? ==> queue == (if IsBanError(error.value) then [] else old(queue))
      ensures dailyResetTime == old(dailyResetTime)
    {
      if error.None? {
        lastMessageTime := now;
        dailyMessageCount := dailyMessageCount + 1;
      } else if IsBanError(error.value) {
        queue := [];
      }
      isProcessing := false;
    }

    /** getStats */
    method GetStats(now: int) returns (s: Stats)
      ensures s.queueSize == |queue| && s.dailyCount == dailyMessageCount
      ensures s.dailyLimit == MaxMessagesPerDay
      ensures s.remaining == MaxMessagesPerDay - dailyMessageCount
      ensures s.lastMessageTime.Some? <==> lastMessageTime != 0
      ensures s.lastMessageTime.Some? ==> s.lastMessageTime.value == lastMessageTime
      ensures s.isBusinessHours <==> IsBusinessHours(now)
      ensures s.isProcessing == isProcessing
    {
      s := Stats(|queue|, dailyMessageCount, MaxMessagesPerDay, MaxMessagesPerDay - dailyMessageCount,
                 if lastMessageTime != 0 then Some(lastMessageTime) else None,
                 IsBusinessHours(now), isProcessing);
    }

    /** clearQueue */
    method ClearQueue()
      requires Valid()
      modifies this
      ensures Valid() && queue == []
      ensures dailyMessageCount == old(dailyMessageCount) && lastMessageTime == old(lastMessageTime)
      ensures isProcessing == old(isProcessing) && dailyResetTime == old(dailyResetTime)
    {
      queue := [];
    }
  }
}
