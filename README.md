# gestorauto core, modelled in Dafny

gestorauto is a web application for running an auto-detailing shop. Its parts:

- a customer and vehicle register;
- appointments and an online booking wizard;
- work orders with their services, products and discounts;
- an inventory with stock movements;
- receivables, payables and a financial dashboard;
- a customer portal and a public service tracker with before/after photos;
- WhatsApp notifications sent through a rate-limited client.

Most of the program is database access and rendering. This project models the rules underneath them, one Dafny module per source file, and proves each rule against a statement of what it is for. The rules covered:

- input masks and validators (CPF check digits, licence plates, phones, slugs, image files);
- unit conversion and money arithmetic;
- small state machines (the booking wizard, the photo gallery and viewer, the tracker timeline, the subscription guard, version bumping, the portal session);
- in-place list edits (the service and product selectors, blocked dates, notification flags);
- queue, cache and cooldown logic (the anti-ban WhatsApp client, the availability cache, the notification checks, the WhatsApp risk score);
- the filters and aggregates of the list pages and dashboards.

Conventions of the model:

- Values computed by expressions are functions. Code that updates state in place is a class with methods; each method is proved equal to a specification function, or states its whole new state.
- Database answers, clocks and random numbers are parameters. A database write is a value in a list of requests.
- Money, quantities and amounts are `real`. No floating-point rounding is modelled.
- Instants are integer milliseconds of local time. A day is 86 400 000 ms and day 0 is a Thursday.
- Strings are `seq<char>`. Case mapping covers ASCII letters only.
- String order compares characters one by one by their code. JavaScript's `<` and default `sort` compare UTF-16 code units, which agree with this order on the Basic Multilingual Plane.
- Shared helpers sit in their own modules:
  - `Wrappers`: Option and Result;
  - `Text`: characters, case, digits, substrings, string order;
  - `Seqs`: filter, sum, subsequence;
  - `DateTime`: the calendar;
  - `StringSort`: sorted, duplicate-free string lists.

## Model

| member | source | states |
|---|---|---|
| Duration.ToMinutes | src/utils/duration.ts:39-49 | a value in days, hours or minutes in minutes: DaysRoundTrip brings whole days back through the best-unit choice |
| Duration.FormatDuration | src/utils/duration.ts:56-67 | the best-unit value and its label: FormatDurationSingular uses the singular exactly for 1, FormatDurationExamples fixes three readings |
| Duration.MinutesToBestUnit | src/utils/duration.ts:18-49 | converting the chosen value and unit back with toMinutes gives the input minutes; a value in days or hours is at least 1; a value in hours is never a whole number of days |
| Duration.BestUnitChoice | src/utils/duration.ts:18-31 | days exactly for a positive whole number of days, hours exactly for a whole number of hours of at least one hour that is not a whole number of days, minutes otherwise, with the minutes unchanged |
| Duration.DaysRoundTrip | src/utils/duration.ts:20-42 | n ≥ 1 days converted to minutes and back are n days again |
| Duration.FormatDurationSingular | src/utils/duration.ts:56-67 | formatDuration uses the singular label exactly when the best-unit value is 1 |
| Duration.FormatDurationExamples | src/utils/duration.ts:54-67 | 1440 minutes read "1 dia", 120 read "2 horas", 90 read "90 minutos" |
| WhatsApp.FormatPhoneForWhatsApp | src/utils/whatsapp.ts:10-18 | the result is all digits and starts with "55"; digits that already start with 55 come back as they are, any others get "55" in front and grow by two |
| WhatsApp.FormatPhoneIdempotent | src/utils/whatsapp.ts:10-18 | formatting a formatted number changes nothing |
| WhatsApp.FormatPhoneIgnoresSeparators | src/utils/whatsapp.ts:12 | inserting a non-digit anywhere in the input does not change the result |
| Timeline.CurrentStepIndex | src/components/tracker/Timeline.tsx:49-56 | the index is at most 2; it is 1 exactly for in_progress and 2 exactly for completed, so every other status, 'draft' included, is step 0 |
| Timeline.Render | src/components/tracker/Timeline.tsx:37-69 | a cancelled status shows only the cancellation notice, and every other status shows three steps |
| Timeline.StepsShape | src/components/tracker/Timeline.tsx:66-69 | a step is completed exactly when its index is at most the current one, so the first step always is; exactly one step is current, and it is completed |
| Timeline.StepDates | src/components/tracker/Timeline.tsx:19-89 | the in-progress step shows a date only for in_progress or completed, the finished step only for completed, and the received step whenever a creation date exists |
| Timeline.UnknownStatusIsReceived | src/components/tracker/Timeline.tsx:49-56 | 'draft' is shown as received: step 0 is current and the later steps are not completed |
| StockMovement.FinalTypeAndReason | src/components/inventory/StockMovementModal.tsx:37-51 | entries and exits keep their type and reason; an adjustment becomes an entry exactly for "add" (an exit otherwise) and its reason gets the "Ajuste: " prefix |
| StockMovement.AdjustmentReasonRecoverable | src/components/inventory/StockMovementModal.tsx:50 | an adjustment's stored reason starts with "Ajuste: " and the typed reason is the rest of it |
| StockMovement.Modal.HandleSubmit | src/components/inventory/StockMovementModal.tsx:30-82 | the insert is issued exactly when a company, a quantity and a reason are present, and otherwise nothing changes; a saved movement carries the mapped type and reason, and the form resets to type entry with empty quantity and reason; a failed insert keeps the form |
| ShopStatus.Classify | src/components/dashboard/ShopStatusWidget.tsx:33-35 | quiet exactly for at most 2, moderate exactly for 3 to 5, busy exactly above 5 |
| ShopStatus.ClassifyMonotone | src/components/dashboard/ShopStatusWidget.tsx:33-35 | more appointments never give a quieter status |
| ShopStatus.CountsTodaysOpenAppointments | src/components/dashboard/ShopStatusWidget.tsx:19-29 | an appointment is counted exactly when it is scheduled on today's calendar day and not cancelled |
| ShopStatus.Widget.LoadTodayAppointments | src/components/dashboard/ShopStatusWidget.tsx:16-38 | without a company nothing changes; otherwise loading ends, a count that arrived sets count and status to its classification, and an error or a null count keeps both |
| SubscriptionGuard.BlockedIsPermanent | src/components/SubscriptionGuard.tsx:26-54 | a company blocked now is still blocked at any later instant |
| SubscriptionGuard.OpenAtEndInstant | src/components/SubscriptionGuard.tsx:39-49 | a trial or a subscription is still open at its exact end instant and blocked one millisecond later |
| SubscriptionGuard.NoEndDateNeverBlocks | src/components/SubscriptionGuard.tsx:37-57 | a trial without a trial end, an active subscription without a subscription end, and any other status are never blocked |
| SubscriptionGuard.Guard.CheckSubscription | src/components/SubscriptionGuard.tsx:18-58 | checking ends; with a company, the block flag is set exactly when the status is expired or cancelled, or a trial or active subscription's end is strictly past; without one the flag keeps its value |
| SubscriptionGuard.Guard.View | src/components/SubscriptionGuard.tsx:69-88 | a spinner exactly while loading or checking; a redirect only when blocked off the plans page, always then, with reason trial_ended exactly for a trial and expired otherwise |
| Vehicles.Filtered | src/pages/crm/Vehicles.tsx:53-68 | an empty term gives the whole list; otherwise a vehicle is shown exactly when loaded and its brand, model, plate or owner's name contains the lower-cased term |
| Vehicles.FilteredIsSubsequence | src/pages/crm/Vehicles.tsx:60-67 | the shown list keeps the loaded order |
| Vehicles.FilteredIdempotent | src/pages/crm/Vehicles.tsx:53-68 | searching the shown list again with the same term changes nothing |
| Vehicles.SearchIgnoresCase | src/pages/crm/Vehicles.tsx:60-61 | a non-empty term and its lower-cased form show the same vehicles |
| Vehicles.TotalVehicles | src/pages/crm/Vehicles.tsx:226 | the total card; TotalAtLeastShown makes it the whole loaded list, at least what any search shows |
| Vehicles.TotalAtLeastShown | src/pages/crm/Vehicles.tsx:226 | the total card counts the whole loaded list, at least as many as any search shows |
| Inventory.Filtered | src/pages/inventory/Inventory.tsx:59-71 | a product is shown exactly when listed, its lower-cased name contains the lower-cased term and it passes the stock filter; the result keeps catalog order |
| Inventory.LowStockEdges | src/pages/inventory/Inventory.tsx:63 | missing quantity and minimum read as 0: a product with neither is low, one at exactly its minimum is low, a positive quantity without a minimum is not |
| Inventory.LowOkPartition | src/pages/inventory/Inventory.tsx:65-68 | for one search, the 'low' and 'ok' lists are disjoint, together hold exactly the 'all' list, and their lengths add up to its length |
| Inventory.NoFilterShowsAll | src/pages/inventory/Inventory.tsx:59-71 | an empty search with 'all' shows the whole catalog |
| Customers.Filtered | src/pages/crm/Customers.tsx:50-76 | the search, type and VIP filters: FilteredMembers says exactly which customers are shown, FilteredIsOneFilter makes them one filter, NoFilterShowsAll shows everyone with no filter on |
| Customers.FilteredIsOneFilter | src/pages/crm/Customers.tsx:50-76 | the three successive filters (search, type, VIP) give the same list as one filter by "passes every filter that is on" |
| Customers.FilteredMembers | src/pages/crm/Customers.tsx:50-76 | a customer is shown exactly when loaded and it matches the non-empty search term, has the selected type unless 'all', and has the selected VIP flag unless the filter is null |
| Customers.FilteredIsSubsequence | src/pages/crm/Customers.tsx:51-75 | the shown list keeps the loaded order |
| Customers.NoFilterShowsAll | src/pages/crm/Customers.tsx:50-76 | no search, type 'all' and VIP null show the whole list |
| Customers.PhoneMatchedRaw | src/pages/crm/Customers.tsx:60-61 | a customer whose stored phone contains the lower-cased term is found, whatever its name and e-mail |
| Customers.StatsOf | src/pages/crm/Customers.tsx:297-308 | the VIP and corporate cards never exceed the total card |
| Customers.StatsMatchFilters | src/pages/crm/Customers.tsx:297-308 | the VIP card equals what the VIP filter alone shows and the corporate card what the 'corporate' type filter alone shows, on the whole list |
| Customers.Page.constructor | src/pages/crm/Customers.tsx:1-24 | the page starts loading, with empty lists, no search, type 'all' and VIP null |
| Customers.Page.FilterCustomersList | src/pages/crm/Customers.tsx:50-76 | the stored list is the filtered loaded list for the current filters, and nothing else changes |
| Customers.Page.LoadCustomers | src/pages/crm/Customers.tsx:31-48 | loading ends; an error keeps the list, a null answer stores the empty list, any other answer is stored as it is |
| AppointmentService.InMemory | src/services/appointmentService.ts:67-92 | the in-memory filters after the query: InMemoryMembers says exactly which rows are returned, InMemoryIsOneFilter makes them one filter, UpcomingPastPartition splits rows into upcoming and past |
| AppointmentService.BuildQuery | src/services/appointmentService.ts:45-63 | the query filters by status exactly when a non-empty status other than 'all' is given, and limits exactly when a non-zero limit is given, always for the given company |
| AppointmentService.InMemoryIsOneFilter | src/services/appointmentService.ts:67-92 | the date filter followed by the search filter is one filter by "passes the date filter that is on and matches the term that is given" |
| AppointmentService.InMemoryIsSubsequence | src/services/appointmentService.ts:67-92 | the returned rows are the fetched rows in their order, some removed |
| AppointmentService.InMemoryMembers | src/services/appointmentService.ts:69-90 | a fetched row is returned exactly when it passes the date filter that is on and its customer name or plate contains the lower-cased term that is given |
| AppointmentService.NoDateFilterKeepsRows | src/services/appointmentService.ts:69-84 | an absent, empty or 'all' date filter keeps every row, and with no search term either the fetched rows come back unchanged |
| AppointmentService.UpcomingPastPartition | src/services/appointmentService.ts:77-79 | every row is upcoming or past and never both, today's rows are upcoming, and the two lists' lengths add up to the whole |
| AppointmentService.List | src/services/appointmentService.ts:45-93 | the query is BuildQuery's; an error is rethrown unchanged, and otherwise the answer filtered in memory is returned |
| AppointmentService.ListOpen | src/services/appointmentService.ts:96-98 | the query asks for the 'scheduled' status with no limit, and the answer is returned untouched |
| Appointments.Filtered | src/pages/operations/Appointments.tsx:197-219 | an appointment is shown exactly when listed and its customer name or plate contains the lower-cased term, it has the selected status unless 'all', and it passes the date filter |
| Appointments.RefilterAgrees | src/pages/operations/Appointments.tsx:197-219 | filtering the service's already filtered answer again on the page gives what the page filter alone gives on the fetched rows |
| Appointments.FilteredIsSubsequence | src/pages/operations/Appointments.tsx:197-219 | the shown list keeps the service's order |
| Appointments.NoCustomerNoVehicleHidden | src/pages/operations/Appointments.tsx:198-200 | an appointment with neither a customer nor a vehicle is never shown, even for the empty term |
| Appointments.EmptyTermMatchesJoined | src/pages/operations/Appointments.tsx:198-200 | with the empty term every appointment that has a customer or a vehicle matches the search |
| Appointments.UpcomingPastSplit | src/pages/operations/Appointments.tsx:210-216 | for the same search and status, the 'upcoming' and 'past' lists together are as long as the 'all' list |
| Appointments.StatusBadge | src/pages/operations/Appointments.tsx:222-233 | a status in the record gets its own badge, any other status the 'confirmed' badge |
| Appointments.BadgeFallback | src/pages/operations/Appointments.tsx:223-231 | exactly pending, confirmed, in_progress, completed and cancelled have a badge of their own, the five are distinct, and every other status shows "Confirmado" |
| Appointments.ScheduledShowsConfirmed | src/pages/operations/Appointments.tsx:222-231 | 'scheduled', an appointment status of the application, shows the "Confirmado" badge |
| Appointments.CorrectedStatusBadge | src/pages/operations/Appointments.tsx:222-231 | 'scheduled' gets the 'pending' badge, every other status what the record gives |
| Appointments.CorrectedBadgesDistinct | src/types/database.ts:33-39 | with the correction, two different appointment statuses never share a badge |
| Appointments.StatsOf | src/pages/operations/Appointments.tsx:236-246 | the total card counts the shown list, and each status card and the today card are at most the total |
| Appointments.StatusCountsWithinTotal | src/pages/operations/Appointments.tsx:238-240 | the pending, confirmed and cancelled cards add up to at most the total |
| Appointments.TodayCardMatchesTodayFilter | src/pages/operations/Appointments.tsx:210-245 | the today card, a calendar-day comparison, counts exactly what the 'today' date filter, a day-truncated comparison, keeps |
| Appointments.CancellationReason | src/pages/operations/Appointments.tsx:171 | the typed reason is written when "Outro (especificar)" was chosen, the chosen reason otherwise |
| WorkOrders.StatsOf | src/pages/operations/WorkOrders.tsx:142-152 | the cards: StatusCardsWithinTotal bounds the status cards by the total, RevenueOfCompleted says what the revenue card sums, MoneyCardsNonnegative keeps the money cards nonnegative |
| WorkOrders.Filtered | src/pages/operations/WorkOrders.tsx:105-114 | an order is shown exactly when listed, its customer name, plate or id contains the lower-cased term, and it has the selected status unless 'all'; the result keeps list order |
| WorkOrders.EmptySearchKeepsStatus | src/pages/operations/WorkOrders.tsx:106-111 | since the id is always searched, the empty term keeps every order of the selected status, and with 'all' the whole list |
| WorkOrders.StatusBadge | src/pages/operations/WorkOrders.tsx:117-127 | a status in the record gets its own badge, any other status the 'pending' one |
| WorkOrders.PaymentBadge | src/pages/operations/WorkOrders.tsx:130-139 | a payment status in the record gets its own badge, any other the 'pending' one |
| WorkOrders.BadgeFallbacks | src/pages/operations/WorkOrders.tsx:117-139 | 'draft' and every status outside the record show "Pendente"; in_progress, completed and cancelled differ from it; an unknown payment status shows the pending badge, partial and paid do not |
| WorkOrders.RevenueOfCompleted | src/pages/operations/WorkOrders.tsx:147-149 | the revenue card is the sum over all orders of the total of each completed one, a missing total and any other status adding nothing |
| WorkOrders.StatusCardsWithinTotal | src/pages/operations/WorkOrders.tsx:142-146 | the draft, in-progress and completed cards add up to at most the total card |
| WorkOrders.MoneyCardsNonnegative | src/pages/operations/WorkOrders.tsx:147-152 | with no negative totals, the revenue and pending-payment cards are not negative |
| BirthdayService.Selected | src/services/birthdayService.ts:78-132 | the customers the loop keeps: SelectedMembers says exactly which birthdays are listed and with which day counts |
| BirthdayService.MonthDay | src/services/birthdayService.ts:81 | a five-character date gives a month and day exactly when it is two digits, '-' and two digits |
| BirthdayService.JsDateOfMonth | src/services/birthdayService.ts:84-113 | for a month 1-12, the date built is the first of that month plus day - 1, so the calendar date itself for a day within the month |
| BirthdayService.Decide | src/services/birthdayService.ts:79-120 | a customer is only ever included with a five-character birth date, and never with more days to go than the lead time |
| BirthdayService.SelectedMembers | src/services/birthdayService.ts:78-132 | a birthday is listed exactly when some fetched customer's turn of the loop included it, with the days that turn computed |
| BirthdayService.NextYearNotBefore | src/services/birthdayService.ts:109-119 | next year's birthday is never before today, and is after today for a day of at least 1 |
| BirthdayService.ThisYearIsToday | src/services/birthdayService.ts:84-96 | this year's birthday is today exactly when today has the stored month and day |
| BirthdayService.IncludedWithinLead | src/services/birthdayService.ts:107-119 | for a month 01-12, a listed birthday is 0 to lead-time days away |
| BirthdayService.TodayIffSameMonthDay | src/services/birthdayService.ts:107-128 | for a valid MM-DD, the customer is listed with 0 days to go, the is_today case, exactly when today has that month and day |
| BirthdayService.InsertByDays | src/services/birthdayService.ts:135 | inserting into a list sorted by days to go keeps it sorted and adds exactly the new entry |
| BirthdayService.SortByDays | src/services/birthdayService.ts:135 | the result is sorted closest first and is a permutation of its input |
| BirthdayService.Visit | src/services/birthdayService.ts:78-131 | one turn of the forEach appends exactly the list function's part for that customer |
| BirthdayService.GetUpcomingBirthdays | src/services/birthdayService.ts:61-136 | a settings or customers error is thrown on; disabled notifications give the empty list; otherwise the result is sorted closest first and is a permutation of the birthdays the loop selects |
| Masks.MaskCPF | src/utils/masks.ts:5-12 | the CPF mask: MaskCPFShape gives the output's exact shape per digit count, MaskCPFDigits keeps the first eleven digits in order, MaskKeepsCpfVerdict keeps validateCPF's verdict on inputs of at most eleven digits |
| Masks.MaskPhone | src/utils/masks.ts:14-26 | the phone mask: MaskPhoneShape gives the output's exact shape per digit count, MaskPhoneDigits keeps the first eleven digits in order |
| Masks.MaskLicensePlate | src/utils/masks.ts:28-42 | the plate mask: MaskLicensePlateContent says it only inserts a '-' into the cleaned plate cut to seven characters |
| Masks.ValidateLicensePlate | src/utils/masks.ts:74-85 | the plate check: OldPlateAccepted and MercosulPlateAccepted accept the two formats, TwoLetterPlateRejected and PlateExamples fix examples, ValidatePlateIgnoresSeparators and ValidatePlateIgnoresCase state what the cleaning ignores |
| Masks.FirstRun | src/utils/masks.ts:8-19 | the position found is the leftmost one at or after the start where the required number of consecutive digits begins, and none is found only when no such position exists |
| Masks.FirstTail | src/utils/masks.ts:11-20 | the position found holds '-' followed by the required digits and at least one more digit to the end, and none is found only when no position does |
| Masks.Unmask | src/utils/masks.ts:44-46 | the result is all digits and a subsequence of the input |
| Masks.UnmaskIdempotent | src/utils/masks.ts:44-46 | unmasking twice is unmasking once |
| Masks.UnmaskKeepsDigits | src/utils/masks.ts:44-46 | unmasking distributes over concatenation and keeps one character exactly when it is a digit, so the digits are kept in order, each occurrence counted |
| Masks.CleanPlate | src/utils/masks.ts:29-76 | the cleaned plate is no longer than the input and holds only upper-case letters and digits |
| Masks.MaskLicensePlateContent | src/utils/masks.ts:28-42 | the plate mask only inserts a '-': without it the output is the cleaned plate cut to seven characters, and the output is at most eight long |
| Masks.MaskCPFShape | src/utils/masks.ts:5-12 | the output is the digits themselves up to 3, "ddd.d…" up to 6, "ddd.ddd.d…" up to 9, and "ddd.ddd.ddd-dd" with at most two digits after the '-' beyond that |
| Masks.MaskCPFDigits | src/utils/masks.ts:5-12 | the output's digits are the first (at most) eleven digits of the input, in order |
| Masks.MaskPhoneShape | src/utils/masks.ts:14-26 | the output is the digits up to 2, "(dd) d…" up to 6, "(dd) dddd-d…" up to 10 digits and "(dd) ddddd-dddd" beyond, the last part cut to four digits |
| Masks.MaskPhoneDigits | src/utils/masks.ts:14-26 | the output's digits are the first (at most) eleven digits of the input, in order |
| Masks.CheckDigit | src/utils/masks.ts:59-68 | a check digit is always 0 to 9 |
| Masks.ValidateCPF | src/utils/masks.ts:48-72 | the verdict of the two accumulation loops is the CPF rule: eleven digits, not all equal, both check digits right |
| Masks.CpfValidNeedsElevenDistinct | src/utils/masks.ts:51-52 | a CPF without exactly eleven digits, or with one digit eleven times, is invalid |
| Masks.MaskKeepsCpfVerdict | src/utils/masks.ts:5-51 | masking an input of at most eleven digits never changes validateCPF's verdict |
| Masks.CpfExampleValid | src/utils/masks.ts:48-72 | 529.982.247-25 is a valid CPF |
| Masks.CpfExampleRepeated | src/utils/masks.ts:52 | 11111111111 is rejected although its check digits fit |
| Masks.CleanPlateConcat | src/utils/masks.ts:76 | cleaning distributes over concatenation |
| Masks.ValidatePlateIgnoresSeparators | src/utils/masks.ts:74-85 | inserting any non-alphanumeric character into a plate never changes the verdict |
| Masks.ValidatePlateIgnoresCase | src/utils/masks.ts:74-85 | a plate and its lower-cased form get the same verdict |
| Masks.CleanPlateOfClean | src/utils/masks.ts:76 | a text of upper-case letters and digits is already clean |
| Masks.OldPlateAccepted | src/utils/masks.ts:79-84 | three letters and four digits are accepted |
| Masks.MercosulPlateAccepted | src/utils/masks.ts:82-84 | three letters, a digit, a letter and two digits are accepted |
| Masks.TwoLetterPlateRejected | src/utils/masks.ts:78-85 | two letters followed by five digits fit neither format |
| Masks.PlateExamples | src/utils/masks.ts:74-85 | ABC1234 and BRA2E19 are accepted, AB12345 is not |
| Calculations.ItemsSubtotal | src/utils/calculations.ts:73-76 | the sum of price times quantity: ItemsSubtotalAppend adds one line at a time, ItemsSubtotalNonneg keeps it nonnegative, WorkOrderTotalParts ties it to the order total |
| Calculations.Total | src/utils/calculations.ts:176 | the sum of a list: TotalBounds bounds it by count times each bound, and Average is this sum over the count |
| Calculations.ItemsSubtotalEmpty | src/utils/calculations.ts:73-82 | an empty list of lines has subtotal 0 |
| Calculations.ItemsSubtotalAppend | src/utils/calculations.ts:73-76 | adding a line adds its price × quantity to the subtotal |
| Calculations.ItemsSubtotalNonneg | src/utils/calculations.ts:73-82 | lines with nonnegative prices and quantities give a nonnegative subtotal |
| Calculations.PercentageDiscount | src/utils/calculations.ts:31-36 | for a nonnegative amount and a percentage of 0 to 100 the discount lies between 0 and the amount; 100 % is the whole amount, 0 % nothing |
| Calculations.ApplyDiscount | src/utils/calculations.ts:41-50 | a zero discount keeps the amount; a fixed discount plus the result is the amount; a percentage leaves amount × (100 − discount) / 100 |
| Calculations.WorkOrderTotal | src/utils/calculations.ts:60-102 | subtotal is the sum of the two subtotals; the discount amount is the percentage of the subtotal or the raw value; the total is never negative, is 0 or subtotal − discount, is at most the subtotal for a nonnegative discount and equals it for none |
| Calculations.WorkOrderTotalParts | src/utils/calculations.ts:73-93 | each subtotal is the sum over its own list, and with no lines the subtotal is 0 and so is the total for a nonnegative discount |
| Calculations.Change | src/utils/calculations.ts:114-116 | the change is never negative; with enough paid, total + change is what was paid, otherwise it is 0 |
| Calculations.ProfitMargin | src/utils/calculations.ts:128-134 | 0 for zero revenue instead of dividing; otherwise margin × revenue is (revenue − cost) × 100, so no cost is 100 % |
| Calculations.Average | src/utils/calculations.ts:174-178 | 0 for an empty list; otherwise the mean times the count is the sum |
| Calculations.TotalBounds | src/utils/calculations.ts:176 | the sum of values between two bounds lies between count × each bound |
| Calculations.AverageBounds | src/utils/calculations.ts:174-178 | the mean of a non-empty list lies between any lower and upper bound of its values |
| Calculations.PercentageOfTotal | src/utils/calculations.ts:183-189 | 0 for a zero total; otherwise the result × total is value × 100, so a value equal to the total is 100 % |
| DateTime.ShiftDaysFacts | src/utils/datetime.ts:106-109 | moving k calendar days keeps the time of day and moves the day number by k |
| DateTime.StartOfDay | src/utils/datetime.ts:44-48 | the start of the day is not after the instant, is on its day, at time of day 0 |
| DateTime.EndOfDay | src/utils/datetime.ts:53-57 | the end of the day is not before the instant, is on its day, at 23:59:59.999, 86399999 ms after the start |
| DateTime.DayBounds | src/utils/datetime.ts:44-57 | every instant of a day lies between that day's start and end, and both are fixed points |
| DateTime.OverlapSymmetric | src/utils/datetime.ts:62-69 | the overlap test is symmetric in its two ranges |
| DateTime.TouchingRangesDoNotOverlap | src/utils/datetime.ts:68 | a range ending where the other starts does not overlap it, either way round |
| DateTime.OverlapMeansCommonInstant | src/utils/datetime.ts:62-69 | for non-empty ranges the test holds exactly when some instant lies in both half-open ranges |
| DateTime.DurationInMinutes | src/utils/datetime.ts:74-76 | the result is the whole number of minutes in the gap, rounded down |
| DateTime.AddMinutes | src/utils/datetime.ts:81-83 | the new instant is minutes × 60000 ms later |
| DateTime.AddMinutesRoundTrip | src/utils/datetime.ts:74-83 | the duration from t to t plus m minutes is m, for every whole m |
| DateTime.BusinessHoursWindow | src/utils/datetime.ts:88-91 | business hours are exactly the times of day from 08:00 up to, not including, 18:00 |
| DateTime.WeekDayStep | src/utils/datetime.ts:96-106 | one calendar day later is the next day of the week |
| DateTime.NextBusinessDay | src/utils/datetime.ts:104-113 | the result is not on a weekend, is 1 to 3 calendar days later at the same time of day, and every day skipped on the way is a weekend day |
| DateTime.DaysInMonth | src/utils/datetime.ts:11-13 | every month has 28 to 31 days |
| DateTime.CivilFromDays | src/utils/datetime.ts:11-13 | the date read from a day number is a valid date whose day number is that number |
| DateTime.DaysFromCivilInjective | src/utils/datetime.ts:11-13 | distinct valid dates have distinct day numbers |
| DateTime.CivilRoundTrip | src/utils/datetime.ts:11-13 | reading back a valid date's day number gives the date |
| DateTime.Pad2 | src/utils/datetime.ts:11-12 | a number below 100 prints as two digits that read back as the number |
| DateTime.FormatDate | src/utils/datetime.ts:9-15 | the text is DD/MM/ then the year, the day and the month two digits each, and they read back as the local calendar date |
| DateTime.FormatDateExample | src/utils/datetime.ts:9-15 | the epoch formats as 01/01/1970 |
| CustomerForm.FormatPhone | src/components/booking/CustomerForm.tsx:19-25 | exactly eleven digits become "(DD) DDDDD-DDDD" in their order; fewer than eleven give the bare digits; more than eleven give the input as typed |
| CustomerForm.FormatPhoneDigits | src/components/booking/CustomerForm.tsx:19-22 | the formatted phone holds the same eleven digits |
| CustomerForm.FormatPhoneIdempotent | src/components/booking/CustomerForm.tsx:19-25 | formatting an eleven-digit phone's display form again gives it back |
| CustomerForm.FormatPlate | src/components/booking/CustomerForm.tsx:27-29 | the plate is at most seven characters, each A-Z or 0-9 |
| CustomerForm.FormatPlateLength | src/components/booking/CustomerForm.tsx:28 | the plate has the seven characters the booking page demands exactly when the input holds at least seven letters and digits |
| CustomerForm.FormatPlateIdempotent | src/components/booking/CustomerForm.tsx:28 | formatting a formatted plate changes nothing |
| CompanySettings.Hyphenate | src/pages/settings/CompanySettings.tsx:82 | the result holds only a-z, 0-9 and '-', never two hyphens in a row, is empty only for the empty input, and starts with '-' exactly when the input starts outside a-z0-9 |
| CompanySettings.StripLeading | src/pages/settings/CompanySettings.tsx:83 | the result is a suffix of its input that does not start with '-' |
| CompanySettings.StripTrailing | src/pages/settings/CompanySettings.tsx:83 | the result is a prefix of its input that does not end with '-' |
| CompanySettings.GenerateSlug | src/pages/settings/CompanySettings.tsx:77-84 | the slug holds only a-z, 0-9 and single hyphens, and starts and ends with neither |
| CompanySettings.HyphenateOfSlug | src/pages/settings/CompanySettings.tsx:82 | a text already in slug shape is its own hyphenation |
| CompanySettings.GenerateSlugIdempotent | src/pages/settings/CompanySettings.tsx:77-84 | generating a slug from a generated slug gives it back |
| CompanySettings.HyphenateKeepsAlnum | src/pages/settings/CompanySettings.tsx:82 | hyphenating keeps every letter and digit in order and adds none |
| CompanySettings.GenerateSlugKeepsAlnum | src/pages/settings/CompanySettings.tsx:77-84 | the slug holds exactly the a-z and 0-9 characters of the lower-cased name, in order |
| CompanySettings.Sanitize | src/pages/settings/CompanySettings.tsx:96 | the sanitized slug holds only a-z, 0-9 and '-' and is no longer than the input |
| CompanySettings.SanitizeIdempotent | src/pages/settings/CompanySettings.tsx:96 | sanitizing twice is sanitizing once |
| CompanySettings.SanitizeKeepsSlugs | src/pages/settings/CompanySettings.tsx:96 | a slug already of a-z, 0-9 and '-' passes unchanged |
| CompanySettings.CompanyFormState.HandleNameChange | src/pages/settings/CompanySettings.tsx:86-92 | the name is stored and the slug regenerated from it, the other fields kept |
| CompanySettings.CompanyFormState.HandleSlugChange | src/pages/settings/CompanySettings.tsx:94-98 | only the slug changes, to its sanitized form, which holds only slug characters |
| CompanySettings.SaveValidation | src/pages/settings/CompanySettings.tsx:100-115 | the checks pass exactly when a company exists and name, slug and e-mail are not blank; no company is reported first, then a blank name, then a blank slug, then a blank e-mail |
| CompanySettings.SaveCompany | src/pages/settings/CompanySettings.tsx:100-149 | a failed check is the outcome; past the checks the company is saved exactly when the update succeeds, and the slug is reported taken exactly for error code 23505 |
| CompanySettings.RoleLabel | src/pages/settings/CompanySettings.tsx:166-174 | the four known roles get a non-empty label different from the role, and any other role is shown as it is |
| SignUp.CompanySlug | src/pages/auth/SignUp.tsx:60-71 | the slug derived from the company name: CompanySlugShape keeps it to a-z, 0-9 and inner hyphens, CompanySlugIsGenerateSlug equals it to the settings page's slug |
| SignUp.SubmitGate | src/pages/auth/SignUp.tsx:22-39 | a password mismatch is reported first, then a password under 6 characters; the consent check fails exactly when the passwords agree and are long enough and a consent is missing; sign-up proceeds exactly when all three pass |
| SignUp.StripOneHyphen | src/pages/auth/SignUp.tsx:69 | removing one hyphen at each end never lengthens the text |
| SignUp.StripOneIsStripAll | src/pages/auth/SignUp.tsx:68-69 | after hyphenation, removing one hyphen at each end removes every leading and trailing hyphen |
| SignUp.CompanySlugIsGenerateSlug | src/pages/auth/SignUp.tsx:60-71 | the sign-up page and the settings page derive the same slug from a name |
| SignUp.CompanySlugShape | src/pages/auth/SignUp.tsx:64-69 | the sign-up slug uses only a-z, 0-9 and '-', without a hyphen at either end |
| SignUp.SignUpPage.constructor | src/pages/auth/SignUp.tsx:1-21 | the form starts empty, not loading, with neither consent given |
| SignUp.SignUpPage.HandleCompanyNameChange | src/pages/auth/SignUp.tsx:60-71 | only the company name and its slug change |
| SignUp.SignUpPage.HandleSubmit | src/pages/auth/SignUp.tsx:22-57 | the gate is computed on the current form; sign-up is called exactly when the gate passes, the page navigates exactly when that call succeeds, and loading ends after a call; the form is untouched |
| PublicBooking.ErrorsEmptyIffValid | src/pages/public/PublicBooking.tsx:107-129 | the error record is empty exactly when name, phone (at least 11 digits), model and plate (7 characters) are all valid |
| PublicBooking.SetFieldKeepsOtherVerdicts | src/pages/public/PublicBooking.tsx:95-96 | changing one field leaves every other validated field as it was |
| PublicBooking.Page.ValidateCustomerStep | src/pages/public/PublicBooking.tsx:107-129 | the error record is rebuilt from scratch with the required or invalid message of each failing field, and the step passes exactly when it is empty, that is when the step is valid |
| PublicBooking.Page.HandleFieldChange | src/pages/public/PublicBooking.tsx:95-105 | the value is written, the step kept, and only that field's error removed |
| PublicBooking.Page.HandleNext | src/pages/public/PublicBooking.tsx:131-141 | on the customer step the errors are recomputed and the submission starts exactly when the step is valid; on any other step the flow advances one step and the errors are kept; the data never changes |
| ImageProcessing.ValidateImageFile | src/utils/imageProcessing.ts:141-162 | a file is accepted exactly when its type is one of the six image types and its size is at most 10 MiB; a wrong type is reported before the size |
| ImageProcessing.ImageSizeBoundary | src/utils/imageProcessing.ts:151-158 | a PNG of exactly 10485760 bytes is accepted and one byte more is too large; a GIF is refused for its format |
| ImageProcessing.Round | src/utils/imageProcessing.ts:133-134 | the rounded value is within half a unit of its argument, halves going up |
| ImageProcessing.ScaledSize | src/utils/imageProcessing.ts:114-130 | an image within both bounds keeps its size; otherwise the longer side (width when strictly wider) takes its bound; the aspect ratio is always kept |
| ImageProcessing.CalculateDimensions | src/utils/imageProcessing.ts:108-136 | the dimensions are the scaled sizes rounded to whole pixels |
| ImageProcessing.FittingImageUnchanged | src/utils/imageProcessing.ts:118-135 | a whole-pixel image within the bounds comes back at its own size |
| ImageProcessing.SquareBoundFits | src/utils/imageProcessing.ts:108-136 | under equal width and height bounds, the scaled size fits within them |
| ImageProcessing.NonSquareBoundExample | src/utils/imageProcessing.ts:118-129 | under a 1920×1080 bound a 2000×1500 image becomes 1920×1440, taller than its bound |
| StorageService.ValidateFile | src/services/storageService.ts:95-107 | a logo passes exactly when it is at most 2 MiB and of one of the five types; the size is checked first |
| StorageService.LastSegment | src/services/storageService.ts:23 | the segment has no '.', is a suffix of the name preceded by a '.' when shorter, and is the whole name when there is no '.' |
| StorageService.LastSegmentSplit | src/services/storageService.ts:23 | a name with a '.' is its prefix, a '.' and the segment |
| StorageService.LogoPath | src/services/storageService.ts:25 | the path starts with the company id followed by "/logo-" |
| StorageService.LogoPathExtension | src/services/storageService.ts:23-25 | the path ends with a '.' and the file's extension |
| StorageService.DeleteCompanyLogo | src/services/storageService.ts:53-79 | a failed listing removes nothing and rethrows its error unless the message mentions "not found"; otherwise one path per listed file, the company folder and its name, is asked for removal; whatever is thrown never mentions "not found"; an empty folder or a successful removal throws nothing |
| StorageService.DeleteErrorFilter | src/services/storageService.ts:70-77 | a failed removal is thrown on exactly when its message does not mention "not found" |
| BookingFlow.StepIndex | src/hooks/useBookingFlow.ts:45-139 | the index is a position of STEPS that holds the step |
| BookingFlow.StepsDistinct | src/hooks/useBookingFlow.ts:45 | the steps are totally ordered: two steps share an index exactly when they are equal, and each STEPS position holds its own index |
| BookingFlow.NextStep | src/hooks/useBookingFlow.ts:82-87 | every step but confirmation moves one index forward, and confirmation stays |
| BookingFlow.PrevStep | src/hooks/useBookingFlow.ts:89-94 | every step but service moves one index back, and service stays |
| BookingFlow.BackAfterNext | src/hooks/useBookingFlow.ts:82-94 | going back after going forward returns to the step, except from confirmation, which goes to the customer step |
| BookingFlow.NextAfterBack | src/hooks/useBookingFlow.ts:82-94 | going forward after going back returns to any step but the first |
| BookingFlow.MergeLaws | src/hooks/useBookingFlow.ts:78-80 | an empty update changes nothing, and the same update applied twice is applied once |
| BookingFlow.MergeOneField | src/hooks/useBookingFlow.ts:78-80 | an update naming only the customer name changes only that field |
| BookingFlow.CanGoNextAt | src/hooks/useBookingFlow.ts:110-128 | the per-step continue rule as a function of step and data; CanGoNextFacts and UpdatesOpenSteps say when it holds |
| BookingFlow.CanGoNextFacts | src/hooks/useBookingFlow.ts:110-128 | the initial data can continue from none of the first three steps, and nothing continues from confirmation |
| BookingFlow.UpdatesOpenSteps | src/hooks/useBookingFlow.ts:110-128 | updating the service id opens the service step exactly for a non-empty id; a date with a time opens the date step exactly for a non-empty time |
| BookingFlow.Flow.constructor | src/hooks/useBookingFlow.ts:29-50 | a wizard starts at the service step with the initial data |
| BookingFlow.Flow.Index | src/hooks/useBookingFlow.ts:139-140 | the index is at most 3, below the four steps |
| BookingFlow.Flow.CanGoNext | src/hooks/useBookingFlow.ts:110-128 | canGoNext of the current step and data, the rule CanGoNextFacts and UpdatesOpenSteps describe |
| BookingFlow.Flow.UpdateData | src/hooks/useBookingFlow.ts:78-80 | the data becomes the merge of the old data and the update, the step is kept |
| BookingFlow.Flow.GoNext | src/hooks/useBookingFlow.ts:82-87 | the step moves forward, one index unless at confirmation, and the data is kept |
| BookingFlow.Flow.GoBack | src/hooks/useBookingFlow.ts:89-94 | the step moves back, one index unless at service, and the data is kept |
| BookingFlow.Flow.GoToStep | src/hooks/useBookingFlow.ts:96-98 | the step is set as given, the data kept |
| BookingFlow.Flow.Reset | src/hooks/useBookingFlow.ts:100-108 | the wizard is back at the service step with the initial data |
| BumpVersion.Parse | scripts/bump-version.js:27 | the three numbers of a version string: ParseFormat makes it the inverse of Format |
| BumpVersion.Format | scripts/bump-version.js:38 | the three numbers joined with dots: ParseFormat parses it back to the version |
| BumpVersion.PrecedesIsStrictOrder | scripts/bump-version.js:26-39 | the version order is irreflexive, asymmetric, transitive and total |
| BumpVersion.Bumped | scripts/bump-version.js:26-39 | major increments the first part and zeroes the rest, minor increments the second and zeroes the third, any other kind increments the third |
| BumpVersion.BumpIncreases | scripts/bump-version.js:26-39 | every bump gives a strictly later version |
| BumpVersion.BumpParts | scripts/bump-version.js:27-37 | the parts array updated in place holds the bumped version, strictly later than before |
| BumpVersion.SplitWithoutDot | scripts/bump-version.js:27 | splitting at dots peels off the text before the first '.', and a text without '.' is one part |
| BumpVersion.ParseFormat | scripts/bump-version.js:27-38 | a version joined with dots parses back to itself |
| BumpVersion.BumpVersion | scripts/bump-version.js:26-39 | a result exists exactly for a three-number version; it parses to the bumped version, strictly later than the input |
| BumpVersion.VersionData.AddRelease | scripts/bump-version.js:125-133 | a missing list starts empty, the new release is put first with the old list after it, and the top-level version and date are the release's |
| BumpVersion.AutoRelease | scripts/bump-version.js:98-123 | the automatic release carries the new version, today's date, the kind and no notes |
| BumpVersion.LineEnd | scripts/bump-version.js:141-148 | the first line break at or after a position, or the end of the text |
| BumpVersion.FirstMatch | scripts/bump-version.js:47-51 | the match found is the leftmost one, and none is found only when no position starts one |
| BumpVersion.UpdateFile | scripts/bump-version.js:41-54 | a missing file or a file without a match is not written; anything written had a match |
| BumpVersion.UpdateFileSplices | scripts/bump-version.js:46-52 | the written file keeps the text before and after the leftmost match, which holds no line break, and puts the replacement in its place |
| BumpVersion.WholeLineMatches | scripts/bump-version.js:141-148 | a declaration line with a value free of quotes and line breaks is matched from its start to its closing quote |
| BumpVersion.UpdateFileFindsConstant | scripts/bump-version.js:139-143 | the one-line APP_VERSION declaration is rewritten to the new version |
| PortalService.SessionAt | src/services/portalService.ts:68-86 | a session is found only when the stored entry is that session, not yet expired |
| PortalService.Portal.CreateSession | src/services/portalService.ts:55-63 | only the session entry is rewritten, expiring two hours after now |
| PortalService.Portal.GetSession | src/services/portalService.ts:68-86 | the answer is the session the store holds at now; an expired or unreadable entry is removed and nothing else changes |
| PortalService.Portal.IsSessionValid | src/services/portalService.ts:91-94 | valid exactly when getSession finds a session, with its side effect on the store |
| PortalService.Portal.ClearSession | src/services/portalService.ts:99-101 | only the session entry is removed |
| PortalService.Portal.ValidateCode | src/services/portalService.ts:27-50 | the code is accepted exactly when the call answers success; a session is created then, and otherwise the store is untouched |
| PortalService.SessionLifetime | src/services/portalService.ts:5-86 | a fresh session is found up to and including two hours after its creation and not one millisecond later, for the same customer |
| PortalService.ClearedStoreHasNoSession | src/services/portalService.ts:99-101 | after clearing nothing is found and nothing more is removed |
| PortalService.GetSessionStable | src/services/portalService.ts:68-86 | reading twice gives the same answer as reading once |
| PortalService.Latin1Bytes | src/services/portalService.ts:168 | the bytes exist exactly when every character is below 256, and then are the characters' codes |
| PortalService.BytesText | src/services/portalService.ts:156 | the text's characters are the bytes' codes |
| PortalService.EncryptCustomerId | src/services/portalService.ts:165-169 | an id is encoded exactly when all its characters are Latin-1 |
| PortalService.DecryptCustomerId | src/services/portalService.ts:152-160 | a link decodes exactly when it is valid base64, and otherwise fails with "Link inválido" |
| PortalService.DecryptEncrypt | src/services/portalService.ts:152-169 | every id that can be put in a link is recovered from it |
| Base64.Encode | src/services/portalService.ts:168 | btoa with the standard alphabet and padding: EncodeLength gives 4 ⌈n/3⌉ characters, DecodeEncode makes Decode its inverse |
| Base64.Decode | src/services/portalService.ts:156-158 | atob, None where it throws: DecodeEncode inverts Encode, DecodePadded drops exactly the encoder's padding, DecodeRejectsLoneCharacter rejects a single character |
| Base64.Value | src/services/portalService.ts:156 | a character's value, when it has one, is below 64 and maps back to the character; '=' has none |
| Base64.ValueOfChar | src/services/portalService.ts:156-168 | every 6-bit value's character reads back as the value |
| Base64.SplitJoin | src/services/portalService.ts:156-168 | three bytes split into four 6-bit values and joined again are the same bytes |
| Base64.SextetsLength | src/services/portalService.ts:168 | four characters per whole group of three bytes, and two or three for a final group of one or two |
| Base64.EncodeLength | src/services/portalService.ts:168 | the encoding is 4 ⌈n/3⌉ characters, whole groups of four |
| Base64.DecodePadded | src/services/portalService.ts:156 | decoding drops exactly the padding the encoder adds |
| Base64.DecodeEncode | src/services/portalService.ts:156-168 | decoding an encoding gives back the bytes |
| Base64.DecodeRejectsLoneCharacter | src/services/portalService.ts:156-158 | a single character is not valid base64 |
| AntiBanClient.Rank | src/services/whatsapp/anti-ban-client.ts:74 | the sort key high 0, normal 1, low 2; ArrangeSorted orders the queue by it and ArrangeStable keeps queueing order among equal keys |
| AntiBanClient.Arrange | src/services/whatsapp/anti-ban-client.ts:73-76 | the priority sort of the queue: ArrangePermutes keeps every message, ArrangeSorted orders high before normal before low, ArrangeStable keeps queueing order within a priority, QueuedLast puts a new message after its priority's earlier ones |
| AntiBanClient.ArrangeSorted | src/services/whatsapp/anti-ban-client.ts:73-76 | after each queueing the queue is ordered high before normal before low |
| AntiBanClient.ArrangeCounts | src/services/whatsapp/anti-ban-client.ts:73-76 | the three priority groups together hold exactly the queued messages |
| AntiBanClient.ArrangePermutes | src/services/whatsapp/anti-ban-client.ts:73-76 | the sort is a permutation of the queue: no message lost or duplicated |
| AntiBanClient.ArrangeStable | src/services/whatsapp/anti-ban-client.ts:73-76 | the sort keeps the queueing order within each priority |
| AntiBanClient.QueuedLast | src/services/whatsapp/anti-ban-client.ts:70-76 | a newly queued message comes after every earlier message of its priority |
| AntiBanClient.IsBusinessHours | src/services/whatsapp/anti-ban-client.ts:246-250 | the sending window; BusinessHoursWindow makes it exactly 08:00 up to, not including, 20:00, and Client.Tick sends nothing outside it |
| AntiBanClient.BusinessHoursWindow | src/services/whatsapp/anti-ban-client.ts:246-250 | messages go out exactly from 08:00 up to but not including 20:00 |
| AntiBanClient.IsBanError | src/services/whatsapp/anti-ban-client.ts:268-284 | a message is a ban error when its lower-cased text contains one of the eight keywords; BanErrorIgnoresCase and BanKeywordDetected, and Client.CompleteSend empties the queue on one |
| AntiBanClient.BanErrorIgnoresCase | src/services/whatsapp/anti-ban-client.ts:268-284 | the ban check ignores the letter case of the error message |
| AntiBanClient.BanKeywordDetected | src/services/whatsapp/anti-ban-client.ts:268-284 | a message containing a ban keyword such as 403 anywhere is a ban error |
| AntiBanClient.FormatPhone | src/services/whatsapp/anti-ban-client.ts:255-263 | the address is the country-prefixed digits of the number, starting with 55, followed by @s.whatsapp.net |
| AntiBanClient.Client.constructor | src/services/whatsapp/anti-ban-client.ts:19-23 | empty queue, nothing sent, the day counter reset now, not processing |
| AntiBanClient.Client.QueueMessage | src/services/whatsapp/anti-ban-client.ts:45-79 | refused exactly when 50 messages were already sent today, queue unchanged; otherwise the message (priority normal unless given) joins and the queue is re-sorted by priority; counters unchanged |
| AntiBanClient.Client.Tick | src/services/whatsapp/anti-ban-client.ts:84-138 | resets the day counter when the day of month changed; starts sending exactly when the queue is non-empty, nothing is in flight, under 50 today, within business hours and the random delay has passed since the last message; then takes the head of the queue |
| AntiBanClient.Client.CompleteSend | src/services/whatsapp/anti-ban-client.ts:143-205 | a success records the send time and counts one more message; a ban error empties the queue; any other error changes no counter; processing ends either way |
| AntiBanClient.Client.GetStats | src/services/whatsapp/anti-ban-client.ts:363-373 | queue size, count, limit 50, remaining, last send time (null when none), business-hours flag and processing flag of the current state |
| AntiBanClient.Client.ClearQueue | src/services/whatsapp/anti-ban-client.ts:378-382 | empties the queue and changes nothing else |
| WhatsAppHealth.VolumePoints | src/pages/admin/whatsapp-health.tsx:75-78 | 40, 25, 15 or 0 points for a daily ratio above 0.9, 0.7, 0.5 or not; 40 exactly above 0.9 and 0 exactly at or below 0.5 |
| WhatsAppHealth.QueuePoints | src/pages/admin/whatsapp-health.tsx:81-83 | 0 points exactly up to 10 queued messages, 30 exactly above 30 |
| WhatsAppHealth.AlertPoints | src/pages/admin/whatsapp-health.tsx:86-88 | 30 points exactly when some alert is critical; 15 exactly when none is and there are more than five |
| WhatsAppHealth.RiskScoreOf | src/pages/admin/whatsapp-health.tsx:69-91 | the score lies in 0..100 and is 0 without stats |
| WhatsAppHealth.CalculateRiskScore | src/pages/admin/whatsapp-health.tsx:69-91 | the running sum equals the capped sum of the three factors |
| WhatsAppHealth.WorstCaseIsCapped | src/pages/admin/whatsapp-health.tsx:90 | the worst case of every factor reaches exactly 100, and an idle instance scores 0 |
| WhatsAppHealth.ScoreMonotoneInQueue | src/pages/admin/whatsapp-health.tsx:81-83 | a longer queue never lowers the score |
| WhatsAppHealth.ScoreMonotoneInCount | src/pages/admin/whatsapp-health.tsx:75-78 | more messages sent today never lower the score |
| WhatsAppHealth.HealthStatus | src/pages/admin/whatsapp-health.tsx:93-115 | healthy exactly below 30, attention exactly from 30 below 60, critical exactly from 60 |
| WhatsAppHealth.HealthExamples | src/pages/admin/whatsapp-health.tsx:69-115 | a page without stats is healthy; on an idle instance any critical alert alone means attention |
| Availability.CacheKey | src/hooks/useAvailability.ts:44 | the key is company, date and duration joined by hyphens, the duration printed in decimal |
| Availability.Lookup | src/hooks/useAvailability.ts:47-48 | a hit exactly when an entry exists for the key and is younger than five minutes, giving its data |
| Availability.Hook.constructor | src/hooks/useAvailability.ts:33-35 | no slots, not loading, no error |
| Availability.Hook.FetchSlots | src/hooks/useAvailability.ts:37-80 | skipped exactly when disabled or without date or company, clearing the slots; a fresh cache entry is served without the RPC; otherwise the RPC's slots (null as empty) are shown and cached with their arrival time, or an error (default message) is shown with no slots |
| Availability.StoredEntryLifetime | src/hooks/useAvailability.ts:25-72 | a stored entry is served back exactly for the next five minutes |
| Availability.OtherKeysUntouched | src/hooks/useAvailability.ts:69-72 | storing under one key never changes what another key finds |
| Availability.DurationSeparatesKeys | src/hooks/useAvailability.ts:44 | requests differing only in the service duration never share a cache entry |
| NotificationService.StockCandidates | src/services/notificationService.ts:153-157 | the candidates are the products with a nonzero minimum and stock at most 120 % of it, in query order |
| NotificationService.StockClassesPartition | src/services/notificationService.ts:166-169 | every candidate is counted as critical or as low and never as both |
| NotificationService.StockBoundaries | src/services/notificationService.ts:155-169 | stock equal to the minimum is low and not critical, 120 % of it is still low, above that or with a zero minimum no candidate |
| NotificationService.StockNotifications | src/services/notificationService.ts:171-187 | at most a critical and a low notification, each with a positive count |
| NotificationService.StockNotificationsShown | src/services/notificationService.ts:159-187 | a check with candidates shows something, the critical notification exactly when a candidate is below its minimum |
| NotificationService.AppointmentNotifications | src/services/notificationService.ts:116-133 | one notification per appointment, each tagged with that appointment's id |
| NotificationService.Service.constructor | src/services/notificationService.ts:5-16 | no interval and every last-check time 0 |
| NotificationService.Service.StartPeriodicChecks | src/services/notificationService.ts:54-62 | keeps the new interval's handle, changing no last-check time |
| NotificationService.Service.StopPeriodicChecks | src/services/notificationService.ts:64-69 | a truthy handle is cleared and returned for clearInterval; otherwise nothing changes |
| NotificationService.Service.CheckAppointments | src/services/notificationService.ts:89-141 | with appointments found and the last batch over 30 minutes old, records now and shows one notification per appointment; otherwise shows nothing and records nothing |
| NotificationService.Service.CheckStock | src/services/notificationService.ts:143-193 | with candidates and the last stock check over an hour old, records now and shows the stock notifications; otherwise nothing |
| NotificationService.Service.CheckReceivables | src/services/notificationService.ts:195-231 | with receivables due and the last summary over four hours old, records now and shows one summary with their number; otherwise nothing |
| NotificationService.Service.CheckAll | src/services/notificationService.ts:71-87 | nothing unless the permission is granted; otherwise the three checks' notifications and last-check times, each check under its own cooldown |
| NotificationService.CooldownSilences | src/services/notificationService.ts:113 | a check stays silent for its whole cooldown after firing; once every cooldown has passed each check fires exactly when its query has something to report |
| NotificationService.Registry.constructor | src/services/notificationService.ts:4 | no instance yet |
| NotificationService.Registry.GetInstance | src/services/notificationService.ts:18-23 | creates the service on first use and returns the same instance afterwards |
| ServiceSelector.FilterServices | src/components/operations/ServiceSelector.tsx:53-57 | a catalogue service is listed exactly when its name or its description contains the term, ignoring case |
| ServiceSelector.EmptySearchListsAll | src/components/operations/ServiceSelector.tsx:53-57 | an empty search lists the whole catalogue in order |
| ServiceSelector.Updated | src/components/operations/ServiceSelector.tsx:65-69 | the map keeps the length and every item's service id |
| ServiceSelector.UpdatedAt | src/components/operations/ServiceSelector.tsx:65-69 | with unique ids the map changes exactly the matching item |
| ServiceSelector.UpdatedUnselected | src/components/operations/ServiceSelector.tsx:65-69 | a map for an id not in the selection changes nothing |
| ServiceSelector.AddService | src/components/operations/ServiceSelector.tsx:60-85 | a new service is appended with quantity 1 and its catalogue price and name; a selected one keeps the length |
| ServiceSelector.AddExisting | src/components/operations/ServiceSelector.tsx:61-70 | adding a selected service raises that item's quantity by one and changes nothing else |
| ServiceSelector.AddKeepsUnique | src/components/operations/ServiceSelector.tsx:60-85 | adding never lets a service appear twice, and the service is then selected |
| ServiceSelector.AddAllKeepsUnique | src/components/operations/ServiceSelector.tsx:60-85 | any sequence of adds keeps the ids unique and selects every service added |
| ServiceSelector.AddAllKeepsSelected | src/components/operations/ServiceSelector.tsx:60-85 | a selected service stays selected through any sequence of adds |
| ServiceSelector.RemoveService | src/components/operations/ServiceSelector.tsx:110-112 | the removed id is no longer selected and every other item is kept |
| ServiceSelector.RemoveUnselected | src/components/operations/ServiceSelector.tsx:110-112 | removing an id that is not selected changes nothing |
| ServiceSelector.RemoveAt | src/components/operations/ServiceSelector.tsx:110-112 | with unique ids removing a selected service deletes exactly its item, keeping the order of the rest |
| ServiceSelector.UpdateQuantity | src/components/operations/ServiceSelector.tsx:88-98 | a quantity of zero or less removes the service; a positive one keeps the length |
| ServiceSelector.UpdatePrice | src/components/operations/ServiceSelector.tsx:101-107 | a price edit keeps the length |
| ServiceSelector.EditsTouchOneItem | src/components/operations/ServiceSelector.tsx:88-107 | a positive quantity or a price edit sets only that field of the matching item |
| ServiceSelector.EditsKeepUnique | src/components/operations/ServiceSelector.tsx:88-112 | no edit creates a duplicate service |
| ServiceSelector.RemoveKeepsUnique | src/components/operations/ServiceSelector.tsx:110-112 | removal keeps the ids unique |
| ServiceSelector.Subtotal | src/components/operations/ServiceSelector.tsx:115-118 | the sum of price times quantity over the selection; SubtotalConcat, SubtotalSplit and SubtotalReplace make it additive, and the SubtotalAfter lemmas say how each edit moves it |
| ServiceSelector.SubtotalConcat | src/components/operations/ServiceSelector.tsx:115-118 | the subtotal of two lists joined is the sum of their subtotals |
| ServiceSelector.SubtotalSplit | src/components/operations/ServiceSelector.tsx:115-118 | the subtotal is the line totals before, at and after any position |
| ServiceSelector.SubtotalReplace | src/components/operations/ServiceSelector.tsx:115-118 | replacing one item changes the subtotal by the difference of the line totals |
| ServiceSelector.SubtotalAfterAddNew | src/components/operations/ServiceSelector.tsx:73-81 | adding a new service raises the subtotal by its catalogue price |
| ServiceSelector.SubtotalAfterAddExisting | src/components/operations/ServiceSelector.tsx:64-70 | adding a selected service raises the subtotal by one unit of that item's current price |
| ServiceSelector.SubtotalAfterRemove | src/components/operations/ServiceSelector.tsx:110-118 | removing a selected service lowers the subtotal by exactly its line total |
| ProductSelector.SelectedProduct.constructor | src/components/operations/ProductSelector.tsx:57-63 | the row object holds the given id, name, quantity, stock and unit |
| ProductSelector.SelectedProduct.InsufficientStock | src/components/operations/ProductSelector.tsx:172-177 | the row's "Estoque Insuficiente" warning; HandleAddProduct and HandleQuantityChange state when it shows after each change |
| ProductSelector.StockOrZero | src/components/operations/ProductSelector.tsx:61 | a null stock becomes 0, any other is kept |
| ProductSelector.FindIndex | src/components/operations/ProductSelector.tsx:46 | the index of the first row with the product's id, or -1 exactly when there is none |
| ProductSelector.HandleAddProduct | src/components/operations/ProductSelector.tsx:45-68 | a product already listed gets one more unit on its own shared row object, its stock warning then showing exactly when that quantity exceeds its stock, no other row changes and the same list is reported; a new product is appended as a fresh row with quantity 1, its stock (null as 0) and unit, warning exactly when that stock is below 1 |
| ProductSelector.SpliceOne | src/components/operations/ProductSelector.tsx:70-74 | splice(index, 1) removes the element at the index, counting a negative index from the end, and removes nothing past the end |
| ProductSelector.RemoveShifts | src/components/operations/ProductSelector.tsx:70-74 | removing a row keeps the earlier rows and moves each later row down by one |
| ProductSelector.HandleQuantityChange | src/components/operations/ProductSelector.tsx:76-81 | below 1 nothing changes and nothing is reported; otherwise the row object at the index takes the new quantity, its stock warning shows exactly when the quantity exceeds its stock, no other row or warning changes and the same list is reported |
| ProductSelector.FilterProducts | src/components/operations/ProductSelector.tsx:83-86 | a product is listed exactly when its name or SKU contains the term, ignoring case |
| ProductSelector.SearchIgnoresCase | src/components/operations/ProductSelector.tsx:83-86 | a term and its upper-cased form list the same products |
| SearchableSelect.FilterOptions | src/components/ui/SearchableSelect.tsx:60-63 | an option is listed exactly when its label, or a non-empty sub-label, contains the term ignoring case |
| SearchableSelect.FilterKeepsOrder | src/components/ui/SearchableSelect.tsx:60-63 | the listed options keep their order |
| SearchableSelect.EmptySearchShowsAll | src/components/ui/SearchableSelect.tsx:60-63 | an empty search lists every option |
| SearchableSelect.SelectedOption | src/components/ui/SearchableSelect.tsx:41 | none exactly when no option has the value; otherwise an option with that value |
| SearchableSelect.SelectedIsFirst | src/components/ui/SearchableSelect.tsx:41 | of several options with the value the first is selected |
| SearchableSelect.Select.constructor | src/components/ui/SearchableSelect.tsx:36-37 | closed with an empty search |
| SearchableSelect.Select.HandleSelect | src/components/ui/SearchableSelect.tsx:65-69 | reports the chosen value, closes the list and clears the search |
| SearchableSelect.Select.HandleClear | src/components/ui/SearchableSelect.tsx:71-75 | reports the empty value and clears the search, leaving the list open or closed |
| SearchableSelect.Select.Visible | src/components/ui/SearchableSelect.tsx:60-63 | after either handler the whole option list is shown |
| StringSort.Insert | src/pages/settings/BookingSettings.tsx:168 | inserting into a sorted list keeps it sorted and adds exactly the element |
| StringSort.Sort | src/pages/financial/Payables.tsx:131 | the default sort gives a sorted permutation of its input |
| StringSort.NoDuplicatesViaMultiset | src/pages/financial/Payables.tsx:131 | a list has no duplicates exactly when each element occurs at most once |
| StringSort.SortKeepsDistinct | src/pages/financial/Payables.tsx:131 | sorting a duplicate-free list keeps it duplicate-free with the same members |
| StringSort.Distinct | src/pages/financial/Payables.tsx:131 | Array.from(new Set(..)) is duplicate-free with exactly the input's members |
| AppointmentModal.SelectedServices | src/components/operations/AppointmentModal.tsx:137 | exactly the catalogue services whose id is selected, in catalogue order: the result is a subsequence of the catalogue, which is the order the title joins their names in |
| AppointmentModal.HandleServiceToggle | src/components/operations/AppointmentModal.tsx:126-147 | toggles the id in the selection, sets the duration to the selected services' sum (60 when that is 0) and the title to their names joined by " + ", keeping every other field |
| Seqs.ToggleTwice | src/components/operations/AppointmentModal.tsx:130-134 | toggling a service twice restores the selection |
| AppointmentModal.UnknownIdSelectsNothing | src/components/operations/AppointmentModal.tsx:137-139 | toggling an id the catalogue does not hold changes neither the selected services nor so the duration or title |
| AppointmentModal.SelectAddsDuration | src/components/operations/AppointmentModal.tsx:133-138 | selecting a catalogue service adds exactly its duration to the sum |
| AppointmentModal.TotalDurationConcat | src/components/operations/AppointmentModal.tsx:138 | the duration sum of two lists joined is the sum of their sums |
| AppointmentModal.NothingSelected | src/components/operations/AppointmentModal.tsx:138-144 | with nothing selected the duration falls back to 60 minutes and the title is empty |
| AppointmentModal.OneSelected | src/components/operations/AppointmentModal.tsx:138-144 | one selected service gives its own name as the title and, when nonzero, its own duration |
| AppointmentModal.HandleCustomerChange | src/components/operations/AppointmentModal.tsx:117-124 | sets the customer and clears the vehicle, keeping every other field; vehicles are loaded exactly for a non-empty customer |
| AppointmentModal.FindService | src/components/operations/AppointmentModal.tsx:209 | the first catalogue service with the id: no earlier catalogue entry has it; none exactly when the catalogue has no such id |
| AppointmentModal.ServiceRows | src/components/operations/AppointmentModal.tsx:207-216 | one row per selected id, in selection order, with the service's price and duration, or 0 for both when the id is not in the catalogue |
| BookingSettings.DefaultsFacts | src/pages/settings/BookingSettings.tsx:33-51 | the defaults configure every weekday, close only Sunday, end Saturday at 14:00 and block no date |
| BookingSettings.UpdateWorkingHours | src/pages/settings/BookingSettings.tsx:146-157 | sets one field of one day's hours; every other day and setting is unchanged |
| BookingSettings.AddBlockedDate | src/pages/settings/BookingSettings.tsx:159-171 | an empty input is ignored, a listed date is refused, otherwise the date is added and the list sorted, with exactly one element more |
| BookingSettings.AddKeepsNoDuplicates | src/pages/settings/BookingSettings.tsx:159-171 | the blocked-date list never holds a date twice |
| BookingSettings.RemoveBlockedDate | src/pages/settings/BookingSettings.tsx:173-178 | the date is removed and every other date is kept |
| BookingSettings.RemoveAt | src/pages/settings/BookingSettings.tsx:173-178 | in a duplicate-free list removal drops exactly that entry, keeping the order of the rest |
| BookingSettings.RemoveAbsent | src/pages/settings/BookingSettings.tsx:173-178 | removing a date that is not listed changes nothing |
| BookingSettings.RemoveKeepsSorted | src/pages/settings/BookingSettings.tsx:173-178 | removal keeps the list sorted |
| BookingSettings.LessIsNumeric | src/pages/settings/BookingSettings.tsx:168 | between digit strings of one length the string order is the numeric order |
| BookingSettings.IsoDateOrderIsChronological | src/pages/settings/BookingSettings.tsx:168 | the default string sort of YYYY-MM-DD dates is calendar order |
| BookingSettings.Page.constructor | src/pages/settings/BookingSettings.tsx:75-78 | the page starts from the defaults with an empty date input |
| BookingSettings.Page.HandleUpdateWorkingHours | src/pages/settings/BookingSettings.tsx:146-157 | the settings become the edited ones and every day stays configured |
| BookingSettings.Page.HandleAddBlockedDate | src/pages/settings/BookingSettings.tsx:159-171 | the input is cleared and the list replaced exactly when the date was added; otherwise nothing changes |
| BookingSettings.Page.HandleRemoveBlockedDate | src/pages/settings/BookingSettings.tsx:173-178 | only the blocked-date list changes, by the removal |
| NotificationContext.UnreadCount | src/contexts/NotificationContext.tsx:110 | at most the list's length, and 0 exactly when every notification is read |
| NotificationContext.MarkRead | src/contexts/NotificationContext.tsx:53-55 | the map keeps the list's length |
| NotificationContext.MarkAllRead | src/contexts/NotificationContext.tsx:73-75 | the map keeps the list's length |
| NotificationContext.MarkReadOnlyMatching | src/contexts/NotificationContext.tsx:53-55 | marking one id read leaves every other notification as it was and sets only the read flag of those with the id |
| NotificationContext.UnreadAfterMarkRead | src/contexts/NotificationContext.tsx:53-55 | the unread counter drops by the number of unread notifications carrying the id |
| NotificationContext.MarkReadIdempotent | src/contexts/NotificationContext.tsx:53-55 | marking the same notification twice is marking it once |
| NotificationContext.MarkAllReadClearsCount | src/contexts/NotificationContext.tsx:73-75 | after marking all nothing is unread and nothing but the read flag changed |
| NotificationContext.PrependCount | src/contexts/NotificationContext.tsx:97-99 | a realtime insert at the front raises the counter exactly when it is unread |
| NotificationContext.Provider.constructor | src/contexts/NotificationContext.tsx:20-21 | an empty list, loading |
| NotificationContext.Provider.FetchNotifications | src/contexts/NotificationContext.tsx:23-42 | without a company nothing changes; otherwise loading ends, the list becomes the query's rows (null as empty) and an error keeps the old list |
| NotificationContext.Provider.MarkAsRead | src/contexts/NotificationContext.tsx:44-59 | the list is marked only when the update succeeded |
| NotificationContext.Provider.MarkAllAsRead | src/contexts/NotificationContext.tsx:61-79 | every notification is marked read exactly when there is a company and the update succeeded |
| NotificationContext.Provider.OnInsert | src/contexts/NotificationContext.tsx:97-99 | the inserted notification goes to the front of the list |
| ReleaseHistory.Loaded | src/pages/settings/ReleaseHistory.tsx:33-41 | a missing releases field changes nothing; otherwise the list is replaced, and a non-empty one opens exactly its first version |
| ReleaseHistory.InitiallyOnlyFirstOpen | src/pages/settings/ReleaseHistory.tsx:26-41 | after the first load exactly the newest release's version is expanded |
| ReleaseHistory.ToggleVersion | src/pages/settings/ReleaseHistory.tsx:45-51 | flips whether the version is expanded and no other one |
| ReleaseHistory.ToggleVersionTwice | src/pages/settings/ReleaseHistory.tsx:45-51 | toggling a version twice restores the expanded set |
| ReleaseHistory.LatestFlags | src/pages/settings/ReleaseHistory.tsx:143-145 | a card is marked current exactly at position 0 |
| ReleaseHistory.OneLatest | src/pages/settings/ReleaseHistory.tsx:143-145 | a non-empty list has exactly one current release |
| ReleaseHistory.TypeLabel | src/pages/settings/ReleaseHistory.tsx:64-72 | the four fixed labels of feat, fix, sec and ui, and the upper-cased type for anything else |
| ReleaseHistory.TypeLabelUpper | src/pages/settings/ReleaseHistory.tsx:64-72 | the label of any other type is already upper case, so major reads MAJOR |
| PortalDashboard.LoadData | src/pages/portal/PortalDashboard.tsx:24-50 | no session exactly redirects to the login page; with a session the data loads exactly when the query succeeds, and a failure shows its own message or the default one |
| PortalDashboard.IndexOf | src/pages/portal/PortalDashboard.tsx:75 | the position of the url's first occurrence, or -1 exactly when it is absent |
| PortalDashboard.NextIndex | src/pages/portal/PortalDashboard.tsx:86-91 | the next photo, from the last one round to the first |
| PortalDashboard.PrevIndex | src/pages/portal/PortalDashboard.tsx:93-98 | the previous photo stays in range |
| PortalDashboard.NextPrevInverse | src/pages/portal/PortalDashboard.tsx:86-98 | next and previous undo each other |
| PortalDashboard.StepsForwardWraps | src/pages/portal/PortalDashboard.tsx:86-91 | up to one round, k steps forward land k places on, wrapping past the end once |
| PortalDashboard.FullCircle | src/pages/portal/PortalDashboard.tsx:86-91 | as many steps forward as there are photos come back to the same photo |
| PortalDashboard.Gallery.constructor | src/pages/portal/PortalDashboard.tsx:15-17 | no photo selected, an empty list, index 0 |
| PortalDashboard.Gallery.OpenPhotoGallery | src/pages/portal/PortalDashboard.tsx:73-78 | shows the url and keeps the list; the index is the url's position, or 0 when it is not in the list |
| PortalDashboard.Gallery.ClosePhotoGallery | src/pages/portal/PortalDashboard.tsx:80-84 | nothing selected, an empty list, index 0 |
| PortalDashboard.Gallery.GoToNextPhoto | src/pages/portal/PortalDashboard.tsx:86-91 | nothing happens without photos; otherwise the next index and its photo are selected |
| PortalDashboard.Gallery.GoToPreviousPhoto | src/pages/portal/PortalDashboard.tsx:93-98 | nothing happens without photos; otherwise the previous index and its photo are selected |
| PortalDashboard.Gallery.HandleKeyDown | src/pages/portal/PortalDashboard.tsx:101-116 | nothing while no photo is shown; otherwise the arrows step and Escape closes the gallery |
| PortalDashboard.BadgesExclusive | src/pages/portal/PortalDashboard.tsx:245-259 | the VIP and loyal badges never show together, and from 5 services on exactly one shows |
| PortalDashboard.StatusLabel | src/pages/portal/PortalDashboard.tsx:57-64 | the three known statuses have their own non-empty labels; any other status is shown as itself |
| PhotoViewer.NextIndex | src/components/workOrder/PhotoViewer.tsx:38-40 | the next photo stays in range and wraps from the last to the first |
| PhotoViewer.PrevIndex | src/components/workOrder/PhotoViewer.tsx:34-36 | the previous photo stays in range and wraps from the first to the last |
| PhotoViewer.NextPrevInverse | src/components/workOrder/PhotoViewer.tsx:34-40 | on an index in range next and previous undo each other |
| PhotoViewer.ZoomIn | src/components/workOrder/PhotoViewer.tsx:50-52 | half a step up, never above 3 and never lower, staying on the reachable levels |
| PhotoViewer.ZoomOut | src/components/workOrder/PhotoViewer.tsx:54-56 | half a step down, never below 1 and never higher, staying on the reachable levels |
| PhotoViewer.ZoomInverse | src/components/workOrder/PhotoViewer.tsx:50-56 | away from the ends zooming in and out undo each other |
| PhotoViewer.Viewer.constructor | src/components/workOrder/PhotoViewer.tsx:19-21 | the given photo at zoom 1, loading |
| PhotoViewer.Viewer.Reset | src/components/workOrder/PhotoViewer.tsx:25-32 | back to the given photo at zoom 1, loading again when the photo changed |
| PhotoViewer.Viewer.HandleNext | src/components/workOrder/PhotoViewer.tsx:30-40 | moves to the next photo, zoom unchanged, loading when the photo changed |
| PhotoViewer.Viewer.HandlePrevious | src/components/workOrder/PhotoViewer.tsx:30-36 | moves to the previous photo, zoom unchanged, loading when the photo changed |
| PhotoViewer.Viewer.HandleZoomIn | src/components/workOrder/PhotoViewer.tsx:50-52 | zooms in, the photo unchanged |
| PhotoViewer.Viewer.HandleZoomOut | src/components/workOrder/PhotoViewer.tsx:54-56 | zooms out, the photo unchanged |
| PhotoViewer.Viewer.HandleKeyDown | src/components/workOrder/PhotoViewer.tsx:58-85 | nothing while closed; Escape exactly asks to close; the arrows move without zooming and mark the photo loading when the index changed; + and = zoom in, - and _ zoom out, without moving or changing the loading flag |
| WorkOrderService.NotesOrNull | src/services/workOrderService.ts:141 | an empty or missing note is stored as null, any other as given |
| WorkOrderService.ServiceRows | src/services/workOrderService.ts:131-141 | one row per service line, in order, with the line's id, quantity, unit price and note (empty as null) and a total of price times quantity |
| WorkOrderService.ProductRows | src/services/workOrderService.ts:147-156 | one row per product line, in order, with the line's id and quantity at unit and total price zero |
| WorkOrderService.SumPointwise | src/services/workOrderService.ts:131-156 | two lists that pair up value for value have the same sum |
| WorkOrderService.ServiceRowsAddUp | src/services/workOrderService.ts:131-141 | the inserted service rows add up to the items subtotal of the shared calculations |
| WorkOrderService.ProductRowsAddNothing | src/services/workOrderService.ts:147-156 | the inserted product rows add nothing to the order's value |
| WorkOrderService.SaveItems | src/services/workOrderService.ts:130-160 | inserts the service rows, then the product rows, each only when the list is non-empty and the products only after the services went in; succeeds exactly when every insert made succeeds |
| WorkOrderService.TransactionRecord | src/services/workOrderService.ts:99-115 | an income of the total (0 when null) in category Serviço described as the order number, paid with its paid time exactly when the payment status is paid and pending otherwise |
| WorkOrderService.HandleFinancialTransaction | src/services/workOrderService.ts:88-129 | nothing exactly for a draft; otherwise that record, as an update of the existing transaction when there is one and as an insert otherwise |
| WorkOrderService.DueDate | src/services/workOrderService.ts:192 | the expected completion date when set, the entry date otherwise |
| WorkOrderService.OrderNumber | src/services/workOrderService.ts:166 | the last six digits of the clock, or all of them when there are fewer |
| WorkOrderService.NoEffectsNone | src/services/workOrderService.ts:162-256 | a prefix of order and item writes holds no transaction write and no completion |
| WorkOrderService.EffectsOf | src/services/workOrderService.ts:162-256 | the transaction and completion writes of a procedure are exactly those of its last two steps |
| WorkOrderService.SaveAll | src/services/workOrderService.ts:180-183 | the items are saved after the writes already made and only when given; a failure leaves no transaction and no completion |
| WorkOrderService.Settle | src/services/workOrderService.ts:185-203 | a transaction write exactly when not a draft, a completion exactly when completing, the transaction carrying the saved order's record |
| WorkOrderService.Create | src/services/workOrderService.ts:162-206 | an insert error ends with no writes; otherwise the order is inserted first, and the result is the created row exactly when the items were saved; the transaction is kept exactly when not a draft and the order marked completed exactly when created as completed |
| WorkOrderService.EffectiveTotal | src/services/workOrderService.ts:232 | the supplied total, or the stored one when absent |
| WorkOrderService.EffectiveStatus | src/services/workOrderService.ts:233 | the supplied status, or the stored one when absent |
| WorkOrderService.EffectivePaymentStatus | src/services/workOrderService.ts:234 | the supplied payment status, or the stored one when absent |
| WorkOrderService.EffectiveMatchesUpdatedRow | src/services/workOrderService.ts:211-234 | the fallbacks agree with the row the update returns |
| WorkOrderService.EmptyPatchKeepsOrder | src/services/workOrderService.ts:214-219 | an update with no fields leaves the order as stored |
| WorkOrderService.Update | src/services/workOrderService.ts:208-256 | a missing order fails with "WorkOrder not found" and an update error with its error, both with no writes; given items first delete the old rows; the transaction follows the effective values and is kept exactly when the effective status is not draft; the order is marked completed exactly when it moves into completed |
| WorkOrderModal.Submit | src/components/operations/WorkOrderModal.tsx:305-541 | the submission: RejectedWritesNothing, SavedIffEveryCallSucceeds, SavedReachesSettle, CompletesIffTargetCompleted and TransactionRules state its outcome and writes |
| WorkOrderModal.SaveSequence | src/components/operations/WorkOrderModal.tsx:326-531 | the database steps after the checks: SequenceReachesSettle says a saved sequence got through the appointment and order steps, TransactionRules states its transaction write |
| WorkOrderModal.SaveItemsAndSettle | src/components/operations/WorkOrderModal.tsx:478-531 | the item and settle steps: SavedTail states their completion and transaction writes, SettleSavesNoOrder that they never save the order again |
| WorkOrderModal.Validate | src/components/operations/WorkOrderModal.tsx:307-323 | the checks pass exactly with a company, an appointment in link mode, a customer and vehicle in create mode and at least one service or product; each failure names its own reason in source order |
| WorkOrderModal.CustomerName | src/components/operations/WorkOrderModal.tsx:332 | the name of the first customer with the id, no earlier customer having it; none exactly when no customer has it |
| WorkOrderModal.VehicleModel | src/components/operations/WorkOrderModal.tsx:333-334 | the model of the first vehicle with the id, no earlier vehicle having it, which the created appointment's title shows; none exactly when no vehicle has it |
| WorkOrderModal.AppointmentServiceRows | src/components/operations/WorkOrderModal.tsx:355-360 | one row per selected service with its id and price |
| WorkOrderModal.ServiceInputs | src/components/operations/WorkOrderModal.tsx:441-450 | each selected service becomes one order line, in order |
| WorkOrderModal.ServiceItems | src/components/operations/WorkOrderModal.tsx:372-377 | each selected service becomes one item of the calculations at its price and quantity |
| WorkOrderModal.ZeroPricedItems | src/components/operations/WorkOrderModal.tsx:460-469 | the products as items at the zero price they are inserted with |
| WorkOrderModal.ZeroPricedSumIsZero | src/components/operations/WorkOrderModal.tsx:460-469 | items at price zero add up to zero |
| WorkOrderModal.ProductsDoNotChangeTotals | src/components/operations/WorkOrderModal.tsx:372-377 | leaving the products out of the totals is the same as counting them at price zero |
| WorkOrderModal.SavedServicesAddUpToSubtotal | src/components/operations/WorkOrderModal.tsx:372-455 | the inserted service rows add up to the subtotal saved on the order |
| WorkOrderModal.TempStatus | src/components/operations/WorkOrderModal.tsx:384-385 | the provisional status is never completed: a completed target is saved in progress, any other as it is |
| WorkOrderModal.OrderDataFor | src/components/operations/WorkOrderModal.tsx:379-408 | the order is saved with the provisional status, the services-only totals and the linked appointment |
| WorkOrderModal.TransactionFor | src/components/operations/WorkOrderModal.tsx:493-507 | an income of the order's total, paid with its paid time exactly when the payment status is paid and pending otherwise, linked to the order and customer |
| WorkOrderModal.AppointmentStep | src/components/operations/WorkOrderModal.tsx:328-369 | link mode writes nothing and links the chosen appointment; create mode writes only the appointment and its service rows |
| WorkOrderModal.OrderStep | src/components/operations/WorkOrderModal.tsx:411-436 | an update or insert error stops with nothing more written; otherwise the order is saved with its data, an edited order keeping its id and clearing its items |
| WorkOrderModal.ItemsStep | src/components/operations/WorkOrderModal.tsx:439-476 | the service and product inserts succeed exactly when every non-empty list was inserted without error |
| WorkOrderModal.CompletionStep | src/components/operations/WorkOrderModal.tsx:480-488 | the follow-up move to completed is attempted exactly when it is the target and the saved row is not completed; it is logged exactly when it succeeds, and fails only with its error |
| WorkOrderModal.TransactionStep | src/components/operations/WorkOrderModal.tsx:509-531 | a linked transaction is updated even for a draft; otherwise one is inserted exactly when the target is not a draft |
| WorkOrderModal.RejectedWritesNothing | src/components/operations/WorkOrderModal.tsx:307-323 | a submission is rejected exactly when a check fails, and then writes nothing |
| WorkOrderModal.SavedIffEveryCallSucceeds | src/components/operations/WorkOrderModal.tsx:326-541 | after the checks the submission saves exactly when every checked database call succeeds; transaction errors are only logged |
| WorkOrderModal.SettleSavesNoOrder | src/components/operations/WorkOrderModal.tsx:439-531 | once the order is saved no later step saves it again |
| WorkOrderModal.SavedWithTempStatus | src/components/operations/WorkOrderModal.tsx:384-436 | every order save carries the provisional status and the services-only total |
| WorkOrderModal.SavedTail | src/components/operations/WorkOrderModal.tsx:478-531 | a saved submission completes the order exactly when that is the target and writes a transaction exactly when one is linked or the target is not a draft |
| WorkOrderModal.SavedReachesSettle | src/components/operations/WorkOrderModal.tsx:305-531 | a saved submission passed the checks, created its appointment and saved its order before the item and settle steps |
| WorkOrderModal.SequenceReachesSettle | src/components/operations/WorkOrderModal.tsx:326-531 | a saved sequence got through the appointment and order steps |
| WorkOrderModal.OrderStepPrefixClean | src/components/operations/WorkOrderModal.tsx:328-436 | the appointment and order steps neither complete an order nor touch a transaction |
| WorkOrderModal.CompletesIffTargetCompleted | src/components/operations/WorkOrderModal.tsx:384-488 | a saved submission moves the order to completed exactly when that was the target |
| WorkOrderModal.TransactionRules | src/components/operations/WorkOrderModal.tsx:491-531 | a saved submission writes a transaction exactly when one was linked or the target is not a draft, paid exactly when the payment status is paid, with the services-only total, updating the linked one when there is one |
| WorkOrderModal.Save | src/components/operations/WorkOrderModal.tsx:326-536 | the save sequence with its reassigned variables makes exactly the writes and outcome of the step-by-step definition |
| WorkOrderModal.SaveItemsThenSettle | src/components/operations/WorkOrderModal.tsx:439-536 | the item, completion and transaction steps as statements make exactly the writes of their definition |
| WorkOrderModal.Modal.constructor | src/components/operations/WorkOrderModal.tsx:80-109 | the modal opens in link mode with the given form and order, nothing selected, not loading |
| WorkOrderModal.Modal.HandleSubmit | src/components/operations/WorkOrderModal.tsx:305-543 | the writes and outcome are those of the submission for the current state; the form and selections are unchanged; loading ends once a save was attempted |
| ServiceTracker.DiscountType | src/pages/public/ServiceTracker.tsx:194 | a missing or empty discount type reads as fixed |
| ServiceTracker.PriceSummary | src/pages/public/ServiceTracker.tsx:192-229 | the subtotal (0 when missing) less a discount of that many percent or that fixed amount; the discount lines show exactly for a positive discount and the percentage exactly when those lines show and the discount is a percentage |
| ServiceTracker.NoDiscountTotalIsSubtotal | src/pages/public/ServiceTracker.tsx:203-208 | without a discount the total is the subtotal and no discount lines show |
| ServiceTracker.AgreesWithCalculations | src/pages/public/ServiceTracker.tsx:192-203 | the page's total agrees with the work-order calculations whenever it is not negative; when it is, the calculations show 0 |
| ServiceTracker.NegativeTotalExample | src/pages/public/ServiceTracker.tsx:199-203 | a fixed discount of 80 on a subtotal of 50 shows a total of -30 |
| ServiceTracker.Comparison | src/pages/public/ServiceTracker.tsx:104-106 | the slider shows exactly when there is a before and an after photo, with the first of each |
| Receivables.Filtered | src/pages/financial/Receivables.tsx:53-87 | the list's three filters: FilteredMembers says exactly which transactions are listed, FilteredIsOneFilter makes them one filter, FilteredIdempotent makes refiltering a no-op |
| Receivables.StatsOf | src/pages/financial/Receivables.tsx:141-150 | the cards: StatsAddUp splits the total into pending, paid and the rest, PendingAndPaidWithinTotal bounds them, OverdueAtMostPending counts only pending ones as overdue |
| Receivables.DatePart | src/pages/financial/Receivables.tsx:71 | the date part is a prefix of the due date without a 'T', and is followed by the 'T' when shorter |
| Receivables.SearchStepFilters | src/pages/financial/Receivables.tsx:56-62 | the search step keeps exactly the transactions whose description or category contains the lower-cased term, or all when the term is empty |
| Receivables.StatusStepFilters | src/pages/financial/Receivables.tsx:64-66 | the status step keeps exactly the transactions of the selected status, or all for 'all' |
| Receivables.DateStepFilters | src/pages/financial/Receivables.tsx:68-84 | the date step keeps the transactions whose due date lies between the two dates, after the start or before the end, whichever of the two dates is set |
| Receivables.FilteredIsOneFilter | src/pages/financial/Receivables.tsx:53-87 | the three successive filters equal one filter by the conjunction of the active conditions |
| Receivables.FilteredMembers | src/pages/financial/Receivables.tsx:53-87 | a transaction is listed exactly when it is loaded and passes every active filter |
| Receivables.FilteredIsSubsequence | src/pages/financial/Receivables.tsx:53-87 | the listed transactions keep the loaded order |
| Receivables.FilteredIdempotent | src/pages/financial/Receivables.tsx:53-87 | filtering the filtered list again with the same inputs changes nothing |
| Receivables.NoFilterKeepsAll | src/pages/financial/Receivables.tsx:20-23 | with the initial filter inputs every loaded transaction is listed |
| Receivables.StatsAddUp | src/pages/financial/Receivables.tsx:141-146 | the total card is the pending sum plus the paid sum plus the sum of the other transactions |
| Receivables.PendingAndPaidWithinTotal | src/pages/financial/Receivables.tsx:141-146 | with no negative amount, pending plus paid never exceeds the total |
| Receivables.OverdueOn | src/pages/financial/Receivables.tsx:147-150 | the overdue test, a pending transaction whose due date string sorts before today; OverdueAtMostPending and OverdueIgnoresTime give its meaning |
| Receivables.OverdueAtMostPending | src/pages/financial/Receivables.tsx:147-150 | only pending transactions count as overdue |
| Receivables.OverdueIgnoresTime | src/pages/financial/Receivables.tsx:147-150 | comparing the whole due date with today's date decides overdue by the date part when that part has today's length |
| Receivables.LessExtend | src/pages/financial/Receivables.tsx:149 | string order on equal-length prefixes: the prefixes decide unless equal, then the rests decide |
| Receivables.Page.constructor | src/pages/financial/Receivables.tsx:18-23 | empty lists, empty search and dates, status 'all' |
| Receivables.Page.FilterTransactions | src/pages/financial/Receivables.tsx:53-87 | stores the filtered list of the current inputs and changes nothing else |
| Payables.FilteredPayables | src/pages/financial/Payables.tsx:50-70 | the list's filters: FilteredPayablesMembers says exactly which expenses are listed, FilteredPayablesIsOneFilter makes them one filter, FilteredCategoriesListed keeps listed categories among the select's options |
| Payables.CategoryStepFilters | src/pages/financial/Payables.tsx:65-67 | the category step keeps exactly the expenses of the selected category, or all for 'all' |
| Payables.FilteredPayablesIsOneFilter | src/pages/financial/Payables.tsx:50-70 | search, status and category filters equal one filter by their conjunction |
| Payables.FilteredPayablesMembers | src/pages/financial/Payables.tsx:50-70 | an expense is listed exactly when it is loaded and passes every active filter |
| Payables.FilteredPayablesIsSubsequence | src/pages/financial/Payables.tsx:50-70 | the listed expenses keep the loaded order |
| Payables.CategoryColumn | src/pages/financial/Payables.tsx:131 | one category per loaded expense, position by position |
| Payables.Categories | src/pages/financial/Payables.tsx:131 | the category options are sorted, without duplicates, and are exactly the categories of the loaded expenses |
| Payables.FilteredCategoriesListed | src/pages/financial/Payables.tsx:131 | the category of every listed expense is an option of the select |
| Payables.PayablesPage.constructor | src/pages/financial/Payables.tsx:13-17 | empty lists, empty search, status and category 'all' |
| Payables.PayablesPage.FilterTransactions | src/pages/financial/Payables.tsx:50-70 | stores the filtered list of the current inputs and changes nothing else |
| FinancialDashboard.ComputeStats | src/pages/financial/Dashboard.tsx:63-78 | the dashboard cards: IncomeMatchesReceivables and ExpenseMatchesPayables equal them to the list pages' cards, BalanceAtMostIncome bounds the balance, OverdueCountsBothKinds adds the overdue counts |
| FinancialDashboard.Recent | src/pages/financial/Dashboard.tsx:90 | the first ten fetched transactions, or all of them when fewer |
| FinancialDashboard.IncomeMatchesReceivables | src/pages/financial/Dashboard.tsx:63-70 | received and to-receive equal the paid and pending cards of the receivables statistics over the income transactions |
| FinancialDashboard.ExpenseMatchesPayables | src/pages/financial/Dashboard.tsx:66-73 | paid and to-pay equal the paid and pending cards of the payables statistics over the expense transactions |
| FinancialDashboard.OverdueCountsBothKinds | src/pages/financial/Dashboard.tsx:75-78 | the overdue alert is the overdue receivables plus the overdue payables, and never more than the pending transactions |
| FinancialDashboard.BalanceAtMostIncome | src/pages/financial/Dashboard.tsx:63-67 | with no negative amount the balance never exceeds what was received |
| FinancialDashboard.Page.constructor | src/pages/financial/Dashboard.tsx:28-37 | loading, zero statistics, no recent transactions |
| FinancialDashboard.Page.LoadFinancialData | src/pages/financial/Dashboard.tsx:45-97 | an error keeps statistics and list; rows (null as empty) give their statistics, balance income minus expense and the recent list; loading ends |
| Dashboard.ComputeStats | src/pages/Dashboard.tsx:67-125 | the dashboard cards from the query answers: InProgressWithinTotal bounds the in-progress card by the total, MonthlyRevenueWithinPaidIncome bounds the thirty-day revenue by the paid income, LowStockCountsActiveProducts says which products the low-stock card counts |
| Dashboard.Group | src/pages/Dashboard.tsx:142-153 | the reduce that groups paid income by month label: GroupLabels gives one entry per label and exactly the rows' labels, GroupSums gives each entry the sum of its label's amounts |
| Dashboard.SetMonthLabelAsWritten | src/pages/Dashboard.tsx:157-160 | the label of turn i as written (the month of setMonth's date): AsWrittenMonthIsSetMonth ties it to the date computation, LabelsAgreeEarlyInTheMonth to the intended label on days 1 to 28, SetMonthLabelRepeatsOnThe31st shows the repeat on 31 October |
| Dashboard.MonthLabelBack | src/pages/Dashboard.tsx:156-160 | the intended label of the month i back: SixLabelsDistinct makes the six different, LabelsConsecutive makes each month the successor of the one before |
| Dashboard.LowStockCountsActiveProducts | src/pages/Dashboard.tsx:67-71 | the low-stock card counts, over the whole product table, the active products at or below their minimum |
| Dashboard.InProgressWithinTotal | src/pages/Dashboard.tsx:99-103 | when the exact count matches the fetched work orders, the in-progress card never exceeds the total card |
| Dashboard.MonthlyRevenueWithinPaidIncome | src/pages/Dashboard.tsx:105-115 | the thirty-day revenue is at most the paid income, and equals it when every row is within thirty days |
| Dashboard.MonthLabel | src/pages/Dashboard.tsx:141-144 | a label starts with the month's three-letter name followed by '/' |
| Dashboard.MonthsBack | src/pages/Dashboard.tsx:157-160 | the month i months back is a month 1-12 exactly i months before in year-times-twelve-plus-month terms |
| Dashboard.NextMonth | src/pages/Dashboard.tsx:158-159 | the month after a month is one month later in year-times-twelve-plus-month terms |
| Dashboard.AsWrittenMonth | src/pages/Dashboard.tsx:157-160 | the month a turn labels is a month 1-12: the month i back when it has today's day, otherwise the month after |
| Dashboard.NextMonthStart | src/pages/Dashboard.tsx:158-159 | the first of the next month is a month's length after the first of this one |
| Dashboard.DayCountedFromFirst | src/pages/Dashboard.tsx:158-159 | day d counted from the first of a month falls in that month, or past its end in the month after |
| Dashboard.AsWrittenMonthIsSetMonth | src/pages/Dashboard.tsx:158-159 | that month is the month of the date setMonth computes |
| Dashboard.SetMonthLabelRepeatsOnThe31st | src/pages/Dashboard.tsx:157-160 | on 31 October the label one month back is October's again, as written |
| Dashboard.OneMonthBackFrom31October | src/pages/Dashboard.tsx:158-159 | setMonth one month back from 31 October lands on 1 October |
| Dashboard.SeptemberHasThirtyDays | src/pages/Dashboard.tsx:158-159 | the thirty-first day counted from 1 September is 1 October |
| Dashboard.ThisMonthOn31October | src/pages/Dashboard.tsx:158-159 | setMonth by zero months leaves 31 October |
| Dashboard.MonthsAgreeEarlyInTheMonth | src/pages/Dashboard.tsx:157-160 | on days 1 to 28 the written loop reaches the intended month |
| Dashboard.LabelsAgreeEarlyInTheMonth | src/pages/Dashboard.tsx:157-160 | on days 1 to 28 the written loop labels the months the intended way |
| Dashboard.MonthsAgreeEarly | src/pages/Dashboard.tsx:156-163 | on days 1 to 28 the loop's six months are the intended six |
| Dashboard.MonthNamesDistinct | src/pages/Dashboard.tsx:141 | the twelve month names are pairwise different |
| Dashboard.MonthLabelsDistinct | src/pages/Dashboard.tsx:144 | labels of different month numbers differ, whatever the years |
| Dashboard.SixLabelsDistinct | src/pages/Dashboard.tsx:156-163 | the intended six chart months have six different labels |
| Dashboard.LabelsConsecutive | src/pages/Dashboard.tsx:156-163 | each intended chart month is the calendar successor of the one before |
| Dashboard.FindName | src/pages/Dashboard.tsx:146 | the index found is the first entry with the name; none means no entry has it |
| Dashboard.AddToFound | src/pages/Dashboard.tsx:146-148 | when the month is found, only its entry changes, by the amount |
| Dashboard.GroupLabels | src/pages/Dashboard.tsx:142-153 | the grouping has one entry per label, and exactly the labels of the rows |
| Dashboard.AddToNames | src/pages/Dashboard.tsx:146-151 | one reduce step keeps labels distinct and adds exactly the new label |
| Dashboard.GroupSums | src/pages/Dashboard.tsx:142-153 | each month's entry holds the sum of the amounts with that label |
| Dashboard.SumWithLast | src/pages/Dashboard.tsx:142-153 | the sum of a label's amounts over a list with one more entry grows by that entry's amount when it has the label |
| Dashboard.Entries | src/pages/Dashboard.tsx:142-144 | one entry per revenue row, with the label of its local month and its amount |
| Dashboard.GroupStep | src/pages/Dashboard.tsx:142-153 | grouping one more row is one more reduce step |
| Dashboard.AddRow | src/pages/Dashboard.tsx:146-151 | one call of the reduce callback is one reduce step |
| Dashboard.GroupRevenue | src/pages/Dashboard.tsx:142-153 | the reduce loop computes the grouping of the rows' entries |
| Dashboard.ChartEntry | src/pages/Dashboard.tsx:161-162 | `found \|\| { name, value: 0 }`: the entry carries the label, is the first grouped entry with that label when there is one, and is worth 0 otherwise |
| Dashboard.AsWrittenMonths | src/pages/Dashboard.tsx:157-160 | the six months the loop produces, five turns back first, each as setMonth yields it |
| Dashboard.CorrectedMonths | src/pages/Dashboard.tsx:156-163 | the six calendar months ending with the current one, five months ago first |
| Dashboard.Chart | src/pages/Dashboard.tsx:161-162 | one entry per month, each the chart entry of that month's label |
| Dashboard.Series | src/pages/Dashboard.tsx:156-163 | the chart as the page builds it: six entries, the k-th labelled with the month setMonth gives five-minus-k turns back (so on the 29th to 31st a short month is replaced by the month after it) |
| Dashboard.CorrectedSeries | src/pages/Dashboard.tsx:156-163 | the intended chart: six entries labelled with the six calendar months ending with the current one |
| Dashboard.SeriesAgreesEarlyInTheMonth | src/pages/Dashboard.tsx:156-163 | on days 1 to 28 the page's chart is exactly the intended chart |
| Dashboard.SeriesRepeatsOnThe31st | src/pages/Dashboard.tsx:156-163 | on 31 October the page's chart shows the same entry in its last two places |
| Dashboard.ChartLabelsDistinct | src/pages/Dashboard.tsx:160-162 | chart entries of months with different month numbers have different labels |
| Dashboard.CorrectedSeriesDistinct | src/pages/Dashboard.tsx:156-163 | the intended chart has six different labels |
| Dashboard.Last6Months | src/pages/Dashboard.tsx:156-163 | the padding loop, with setMonth's date as written, builds exactly the page's chart |
| Dashboard.TurnLabel | src/pages/Dashboard.tsx:158-160 | the label the loop computes from the date of `setMonth(getMonth() - i)` is that turn's as-written label |
| Dashboard.ChartEntryShowsSum | src/pages/Dashboard.tsx:142-162 | the chart entry of a label holds the sum of the paid income grouped under that label, 0 when there is none |
| Dashboard.SeriesShowsMonthSums | src/pages/Dashboard.tsx:140-165 | each place of the page's chart shows the sum of the paid income whose label is that place's label, 0 when there is none |
| Dashboard.CorrectedSeriesShowsMonthSums | src/pages/Dashboard.tsx:140-165 | each place of the intended chart shows the sum of its month's paid income, 0 when there is none |
| Dashboard.Page.constructor | src/pages/Dashboard.tsx:34-37 | no statistics, no appointments or chart, loading |
| Dashboard.Page.LoadDashboardData | src/pages/Dashboard.tsx:43-175 | without a company nothing changes; otherwise statistics, the upcoming appointments when returned, the six-month chart as the page builds it (setMonth's labels, repeats included), and loading ends |
| Customers.SearchStepFilters | src/pages/crm/Customers.tsx:53-63 | the search step keeps exactly the customers matching the lower-cased term in name or e-mail, or the raw term in phone or CPF, or all for an empty term |
| Customers.TypeStepFilters | src/pages/crm/Customers.tsx:65-68 | the type step keeps exactly the customers of the selected type, or all for 'all' |
| Customers.VipStepFilters | src/pages/crm/Customers.tsx:70-73 | the VIP step keeps exactly the customers whose flag equals the filter, or all when the filter is null |
| ShopStatus.Widget.constructor | src/components/dashboard/ShopStatusWidget.tsx:8-10 | quiet, count 0, loading |
| SubscriptionGuard.Guard.constructor | src/components/SubscriptionGuard.tsx:14-15 | checking and not blocked |
| StockMovement.Modal.constructor | src/components/inventory/StockMovementModal.tsx:24-28 | not loading, an entry movement, empty quantity and reason, adjustment 'add' |
| PublicBooking.Page.constructor | src/pages/public/PublicBooking.tsx:21 | no validation errors |
| CompanySettings.CompanyFormState.constructor | src/pages/settings/CompanySettings.tsx:32 | the form holds the given company data |
| BumpVersion.VersionData.constructor | scripts/bump-version.js:114 | the parsed version file's version, release date and release list |
| PortalService.Portal.constructor | src/services/portalService.ts:62-69 | the portal starts from the given local storage |

## Left out

- fix_auth_timeout.py, fix_dashboard_buttons.py and fix_overdue_clarity.py: one-off scripts that apply literal text replacements to a file on disk; they have no logic to state.
- Database access everywhere (queries, inserts, RPCs, storage uploads, realtime channels): only the decisions around each call are modelled, with the answers passed in as parameters. src/types/database.ts is not part of this model beyond the status strings it defines.
- Network clients: the Evolution API fetches of the anti-ban client, the health statistics fetch, and the release.json and version.json fetches.
- Timers and concurrency: setInterval processors, periodic checks, debounces and reload timeouts. One tick or one call is modelled at a time. Promise.all batches are modelled as if run in sequence.
- Browser APIs: localStorage is an abstract map in the portal service, and the booking flow's sessionStorage copy is left out. Also left out: Notification and service-worker registration, the clipboard, window.open and whatsapp:// links, and image download and loading in the photo viewer.
- Floating point and locale formatting: amounts are exact reals. Left out are currency, percent and date formatting, toISOString and time zones, NaN and parseInt/parseFloat of typed input.
- Randomness: the anti-ban delays (getRandomDelay, addHumanVariation) are parameters.
- Unicode NFD normalisation and accent stripping in slug generation: slugs are modelled on ASCII case mapping only.
- Rendering: JSX, styling, toasts and the icon choice of each release type (getTypeIcon) are left out.
- Calculations: formatCurrency, parseCurrency, calculateTax, roundToTwo, calculateInstallment, isValidAmount and formatPercentage are formatting or floating-point helpers outside the core rules.
- DateTime: formatTime, formatDateTime, parseISODate and formatRelativeTime are locale formatting or parsing of date strings.
- Duration: getUnitLabel, getStepForUnit and getMinForUnit are display constants of the form inputs.
- AntiBanClient: MAX_MESSAGES_PER_HOUR is declared but never read, so it has no effect. logMessage, notifyBanDetected and checkInstanceStatus are I/O. The processing interval is modelled as Tick plus CompleteSend.
- StorageService: the upload and getPublicUrl calls are I/O.
- PortalService: generateCode, getPortalData, getPhotoUrl and getWhatsAppLink are RPC, query or link-building I/O.
- NotificationService: requestPermission, registerServiceWorker, sendTestNotification and showNotification are browser I/O. The notification bodies (minutes until the appointment, the formatted amount due) are not modelled; titles, tags and counts are.
- NotificationContext: the realtime subscription and the startPeriodicChecks wiring are effects.
- SearchableSelect: focus handling and the click-outside listener are left out.
- ReleaseHistory: loading release.json is a fetch.
- WorkOrderService: list, getById and delete are plain database reads and deletes.
- WorkOrderModal: the loaders (appointments, customers, vehicles, the appointment-select prefill, the existing items) are I/O. The WhatsApp message text, the date conversion to ISO strings and the parseInt of the odometer are not modelled.
- WorkOrderModal.Submit: does not model the failure of `new Date(...).toISOString()` on an empty or invalid entry date (WorkOrderModal.tsx:341 in create mode, :394 for the order) or expected completion date (:396-398). There it throws a RangeError, and the catch ends the submission as failed ("Invalid time value") before the appointment or order write. The model treats every date as convertible, so its outcomes assume valid dates.
- BirthdayService: the ordering is stated as sorted by days until the birthday; stability among equal days is not stated.
- BirthdayService.MonthDay: requires a five-character MM-DD string, which is what slicing a stored birth date gives; other lengths and JavaScript's Number() quirks on odd strings are not modelled.
- ImageProcessing.CalculateDimensions: requires a positive width and height; the source divides by them and a zero-sized image gives NaN, which is not modelled.
- Characters above U+FFFF: JavaScript counts each as two UTF-16 code units in `.length` and orders strings by those code units. The model treats every character as one unit, so the order and lengths of such strings are not modelled.
- DateTime: instants are local milliseconds with every day 86 400 000 ms long, so daylight-saving shifts and time zones are not modelled.
- Base64.Decode: `atob` skips ASCII whitespace in its input; the model decodes text without whitespace only.
- BumpVersion.BumpVersion: returns None unless the version is three dot-separated digit strings. The source always returns a string: `Number` gives NaN for a missing or non-numeric part, so "1.2" bumps to "1.2.NaN", and extra parts are kept, so a patch bump of "1.2.3.4" gives "1.2.4.4". JavaScript's `Number` conversion of arbitrary text (whitespace, empty parts as 0, hexadecimal and exponent forms) is not modelled.
- BumpVersion.MatchAt: the regular expressions' `.` is modelled as any character except '\n'; JavaScript's `.` also stops at '\r', U+2028 and U+2029.
- PortalService.Portal.GetSession: a stored value is either a session's JSON or text that does not parse. JSON that parses but is not a session (such as "{}") is returned by the source as a session with no expiry, since `Date.now() > undefined` is false; the model has no such entry.
- SubscriptionGuard: without a user or company the source only clears the checking flag and leaves isBlocked as it was. The model follows the code and does not treat that case as "not blocked".

## Findings

| source | as written | input that shows it | evidently intended | confidence | as-written member | corrected member |
|---|---|---|---|---|---|---|
| src/pages/Dashboard.tsx:157-162 | each chart month is labelled from `new Date()` after `setMonth(getMonth() - i)`, which keeps the day of the month, so a day the earlier month lacks runs over into the next month | on 31 October, `i = 1` gives 1 October: the chart shows 'Out' twice and no 'Set' | the six labels name the six calendar months ending with the current one, each different | not executed | Dashboard.Series, Dashboard.SeriesRepeatsOnThe31st | Dashboard.CorrectedSeries, Dashboard.CorrectedSeriesDistinct, Dashboard.LabelsConsecutive |
| src/pages/operations/Appointments.tsx:222-231 | the badge record has no 'scheduled' key, and a missing key falls back to the 'confirmed' badge | an appointment with status 'scheduled', the first value of the status enum in src/types/database.ts:33-39, shows 'Confirmado' | an appointment that is only scheduled is not shown as confirmed; every status has its own badge | not executed | Appointments.ScheduledShowsConfirmed | Appointments.CorrectedStatusBadge, Appointments.CorrectedBadgesDistinct |
