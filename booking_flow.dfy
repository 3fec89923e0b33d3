// The four-step public booking wizard (src/hooks/useBookingFlow.ts): the step
// sequence, the collected booking data and the per-step "can go next" rule.
// The copy of the data kept in sessionStorage is left out.
module BookingFlow {
  import opened Wrappers

  datatype BookingStep = Service | DateTime | Customer | Confirmation

  /** STEPS */
  const Steps: seq<BookingStep> := [Service, DateTime, Customer, Confirmation]

  /** `STEPS.indexOf(step)` */
  function StepIndex(step: BookingStep): (i: nat)
    ensures i < |Steps| && Steps[i] == step
  {
    match step
    case Service => 0
    case DateTime => 1
    case Customer => 2
    case Confirmation => 3
  }

  /** The steps are totally ordered: each one sits at its own position in STEPS. */
  lemma StepsDistinct(a: BookingStep, b: BookingStep)
    ensures StepIndex(a) == StepIndex(b) <==> a == b
    ensures forall i :: 0 <= i < |Steps| ==> StepIndex(Steps[i]) == i
  {
  }

  /** The step goNext moves to. */
  function NextStep(step: BookingStep): (r: BookingStep)
    ensures step != Confirmation ==> StepIndex(r) == StepIndex(step) + 1
    ensures step == Confirmation ==> r == step
  {
    var i := StepIndex(step);
    if i < |Steps| - 1 then Steps[i + 1] else step
  }

  /** The step goBack moves to. */
  function PrevStep(step: BookingStep): (r: BookingStep)
    ensures step != Service ==> StepIndex(r) + 1 == StepIndex(step)
    ensures step == Service ==> r == step
  {
    var i := StepIndex(step);
    if i > 0 then Steps[i - 1] else step
  }

  /** Going back after going forward returns to where the wizard was, except from the last
    * step, where going forward does nothing. */
  lemma BackAfterNext(step: BookingStep)
    ensures step != Confirmation ==> PrevStep(NextStep(step)) == step
    ensures step == Confirmation ==> PrevStep(NextStep(step)) == Customer
  {
  }

  lemma NextAfterBack(step: BookingStep)
    ensures step != Service ==> NextStep(PrevStep(step)) == step
  {
  }

  /** BookingData. A selected date is a local-time instant in milliseconds; a JavaScript
    * `Date` object is always truthy, so only its presence matters. */
  datatype BookingData = BookingData(
    serviceId: string, serviceName: string, servicePrice: real, serviceDuration: int,
    selectedDate: Option<int>, selectedTime: Option<string>,
    customerName: string, customerPhone: string, customerEmail: string,
    vehicleBrand: string, vehicleModel: string, vehiclePlate: string, notes: string,
    appointmentId: Option<string>)

  /** INITIAL_DATA */
  const InitialData: BookingData :=
    BookingData("", "", 0.0, 60, None, None, "", "", "", "", "", "", "", None)

  /** `Partial<BookingData>`: the fields an update supplies. */
  datatype BookingUpdate = BookingUpdate(
    serviceId: Option<string>, serviceName: Option<string>, servicePrice: Option<real>,
    serviceDuration: Option<int>, selectedDate: Option<Option<int>>,
    selectedTime: Option<Option<string>>, customerName: Option<string>,
    customerPhone: Option<string>, customerEmail: Option<string>,
    vehicleBrand: Option<string>, vehicleModel: Option<string>,
    vehiclePlate: Option<string>, notes: Option<string>, appointmentId: Option<string>)

  const NoUpdate: BookingUpdate :=
    BookingUpdate(None, None, None, None, None, None, None, None, None, None, None, None, None, None)

  /** `{ ...prev, ...updates }` */
  function Merge(prev: BookingData, u: BookingUpdate): BookingData
  {
    BookingData(
      u.serviceId.GetOr(prev.serviceId), u.serviceName.GetOr(prev.serviceName),
      u.servicePrice.GetOr(prev.servicePrice), u.serviceDuration.GetOr(prev.serviceDuration),
      u.selectedDate.GetOr(prev.selectedDate), u.selectedTime.GetOr(prev.selectedTime),
      u.customerName.GetOr(prev.customerName), u.customerPhone.GetOr(prev.customerPhone),
      u.customerEmail.GetOr(prev.customerEmail), u.vehicleBrand.GetOr(prev.vehicleBrand),
      u.vehicleModel.GetOr(prev.vehicleModel), u.vehiclePlate.GetOr(prev.vehiclePlate),
      u.notes.GetOr(prev.notes),
      if u.appointmentId.Some? then u.appointmentId else prev.appointmentId)
  }

  /** An empty update changes nothing, and applying the same update twice is applying it
    * once. */
  lemma MergeLaws(d: BookingData, u: BookingUpdate)
    ensures Merge(d, NoUpdate) == d
    ensures Merge(Merge(d, u), u) == Merge(d, u)
  {
  }

  /** A single-field update touches that field only. */
  lemma MergeOneField(d: BookingData, name: string)
    ensures Merge(d, NoUpdate.(customerName := Some(name))) == d.(customerName := name)
  {
  }

  /** canGoNext as a function of the step and the data. */
  predicate CanGoNextAt(step: BookingStep, d: BookingData)
  {
    match step
    case Service => d.serviceId != ""
    case DateTime => d.selectedDate.Some? && d.selectedTime.Some? && d.selectedTime.value != ""
    case Customer =>
      d.customerName != "" && d.customerPhone != "" && d.vehicleModel != "" && d.vehiclePlate != ""
    case Confirmation => false
  }

  /** Nothing can be continued from the initial data, and nothing past the last step. */
  lemma CanGoNextFacts(d: BookingData)
    ensures !CanGoNextAt(Service, InitialData)
    ensures !CanGoNextAt(Confirmation, d)
    ensures !CanGoNextAt(Customer, InitialData) && !CanGoNextAt(DateTime, InitialData)
  {
  }

  /** The updates the service and date pages make open their step: a non-empty service id,
    * and a date with a non-empty time. */
  lemma UpdatesOpenSteps(d: BookingData, id: string, day: int, time: string)
    ensures CanGoNextAt(Service, Merge(d, NoUpdate.(serviceId := Some(id)))) <==> id != ""
    ensures var u := NoUpdate.(selectedDate := Some(Some(day)), selectedTime := Some(Some(time)));
      CanGoNextAt(DateTime, Merge(d, u)) <==> time != ""
  {
  }

  /** The state of one wizard (one useBookingFlow instance). */
  class Flow {
    var currentStep: BookingStep
    var data: BookingData

    constructor ()
      ensures currentStep == Service && data == InitialData
    {
      currentStep := Service;
      data := InitialData;
    }

    /** `stepIndex` */
    function Index(): (i: nat)
      reads this
      ensures i <= 3
    {
      StepIndex(currentStep)
    }

    /** `canGoNext` */
    predicate CanGoNext()
      reads this
    {
      CanGoNextAt(currentStep, data)
    }

    method UpdateData(updates: BookingUpdate)
      modifies this
      ensures data == Merge(old(data), updates) && currentStep == old(currentStep)
    {
      data := Merge(data, updates);
    }

    method GoNext()
      modifies this
      ensures currentStep == NextStep(old(currentStep)) && data == old(data)
      ensures old(currentStep) != Confirmation ==> Index() == old(Index()) + 1
    {
      var i := StepIndex(currentStep);
      if i < |Steps| - 1 {
        currentStep := Steps[i + 1];
      }
    }

    method GoBack()
      modifies this
      ensures currentStep == PrevStep(old(currentStep)) && data == old(data)
      ensures old(currentStep) != Service ==> Index() + 1 == old(Index())
    {
      var i := StepIndex(currentStep);
      if i > 0 {
        currentStep := Steps[i - 1];
      }
    }

    method GoToStep(step: BookingStep)
      modifies this
      ensures currentStep == step && data == old(data)
    {
      currentStep := step;
    }

    method Reset()
      modifies this
      ensures currentStep == Service && data == InitialData
    {
      data := InitialData;
      currentStep := Service;
    }
  }
}
