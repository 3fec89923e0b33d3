// The public booking page (src/pages/public/PublicBooking.tsx): validation of
// the customer step, the per-field error map and the "next" button's routing.
// Loading the company and services and the booking submission itself are
// database I/O and are left out; the model records that submission starts.
module PublicBooking {
  import opened Text
  import opened BookingFlow

  const NameRequired := "Nome é obrigatório"
  const PhoneRequired := "WhatsApp é obrigatório"
  const PhoneInvalid := "WhatsApp inválido"
  const ModelRequired := "Modelo do veículo é obrigatório"
  const PlateRequired := "Placa é obrigatória"
  const PlateInvalid := "Placa inválida"

  /** The keys the customer form reports changes under, which are also the keys of the
    * error record. */
  datatype Field = CustomerName | CustomerPhone | CustomerEmail | VehicleBrand | VehicleModel
                 | VehiclePlate | Notes

  const CustomerFields: set<Field> := {CustomerName, CustomerPhone, VehicleModel, VehiclePlate}

  /** What validateCustomerStep records for each field, independently of the others. */
  predicate ErrorsFor(d: BookingData, e: map<Field, string>)
  {
    && e.Keys <= CustomerFields
    && (CustomerName in e <==> IsBlank(d.customerName))
    && (CustomerName in e ==> e[CustomerName] == NameRequired)
    && (CustomerPhone in e <==> IsBlank(d.customerPhone) || |DigitsOf(d.customerPhone)| < 11)
    && (CustomerPhone in e ==>
         e[CustomerPhone] == (if IsBlank(d.customerPhone) then PhoneRequired else PhoneInvalid))
    && (VehicleModel in e <==> IsBlank(d.vehicleModel))
    && (VehicleModel in e ==> e[VehicleModel] == ModelRequired)
    && (VehiclePlate in e <==> IsBlank(d.vehiclePlate) || |d.vehiclePlate| != 7)
    && (VehiclePlate in e ==>
         e[VehiclePlate] == (if IsBlank(d.vehiclePlate) then PlateRequired else PlateInvalid))
  }

  /** The customer step passes exactly when every field is present and well formed. */
  predicate CustomerStepValid(d: BookingData)
  {
    !IsBlank(d.customerName) && !IsBlank(d.customerPhone) && |DigitsOf(d.customerPhone)| >= 11
    && !IsBlank(d.vehicleModel) && !IsBlank(d.vehiclePlate) && |d.vehiclePlate| == 7
  }

  /** The error map of a valid step is empty, and only of a valid step. */
  lemma ErrorsEmptyIffValid(d: BookingData, e: map<Field, string>)
    requires ErrorsFor(d, e)
    ensures |e| == 0 <==> CustomerStepValid(d)
  {
    EmptyIffNoField(e);
  }

  lemma EmptyIffNoField(e: map<Field, string>)
    requires e.Keys <= CustomerFields
    ensures |e| == 0 <==>
      CustomerName !in e && CustomerPhone !in e && VehicleModel !in e && VehiclePlate !in e
  {
    if CustomerName !in e && CustomerPhone !in e && VehicleModel !in e && VehiclePlate !in e {
      assert e.Keys == {};
    }
  }

  /** `updateData({ [field]: value })` for a field of the customer form. */
  function SetField(d: BookingData, field: Field, value: string): BookingData
  {
    match field
    case CustomerName => d.(customerName := value)
    case CustomerPhone => d.(customerPhone := value)
    case CustomerEmail => d.(customerEmail := value)
    case VehicleBrand => d.(vehicleBrand := value)
    case VehicleModel => d.(vehicleModel := value)
    case VehiclePlate => d.(vehiclePlate := value)
    case Notes => d.(notes := value)
  }

  /** Changing one field leaves the error verdict of every other field as it was. */
  lemma SetFieldKeepsOtherVerdicts(d: BookingData, field: Field, value: string)
    ensures var r := SetField(d, field, value);
      (field != CustomerName ==> r.customerName == d.customerName)
      && (field != CustomerPhone ==> r.customerPhone == d.customerPhone)
      && (field != VehicleModel ==> r.vehicleModel == d.vehicleModel)
      && (field != VehiclePlate ==> r.vehiclePlate == d.vehiclePlate)
  {
  }

  /** Where handleNext went. */
  datatype NextOutcome = Advanced | Rejected | SubmitStarted

  class Page {
    const flow: Flow
    var errors: map<Field, string>

    constructor (f: Flow)
      ensures flow == f && errors == map[]
    {
      flow := f;
      errors := map[];
    }

    /** validateCustomerStep: rebuilds the error record from scratch and reports whether
      * it is empty. */
    method ValidateCustomerStep() returns (ok: bool)
      modifies this
      ensures ErrorsFor(flow.data, errors)
      ensures ok <==> |errors| == 0
      ensures ok <==> CustomerStepValid(flow.data)
    {
      var d := flow.data;
      var newErrors: map<Field, string> := map[];
      if IsBlank(d.customerName) {
        newErrors := newErrors[CustomerName := NameRequired];
      }
      if IsBlank(d.customerPhone) {
        newErrors := newErrors[CustomerPhone := PhoneRequired];
      } else if |DigitsOf(d.customerPhone)| < 11 {
        newErrors := newErrors[CustomerPhone := PhoneInvalid];
      }
      if IsBlank(d.vehicleModel) {
        newErrors := newErrors[VehicleModel := ModelRequired];
      }
      if IsBlank(d.vehiclePlate) {
        newErrors := newErrors[VehiclePlate := PlateRequired];
      } else if |d.vehiclePlate| != 7 {
        newErrors := newErrors[VehiclePlate := PlateInvalid];
      }
      errors := newErrors;
      ok := |errors| == 0;
      ErrorsEmptyIffValid(d, errors);
    }

    /** handleFieldChange: writes the value and clears that field's error only. */
    method HandleFieldChange(field: Field, value: string)
      modifies this, flow
      ensures flow.data == SetField(old(flow.data), field, value)
      ensures flow.currentStep == old(flow.currentStep)
      ensures errors == old(errors) - {field}
      ensures forall k :: k in errors ==> k in old(errors) && errors[k] == old(errors)[k]
    {
      flow.data := SetField(flow.data, field, value);
      if field in errors {
        errors := errors - {field};
      }
    }

    /** handleNext: on the customer step, validate and start the submission; on every
      * other step, advance. */
    method HandleNext() returns (outcome: NextOutcome)
      modifies this, flow
      ensures old(flow.currentStep) != Customer ==>
        outcome == Advanced && flow.currentStep == NextStep(old(flow.currentStep))
        && errors == old(errors)
      ensures old(flow.currentStep) == Customer ==>
        flow.currentStep == Customer && ErrorsFor(flow.data, errors)
        && (outcome == SubmitStarted <==> CustomerStepValid(flow.data))
        && (outcome != SubmitStarted ==> outcome == Rejected)
      ensures flow.data == old(flow.data)
    {
      if flow.currentStep == Customer {
        var ok := ValidateCustomerStep();
        if !ok {
          return Rejected;
        }
        return SubmitStarted;
      } else {
        flow.GoNext();
        return Advanced;
      }
    }
  }
}
