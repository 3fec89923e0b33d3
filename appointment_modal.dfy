// The appointment form (src/components/operations/AppointmentModal.tsx): the
// service toggle with its derived duration and title, the customer change, and
// the appointment_services rows written on save. The queries, the save itself
// and the date/time conversion to ISO 8601 are I/O and are left out.
module AppointmentModal {
  import opened Wrappers
  import opened Text
  import Seqs

  /** A catalogue service (the fields the form reads). */
  datatype Service = Service(id: string, name: string, durationMinutes: int, price: real)

  datatype FormData = FormData(
    title: string, customerId: string, vehicleId: string, serviceIds: seq<string>,
    scheduledDate: string, scheduledTime: string, durationMinutes: int, status: string, notes: string)

  /** The state the form opens with for a new appointment. */
  const InitialForm := FormData("", "", "", [], "", "", 60, "scheduled", "")

  /** `services.filter(s => newServices.includes(s.id))`: catalogue order, not click order. */
  function SelectedServices(services: seq<Service>, ids: seq<string>): (r: seq<Service>)
    ensures forall s :: s in r <==> s in services && s.id in ids
    ensures |r| <= |services|
    ensures Seqs.IsSubseq(r, services)
  {
    if services == [] then []
    else
      var rest := SelectedServices(services[1..], ids);
      if services[0].id in ids then
        assert ([services[0]] + rest)[1..] == rest;
        [services[0]] + rest
      else
        Seqs.IsSubseqCons(rest, services[1..], services[0]);
        assert [services[0]] + services[1..] == services;
        rest
  }

  function TotalDuration(list: seq<Service>): int
  {
    if list == [] then 0 else list[0].durationMinutes + TotalDuration(list[1..])
  }

  function Names(list: seq<Service>): (r: seq<string>)
    ensures |r| == |list| && forall i :: 0 <= i < |list| ==> r[i] == list[i].name
  {
    if list == [] then [] else [list[0].name] + Names(list[1..])
  }

  /** handleServiceToggle */
  function HandleServiceToggle(form: FormData, services: seq<Service>, serviceId: string): (r: FormData)
    ensures r.serviceIds == Seqs.Toggle(form.serviceIds, serviceId)
    ensures var total := TotalDuration(SelectedServices(services, r.serviceIds));
      r.durationMinutes == (if total == 0 then 60 else total)
    ensures r.title == Join(Names(SelectedServices(services, r.serviceIds)), " + ")
    ensures r.(serviceIds := form.serviceIds, durationMinutes := form.durationMinutes, title := form.title) == form
  {
    var newServices := Seqs.Toggle(form.serviceIds, serviceId);
    var selected := SelectedServices(services, newServices);
    var totalDuration := TotalDuration(selected);
    form.(serviceIds := newServices,
          durationMinutes := if totalDuration == 0 then 60 else totalDuration,
          title := Join(Names(selected), " + "))
  }

  /** An id the catalogue does not hold changes neither the duration's sum nor the title. */
  lemma {:induction false} UnknownIdSelectsNothing(services: seq<Service>, ids: seq<string>, id: string)
    requires forall s :: s in services ==> s.id != id
    ensures SelectedServices(services, Seqs.Toggle(ids, id)) == SelectedServices(services, ids)
  {
    if services != [] {
      var s := services[0];
      assert s.id in Seqs.Toggle(ids, id) <==> s.id in ids;
      UnknownIdSelectsNothing(services[1..], ids, id);
    }
  }

  predicate UniqueCatalog(services: seq<Service>)
  {
    forall i, j :: 0 <= i < j < |services| ==> services[i].id != services[j].id
  }

  /** Selecting a catalogue service adds exactly its duration to the sum. */
  lemma {:induction false} SelectAddsDuration(services: seq<Service>, ids: seq<string>, k: nat)
    requires UniqueCatalog(services) && k < |services| && services[k].id !in ids
    ensures TotalDuration(SelectedServices(services, Seqs.Toggle(ids, services[k].id)))
         == TotalDuration(SelectedServices(services, ids)) + services[k].durationMinutes
  {
    var id := services[k].id;
    var tail := services[1..];
    var t := Seqs.Toggle(ids, id);
    assert UniqueCatalog(tail) by {
      forall i, j | 0 <= i < j < |tail| ensures tail[i].id != tail[j].id {
        assert tail[i] == services[i + 1] && tail[j] == services[j + 1];
      }
    }
    if k == 0 {
      assert forall s :: s in tail ==> s.id != id by {
        forall s | s in tail ensures s.id != id {
          var j :| 0 <= j < |tail| && tail[j] == s;
          assert services[j + 1] == s;
        }
      }
      UnknownIdSelectsNothing(tail, ids, id);
      assert SelectedServices(services, t) == [services[0]] + SelectedServices(tail, t);
      assert SelectedServices(services, ids) == SelectedServices(tail, ids);
      TotalDurationConcat([services[0]], SelectedServices(tail, t));
      assert TotalDuration([services[0]]) == services[0].durationMinutes + TotalDuration([services[0]][1..]);
    } else {
      assert services[0].id != id;
      assert services[0].id in t <==> services[0].id in ids;
      assert tail[k - 1] == services[k];
      SelectAddsDuration(tail, ids, k - 1);
      var head := if services[0].id in ids then [services[0]] else [];
      assert SelectedServices(services, t) == head + SelectedServices(tail, t);
      assert SelectedServices(services, ids) == head + SelectedServices(tail, ids);
      TotalDurationConcat(head, SelectedServices(tail, t));
      TotalDurationConcat(head, SelectedServices(tail, ids));
    }
  }

  lemma {:induction false} TotalDurationConcat(a: seq<Service>, b: seq<Service>)
    ensures TotalDuration(a + b) == TotalDuration(a) + TotalDuration(b)
  {
    if a == [] {
      assert a + b == b;
    } else {
      assert (a + b)[1..] == a[1..] + b;
      TotalDurationConcat(a[1..], b);
    }
  }

  /** Nothing selected gives the default duration of 60 minutes and an empty title. */
  lemma NothingSelected(form: FormData, services: seq<Service>, serviceId: string)
    requires SelectedServices(services, Seqs.Toggle(form.serviceIds, serviceId)) == []
    ensures HandleServiceToggle(form, services, serviceId).durationMinutes == 60
    ensures HandleServiceToggle(form, services, serviceId).title == ""
  {
  }

  /** One selected service gives its own name as the title. */
  lemma OneSelected(form: FormData, services: seq<Service>, serviceId: string, s: Service)
    requires SelectedServices(services, Seqs.Toggle(form.serviceIds, serviceId)) == [s]
    ensures HandleServiceToggle(form, services, serviceId).title == s.name
    ensures s.durationMinutes != 0 ==> HandleServiceToggle(form, services, serviceId).durationMinutes == s.durationMinutes
  {
    assert Names([s]) == [s.name];
    assert TotalDuration([s]) == s.durationMinutes + TotalDuration([s][1..]);
    assert [s][1..] == [];
  }

  /** handleCustomerChange: the new customer, the vehicle cleared, and the customer whose
    * vehicles are then loaded (None: the list is emptied). */
  function HandleCustomerChange(form: FormData, customerId: string): (r: (FormData, Option<string>))
    ensures r.0.customerId == customerId && r.0.vehicleId == ""
    ensures r.0.(customerId := form.customerId, vehicleId := form.vehicleId) == form
    ensures r.1.Some? <==> customerId != ""
    ensures r.1.Some? ==> r.1.value == customerId
  {
    (form.(customerId := customerId, vehicleId := ""), if customerId != "" then Some(customerId) else None)
  }

  /** An appointment_services row. */
  datatype ServiceRow = ServiceRow(appointmentId: string, serviceId: string, price: real, durationMinutes: int)

  /** `services.find(s => s.id === id)`: the first service with the id. */
  function FindService(services: seq<Service>, id: string): (r: Option<Service>)
    ensures r.Some? ==> r.value in services && r.value.id == id
    ensures r.None? <==> forall s :: s in services ==> s.id != id
    ensures r.Some? ==> exists k :: 0 <= k < |services| && services[k] == r.value
                                  && forall j :: 0 <= j < k ==> services[j].id != id
  {
    if services == [] then None
    else if services[0].id == id then Some(services[0])
    else
      var r := FindService(services[1..], id);
      if r.Some? then
        var k :| 0 <= k < |services[1..]| && services[1..][k] == r.value
                 && forall j :: 0 <= j < k ==> services[1..][j].id != id;
        assert forall j :: 0 <= j < k + 1 ==> services[j].id != id by {
          forall j | 0 <= j < k + 1 ensures services[j].id != id {
            if j > 0 { assert services[j] == services[1..][j - 1]; }
          }
        }
        assert services[k + 1] == services[1..][k];
        r
      else
        r
  }

  /** The rows inserted for the selected ids, in selection order; an id missing from the
    * catalogue gets price 0 and duration 0 (`service?.price || 0`). */
  function ServiceRows(appointmentId: string, ids: seq<string>, services: seq<Service>): (r: seq<ServiceRow>)
    ensures |r| == |ids|
    ensures forall i :: 0 <= i < |ids| ==> r[i].serviceId == ids[i] && r[i].appointmentId == appointmentId
    ensures forall i :: 0 <= i < |ids| && FindService(services, ids[i]).None? ==>
      r[i].price == 0.0 && r[i].durationMinutes == 0
    ensures forall i :: 0 <= i < |ids| && FindService(services, ids[i]).Some? ==>
      r[i].price == FindService(services, ids[i]).value.price
      && r[i].durationMinutes == FindService(services, ids[i]).value.durationMinutes
  {
    if ids == [] then []
    else
      var found := FindService(services, ids[0]);
      var row := match found
        case None => ServiceRow(appointmentId, ids[0], 0.0, 0)
        case Some(s) => ServiceRow(appointmentId, ids[0], s.price, s.durationMinutes);
      [row] + ServiceRows(appointmentId, ids[1..], services)
  }
}
