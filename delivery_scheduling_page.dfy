/**
 * The delivery scheduling page: the trucks its form offers, how a change event updates the
 * form, the required-field check, the body of the scheduling request, and the reset after a
 * successful request. Server replies are parameters of the submit handler.
 */
module DeliverySchedulingPage {
  import opened JsValues
  import Trucks = TruckManagementPage

  /** The scheduling form: text inputs, and the truck ids the multi-select parsed (`None` is NaN). */
  datatype ScheduleForm = ScheduleForm(
    customerId: string,
    volume: string,
    scheduledAt: string,
    assignedDriverId: string,
    truckIds: seq<Option<int>>,
    cost: string)

  /** The form the page starts with and returns to after scheduling. */
  function EmptyScheduleForm(): ScheduleForm
  {
    ScheduleForm("", "", "", "", [], "")
  }

  /**
   * The text inputs the form renders, by the `name` they carry. The form has no driver input:
   * `assignedDriverId` only ever holds its reset value.
   */
  datatype TextField = CustomerId | Volume | ScheduledAt | Cost

  /** A change event: a text input or select with its value, or the truck multi-select with its selected option values. */
  datatype ChangeEvent = TextChange(field: TextField, value: string) | TruckSelection(selected: seq<string>)

  /** `Array.from(selectedOptions, o => parseInt(o.value, 10))`. */
  function ParseSelection(selected: seq<string>): (ids: seq<Option<int>>)
    ensures |ids| == |selected|
    ensures forall i :: 0 <= i < |selected| ==> ids[i] == ParseInt(selected[i])
  {
    seq(|selected|, i requires 0 <= i < |selected| => ParseInt(selected[i]))
  }

  /** `handleFormChange`'s new form. */
  function ApplyChange(f: ScheduleForm, e: ChangeEvent): ScheduleForm
  {
    match e
    case TruckSelection(selected) => f.(truckIds := ParseSelection(selected))
    case TextChange(field, value) =>
      match field
      case CustomerId => f.(customerId := value)
      case Volume => f.(volume := value)
      case ScheduledAt => f.(scheduledAt := value)
      case Cost => f.(cost := value)
  }

  /** The value a text input shows. */
  function TextOf(f: ScheduleForm, field: TextField): string
  {
    match field
    case CustomerId => f.customerId
    case Volume => f.volume
    case ScheduledAt => f.scheduledAt
    case Cost => f.cost
  }

  /**
   * A text change stores the raw value in its own field and leaves the rest of the form alone;
   * a selection replaces only the truck ids.
   */
  lemma ApplyChangeSpec(f: ScheduleForm, e: ChangeEvent)
    ensures e.TextChange? ==> TextOf(ApplyChange(f, e), e.field) == e.value
    ensures e.TextChange? ==> forall g: TextField :: g != e.field ==> TextOf(ApplyChange(f, e), g) == TextOf(f, g)
    ensures e.TextChange? ==> ApplyChange(f, e).truckIds == f.truckIds
    ensures ApplyChange(f, e).assignedDriverId == f.assignedDriverId
    ensures e.TruckSelection? ==> ApplyChange(f, e) == f.(truckIds := ParseSelection(e.selected))
  {
  }

  /** Options rendered from integer truck ids are stored back as those ids, in selection order. */
  lemma SelectionRoundTrip(ids: seq<int>)
    ensures ParseSelection(seq(|ids|, i requires 0 <= i < |ids| => DecimalText(ids[i])))
         == seq(|ids|, i requires 0 <= i < |ids| => Some(ids[i]))
  {
    forall i | 0 <= i < |ids|
      ensures ParseInt(DecimalText(ids[i])) == Some(ids[i])
    {
      ParseIntOfDecimalText(ids[i]);
    }
  }

  const RequiredMessage: string := "All fields are required."

  /** The check before the request: customer, volume, schedule and at least one truck. */
  predicate MissingRequired(f: ScheduleForm)
  {
    f.customerId == "" || f.volume == "" || f.scheduledAt == "" || |f.truckIds| == 0
  }

  /** The form the page resets to would be rejected as it is. */
  lemma EmptyFormRejected()
    ensures MissingRequired(EmptyScheduleForm())
  {
  }

  /** The body of the scheduling request; `None` and NaN are both sent as `null`. */
  datatype ScheduleRequest = ScheduleRequest(
    customerId: Option<int>,
    volume: JsNumber,
    scheduledAt: string,
    truckIds: seq<Option<int>>,
    cost: Option<JsNumber>)

  function RequestOf(f: ScheduleForm, env: Env): (r: ScheduleRequest)
    ensures r.cost.None? <==> f.cost == ""
    ensures r.scheduledAt == f.scheduledAt && r.truckIds == f.truckIds
  {
    ScheduleRequest(
      ParseInt(f.customerId),
      env.parseFloat(f.volume),
      f.scheduledAt,
      f.truckIds,
      if f.cost != "" then Some(env.parseFloat(f.cost)) else None)
  }

  /** A customer chosen from the list, whose option value is its integer id, is sent as that id. */
  lemma RequestCustomerId(f: ScheduleForm, env: Env, id: int)
    requires f.customerId == DecimalText(id)
    ensures RequestOf(f, env).customerId == Some(id)
  {
    ParseIntOfDecimalText(id);
  }

  predicate Available(t: Trucks.Truck)
  {
    StrictEquals(t.status, Str("available"))
  }

  /** `trucks.filter(t => t.status === 'available')`. */
  function AvailableTrucks(trucks: seq<Trucks.Truck>): (offered: seq<Trucks.Truck>)
    ensures forall t :: t in offered <==> t in trucks && t.status == Str("available")
  {
    Filter(trucks, Available)
  }

  /** The trucks offered keep the order of the truck list. */
  lemma AvailableTrucksConcat(a: seq<Trucks.Truck>, b: seq<Trucks.Truck>)
    ensures AvailableTrucks(a + b) == AvailableTrucks(a) + AvailableTrucks(b)
  {
    FilterConcat(a, b, Available);
  }

  /** A truck in any other status is never offered. */
  lemma AvailableTrucksExclude(trucks: seq<Trucks.Truck>, t: Trucks.Truck)
    requires t.status != Str("available")
    ensures t !in AvailableTrucks(trucks)
  {
  }

  class DeliverySchedulingState {
    var trucks: seq<Trucks.Truck>
    var form: ScheduleForm
    var formError: string
    var notification: Trucks.Notification

    constructor ()
      ensures trucks == [] && form == EmptyScheduleForm() && formError == "" && notification == Trucks.Notification("", "")
    {
      trucks := [];
      form := EmptyScheduleForm();
      formError := "";
      notification := Trucks.Notification("", "");
    }

    /** The truck list request's `.then(setTrucks)`; the reply is already parsed. */
    method ReceiveTrucks(data: seq<Trucks.Truck>)
      modifies this`trucks
      ensures trucks == data
    {
      trucks := data;
    }

    /** `availableTrucks`: the options of the truck multi-select, from the current truck list. */
    function OfferedTrucks(): (offered: seq<Trucks.Truck>)
      reads this
      ensures forall t :: t in offered <==> t in trucks && t.status == Str("available")
      ensures |offered| <= |trucks|
    {
      AvailableTrucks(trucks)
    }

    /** `handleFormChange`. */
    method HandleFormChange(e: ChangeEvent)
      modifies this`form
      ensures form == ApplyChange(old(form), e)
    {
      form := ApplyChange(form, e);
    }

    /** `handleSubmit`: returns the body it posts, if any. */
    method HandleSubmit(reply: Trucks.SaveReply, env: Env) returns (sent: Option<ScheduleRequest>)
      modifies this`form, this`formError, this`notification
      ensures MissingRequired(old(form)) ==>
        && sent.None? && form == old(form) && formError == RequiredMessage
        && notification == Trucks.Notification(RequiredMessage, "error")
      ensures !MissingRequired(old(form)) ==> sent == Some(RequestOf(old(form), env))
      ensures !MissingRequired(old(form)) && reply.Saved? ==>
        && form == EmptyScheduleForm() && formError == ""
        && notification == Trucks.Notification("Delivery scheduled successfully.", "success")
      ensures !MissingRequired(old(form)) && reply.Rejected? ==>
        var msg := OrText(reply.error, "Failed to schedule delivery.");
        && form == old(form) && formError == msg && notification == Trucks.Notification(msg, "error")
      ensures !MissingRequired(old(form)) && reply.RequestFailed? ==>
        form == old(form) && formError == "" && notification == old(notification)
    {
      formError := "";
      if MissingRequired(form) {
        formError := RequiredMessage;
        notification := Trucks.Notification(RequiredMessage, "error");
        return None;
      }
      sent := Some(RequestOf(form, env));
      match reply {
        case Saved =>
          notification := Trucks.Notification("Delivery scheduled successfully.", "success");
          form := EmptyScheduleForm();
        case Rejected(error) =>
          var msg := OrText(error, "Failed to schedule delivery.");
          formError := msg;
          notification := Trucks.Notification(msg, "error");
        case RequestFailed =>
      }
    }
  }
}
