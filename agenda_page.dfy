/**
 * The agenda page: the calendar events derived from the deliveries, the colour of an event by
 * its status, and the delivery actions offered for a clicked event. Deliveries are the server's
 * objects, given by their own fields.
 */
module AgendaPage {
  import opened JsValues

  /** One hour, the length every event is given. */
  const EventLengthMs: int := 3600000

  /** A delivery object as the server lists it. */
  type Delivery = map<string, Value>

  /** A calendar event. */
  datatype Event = Event(
    id: Value,
    title: string,
    start: Instant,
    end: Instant,
    resource: Delivery,
    allDay: bool,
    status: Value)

  /** `d.customer?.name`. */
  function CustomerName(d: Delivery): Value
  {
    var customer := Field(d, "customer");
    if customer.Undefined? || customer.Null? then Undefined else Get(customer, "name")
  }

  predicate Completed(status: Value)
  {
    StrictEquals(status, Str("completed"))
  }

  /** The check mark appended to a completed delivery's title. */
  const CheckMark: string := " ✔"

  /** `${name || 'Delivery'} (${volume} m³)`, with ' ✔' for a completed delivery. */
  function EventTitle(d: Delivery, env: Env): string
  {
    ToJsString(Or(CustomerName(d), Str("Delivery")), env) + " (" + ToJsString(Field(d, "volume_m3"), env) + " m³)"
    + (if Completed(Field(d, "status")) then CheckMark else "")
  }

  /** `new Date(new Date(s).getTime() + 60 * 60 * 1000)`. */
  function EventEnd(start: Instant): Instant
  {
    DateFromTime(Add(TimeValue(start), Finite(EventLengthMs as real)))
  }

  /** The event of one scheduled delivery. */
  function EventOf(d: Delivery, env: Env): (e: Event)
    ensures e.id == Field(d, "delivery_id") && e.status == Field(d, "status")
    ensures e.resource == d && !e.allDay
  {
    var start := NewDate(Field(d, "scheduled_at"), env);
    Event(Field(d, "delivery_id"), EventTitle(d, env), start, EventEnd(start), d, false, Field(d, "status"))
  }

  predicate Scheduled(d: Delivery)
  {
    Truthy(Field(d, "scheduled_at"))
  }

  /** `deliveries.filter(d => d.scheduled_at).map(...)`. */
  function Events(deliveries: seq<Delivery>, env: Env): (events: seq<Event>)
    ensures |events| <= |deliveries|
    ensures forall i :: 0 <= i < |events| ==> Scheduled(events[i].resource)
  {
    MapSeq(Filter(deliveries, Scheduled), ToEvent(env))
  }

  /** The callback of `.map(...)`. */
  function ToEvent(env: Env): Delivery -> Event
  {
    d => EventOf(d, env)
  }

  /** One delivery yields one event when it has a schedule, none otherwise. */
  lemma EventsOfOne(d: Delivery, env: Env)
    ensures Events([d], env) == if Scheduled(d) then [EventOf(d, env)] else []
  {
    assert [d][1..] == [];
  }

  /** Events follow the order of the deliveries. */
  lemma EventsConcat(a: seq<Delivery>, b: seq<Delivery>, env: Env)
    ensures Events(a + b, env) == Events(a, env) + Events(b, env)
  {
    var fa, fb := Filter(a, Scheduled), Filter(b, Scheduled);
    assert Filter(a + b, Scheduled) == fa + fb by { FilterConcat(a, b, Scheduled); }
    MapConcat(fa, fb, ToEvent(env));
  }

  /** Every event lasts exactly one hour when both ends are valid dates; an invalid start gives an invalid end. */
  lemma EventLastsOneHour(d: Delivery, env: Env)
    ensures var e := EventOf(d, env);
      && (e.start.Invalid? ==> e.end.Invalid?)
      && (e.start.Valid? && -MaxTimeMs <= e.start.ms + EventLengthMs <= MaxTimeMs ==> e.end == Valid(e.start.ms + EventLengthMs))
  {
  }

  /** The title ends in the check mark exactly when the status is `'completed'`. */
  lemma TitleMarksCompletion(d: Delivery, env: Env)
    ensures EndsWith(EventTitle(d, env), CheckMark) <==> Completed(Field(d, "status"))
  {
    var t := EventTitle(d, env);
    if !Completed(Field(d, "status")) {
      assert t[|t| - 1] == ')';
      assert CheckMark[|CheckMark| - 1] == '✔';
    }
  }

  /** A customer with a name leads the title with it; otherwise the title starts with 'Delivery'. */
  lemma TitleStartsWithName(d: Delivery, env: Env)
    ensures CustomerName(d).Str? && CustomerName(d).s != "" ==> StartsWith(EventTitle(d, env), CustomerName(d).s)
    ensures !Truthy(CustomerName(d)) ==> StartsWith(EventTitle(d, env), "Delivery")
  {
  }

  // ---------------------------------------------------------------------------
  // Colours

  const CompletedColor: string := "#bbf7d0"
  const ScheduledColor: string := "#fef9c3"
  const DelayedColor: string := "#fecaca"
  const OtherColor: string := "#fde68a"

  /** `eventStyleGetter`'s background: the later matching test wins. */
  function EventColor(status: Value): string
  {
    var bg := OtherColor;
    var bg := if StrictEquals(status, Str("completed")) then CompletedColor else bg;
    var bg := if StrictEquals(status, Str("scheduled")) then ScheduledColor else bg;
    if StrictEquals(status, Str("delayed")) then DelayedColor else bg
  }

  /** Each of the three statuses has its own colour, and every other status the default one. */
  lemma EventColorSpec(status: Value)
    ensures EventColor(status) == CompletedColor <==> status == Str("completed")
    ensures EventColor(status) == ScheduledColor <==> status == Str("scheduled")
    ensures EventColor(status) == DelayedColor <==> status == Str("delayed")
    ensures EventColor(status) == OtherColor
        <==> status !in {Str("completed"), Str("scheduled"), Str("delayed")}
  {
    assert CompletedColor[1] != ScheduledColor[1] && CompletedColor[1] != DelayedColor[1];
    assert CompletedColor[1] != OtherColor[1] && ScheduledColor[3] != DelayedColor[3];
    assert ScheduledColor[2] != OtherColor[2] && DelayedColor[2] != OtherColor[2];
  }

  // ---------------------------------------------------------------------------
  // Actions

  /** What the confirmation modal is about to do. */
  datatype ConfirmContext = NoAction | DeleteDelivery(id: Value) | CompleteDelivery(id: Value)

  /** The part of the page state the action buttons change. */
  datatype ActionState = ActionState(actionTarget: Option<Delivery>, confirmOpen: bool, confirmContext: ConfirmContext)

  /** The "Delete" button of the action popup. */
  function DeleteClicked(s: ActionState): (t: ActionState)
    requires s.actionTarget.Some?
    ensures t.actionTarget.None? && t.confirmOpen
    ensures t.confirmContext == DeleteDelivery(Field(s.actionTarget.value, "delivery_id"))
  {
    ActionState(None, true, DeleteDelivery(Field(s.actionTarget.value, "delivery_id")))
  }

  /** The "Completed" button: nothing for a completed delivery, else a confirmation to complete it. */
  function CompleteClicked(s: ActionState): (t: ActionState)
    requires s.actionTarget.Some?
  {
    var target := s.actionTarget.value;
    if Completed(Field(target, "status")) then s
    else ActionState(None, true, CompleteDelivery(Field(target, "delivery_id")))
  }

  /** Completing is offered only for a delivery that is not completed yet. */
  lemma CompleteClickedSpec(s: ActionState)
    requires s.actionTarget.Some?
    ensures Completed(Field(s.actionTarget.value, "status")) <==> CompleteClicked(s) == s
    ensures !Completed(Field(s.actionTarget.value, "status")) ==>
      CompleteClicked(s).confirmContext == CompleteDelivery(Field(s.actionTarget.value, "delivery_id"))
      && CompleteClicked(s).confirmOpen && CompleteClicked(s).actionTarget.None?
  {
  }
}
