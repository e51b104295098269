/**
 * The truck management page: which drivers the add and edit forms offer, the required-field
 * check, the `driver_id` the truck requests carry, the mapping of server error messages, and
 * the page state its handlers update. Server replies are parameters of the handlers.
 */
module TruckManagementPage {
  import opened JsValues

  // ---------------------------------------------------------------------------
  // Data

  /** A truck as the server lists it; `driverId` is a number or `null`. */
  datatype Truck = Truck(truckId: Value, plateNumber: Value, status: Value, capacity: Value, driverId: Value)

  /** A driver as the server lists it. */
  datatype Driver = Driver(driverId: Value, name: Value, phone: Value)

  /** The add or edit form; inputs hold text, an opened edit form holds the truck's values. */
  datatype TruckForm = TruckForm(truckId: Value, plateNumber: Value, status: Value, capacity: Value, driverId: Value)

  /** The form inputs that `handleFormChange` and `handleEditFormChange` write by name. */
  datatype TruckField = PlateNumber | Status | Capacity | DriverSelect

  /** `{ ...f, [name]: value }`. */
  function WithField(f: TruckForm, field: TruckField, value: string): (g: TruckForm)
    ensures g.truckId == f.truckId
  {
    match field
    case PlateNumber => f.(plateNumber := Str(value))
    case Status => f.(status := Str(value))
    case Capacity => f.(capacity := Str(value))
    case DriverSelect => f.(driverId := Str(value))
  }

  /** The empty add form, also what the edit form is reset to. */
  function EmptyForm(): TruckForm
  {
    TruckForm(Null, Str(""), Str("available"), Str(""), Str(""))
  }

  /** `openEditModal`: the truck's values, with `driver_id || ''`. */
  function EditFormOf(truck: Truck): (f: TruckForm)
    ensures f.driverId == (if Truthy(truck.driverId) then truck.driverId else Str(""))
    ensures f.truckId == truck.truckId && f.plateNumber == truck.plateNumber
    ensures f.status == truck.status && f.capacity == truck.capacity
  {
    TruckForm(truck.truckId, truck.plateNumber, truck.status, truck.capacity, Or(truck.driverId, Str("")))
  }

  // ---------------------------------------------------------------------------
  // Driver eligibility

  /** SameValueZero, the equality `includes` uses: `===`, except that NaN equals NaN. */
  predicate SameValueZero(a: Value, b: Value)
  {
    StrictEquals(a, b) || (a == Num(NaN) && b == Num(NaN))
  }

  /** `xs.includes(x)`. */
  predicate Includes(xs: seq<Value>, x: Value)
  {
    exists i :: 0 <= i < |xs| && SameValueZero(xs[i], x)
  }

  /** `trucks.map(t => t.driver_id)`. */
  function DriverIds(trucks: seq<Truck>): (ids: seq<Value>)
    ensures |ids| == |trucks|
    ensures forall i :: 0 <= i < |trucks| ==> ids[i] == trucks[i].driverId
  {
    seq(|trucks|, i requires 0 <= i < |trucks| => trucks[i].driverId)
  }

  predicate HasDriver(t: Truck)
  {
    Truthy(t.driverId)
  }

  /** The drivers the add form offers. */
  function AddFormDrivers(drivers: seq<Driver>, trucks: seq<Truck>): seq<Driver>
  {
    var taken := DriverIds(Filter(trucks, HasDriver));
    Filter(drivers, (d: Driver) => !Includes(taken, d.driverId))
  }

  /** Some truck with a truthy `driver_id` carries `id`. */
  predicate AssignedAnywhere(id: Value, trucks: seq<Truck>)
  {
    exists i :: 0 <= i < |trucks| && Truthy(trucks[i].driverId) && SameValueZero(trucks[i].driverId, id)
  }

  /** Some truck other than the edited one, with a truthy `driver_id`, carries `id`. */
  predicate AssignedElsewhere(id: Value, trucks: seq<Truck>, editedId: Value)
  {
    exists i :: 0 <= i < |trucks| && Truthy(trucks[i].driverId) && !StrictEquals(trucks[i].truckId, editedId)
                && SameValueZero(trucks[i].driverId, id)
  }

  /** Some truck, the edited one included, carries `id` under `===`. */
  predicate CarriedByAny(id: Value, trucks: seq<Truck>)
  {
    exists i :: 0 <= i < |trucks| && StrictEquals(trucks[i].driverId, id)
  }

  lemma IncludesOfFiltered(trucks: seq<Truck>, keep: Truck -> bool, id: Value)
    ensures Includes(DriverIds(Filter(trucks, keep)), id)
        <==> exists i :: 0 <= i < |trucks| && keep(trucks[i]) && SameValueZero(trucks[i].driverId, id)
  {
    var ids := DriverIds(Filter(trucks, keep));
    if Includes(ids, id) {
      var k :| 0 <= k < |ids| && SameValueZero(ids[k], id);
      var i := IncludedFromKept(trucks, keep, k);
      assert SameValueZero(trucks[i].driverId, id);
    }
    if exists i :: 0 <= i < |trucks| && keep(trucks[i]) && SameValueZero(trucks[i].driverId, id) {
      var i :| 0 <= i < |trucks| && keep(trucks[i]) && SameValueZero(trucks[i].driverId, id);
      var k := KeptIncluded(trucks, keep, i);
      assert SameValueZero(ids[k], id);
    }
  }

  /** The truck behind the `k`-th surviving driver id. */
  lemma IncludedFromKept(trucks: seq<Truck>, keep: Truck -> bool, k: nat) returns (i: nat)
    requires k < |Filter(trucks, keep)|
    ensures i < |trucks| && keep(trucks[i]) && trucks[i].driverId == DriverIds(Filter(trucks, keep))[k]
  {
    var kept := Filter(trucks, keep);
    assert keep(kept[k]) && kept[k] in trucks;
    i :| 0 <= i < |trucks| && trucks[i] == kept[k];
  }

  /** The position among the surviving driver ids of a kept truck's id. */
  lemma KeptIncluded(trucks: seq<Truck>, keep: Truck -> bool, i: nat) returns (k: nat)
    requires i < |trucks| && keep(trucks[i])
    ensures k < |Filter(trucks, keep)| && DriverIds(Filter(trucks, keep))[k] == trucks[i].driverId
  {
    var kept := Filter(trucks, keep);
    assert trucks[i] in kept;
    k :| 0 <= k < |kept| && kept[k] == trucks[i];
  }


  /**
   * The add form offers exactly the drivers no truck with a truthy `driver_id` carries, in
   * the order of the driver list.
   */
  lemma AddFormDriversSpec(drivers: seq<Driver>, trucks: seq<Truck>)
    ensures AddFormDrivers(drivers, trucks) == Filter(drivers, (d: Driver) => !AssignedAnywhere(d.driverId, trucks))
    ensures forall d :: d in AddFormDrivers(drivers, trucks) <==> d in drivers && !AssignedAnywhere(d.driverId, trucks)
  {
    var taken := DriverIds(Filter(trucks, HasDriver));
    forall i | 0 <= i < |drivers|
      ensures !Includes(taken, drivers[i].driverId) == !AssignedAnywhere(drivers[i].driverId, trucks)
    {
      IncludesOfFiltered(trucks, HasDriver, drivers[i].driverId);
    }
    FilterAgree(drivers, (d: Driver) => !Includes(taken, d.driverId),
                (d: Driver) => !AssignedAnywhere(d.driverId, trucks));
  }

  /** The source's test for one driver of the edit form. */
  predicate EditOffers(d: Driver, trucks: seq<Truck>, form: TruckForm)
  {
    var taken := DriverIds(Filter(trucks, (t: Truck) => Truthy(t.driverId) && !StrictEquals(t.truckId, form.truckId)));
    if Includes(taken, d.driverId) then false
    else if StrictEquals(d.driverId, form.driverId) then true
    else !CarriedByAny(d.driverId, trucks)
  }

  /** The drivers the edit form offers. */
  function EditFormDrivers(drivers: seq<Driver>, trucks: seq<Truck>, form: TruckForm): (offered: seq<Driver>)
    ensures forall d :: d in offered <==> d in drivers && EditOffers(d, trucks, form)
  {
    Filter(drivers, (d: Driver) => EditOffers(d, trucks, form))
  }

  /** The edit form's test, stated through the three rules it applies in turn. */
  lemma EditOffersSpec(d: Driver, trucks: seq<Truck>, form: TruckForm)
    ensures AssignedElsewhere(d.driverId, trucks, form.truckId) ==> !EditOffers(d, trucks, form)
    ensures !AssignedElsewhere(d.driverId, trucks, form.truckId) && StrictEquals(d.driverId, form.driverId)
      ==> EditOffers(d, trucks, form)
    ensures !AssignedElsewhere(d.driverId, trucks, form.truckId) && !StrictEquals(d.driverId, form.driverId)
      ==> (EditOffers(d, trucks, form) <==> !CarriedByAny(d.driverId, trucks))
  {
    IncludesOfFiltered(trucks, (t: Truck) => Truthy(t.driverId) && !StrictEquals(t.truckId, form.truckId), d.driverId);
  }

  /** A driver assigned to another truck is never offered by the edit form. */
  lemma EditNeverOffersAssignedElsewhere(drivers: seq<Driver>, trucks: seq<Truck>, form: TruckForm)
    ensures forall d :: d in EditFormDrivers(drivers, trucks, form) ==> !AssignedElsewhere(d.driverId, trucks, form.truckId)
  {
    forall d | d in EditFormDrivers(drivers, trucks, form)
      ensures !AssignedElsewhere(d.driverId, trucks, form.truckId)
    {
      EditOffersSpec(d, trucks, form);
    }
  }

  /** Right after opening, the edit form offers the truck's own driver unless another truck has it. */
  lemma EditOffersOwnDriverOnOpen(d: Driver, truck: Truck, trucks: seq<Truck>)
    requires Truthy(truck.driverId) && StrictEquals(d.driverId, truck.driverId)
    requires !AssignedElsewhere(d.driverId, trucks, truck.truckId)
    ensures EditOffers(d, trucks, EditFormOf(truck))
  {
    EditOffersSpec(d, trucks, EditFormOf(truck));
  }

  /**
   * Once the driver select has been changed, the form holds the driver id as text, which is
   * never `===` the numeric id: the edited truck's own driver then drops out of the list.
   */
  lemma EditHidesOwnDriverAfterChange(d: Driver, trucks: seq<Truck>, form: TruckForm, k: nat, selected: string)
    requires k < |trucks| && trucks[k].driverId.Num? && StrictEquals(trucks[k].driverId, d.driverId)
    requires form.driverId == Str(selected)
    ensures !EditOffers(d, trucks, form)
  {
    EditOffersSpec(d, trucks, form);
    assert CarriedByAny(d.driverId, trucks) by {
      assert StrictEquals(trucks[k].driverId, d.driverId);
    }
  }

  // ---------------------------------------------------------------------------
  // Validation, payload and messages

  const RequiredMessage: string := "All fields except driver are required."
  const PlateInUse: string := "This truck plate is already used."
  const AddTruckFailed: string := "Failed to add truck."
  const UpdateTruckFailed: string := "Failed to update truck."

  /** The check before an add or edit request: plate, status and capacity must be truthy. */
  predicate MissingRequired(f: TruckForm)
  {
    !Truthy(f.plateNumber) || !Truthy(f.status) || !Truthy(f.capacity)
  }

  /**
   * `driver_id ? parseInt(driver_id, 10) : null`, by the kind of value; a NaN is sent as `null`
   * by `JSON.stringify`. The texts of `true` and of an object hold no digits.
   */
  function DriverIdPayload(driverId: Value, env: Env): (r: Option<int>)
    ensures !Truthy(driverId) ==> r.None?
  {
    match driverId
    case Str(s) => if s != "" then ParseInt(s) else None
    case Num(n) => if TruthyNumber(n) then ParseInt(NumberToString(n, env)) else None
    case Arr(items) => ParseInt(JoinElements(items, env))
    case _ => None
  }

  /** The payload is `parseInt(String(driver_id), 10)` for a truthy id and `null` otherwise. */
  lemma DriverIdPayloadSpec(driverId: Value, env: Env)
    ensures DriverIdPayload(driverId, env) == if Truthy(driverId) then ParseInt(ToJsString(driverId, env)) else None
  {
    match driverId
    case Bool(b) =>
      if b {
        var t := ToJsString(driverId, env);
        assert t == "true" && t[0] == 't';
        ParseIntOfLetter(t);
      }
    case Obj(_) =>
      var t := ToJsString(driverId, env);
      assert t == "[object Object]" && t[0] == '[';
      ParseIntOfLetter(t);
    case _ =>
  }

  /** A text that starts with neither white space, a sign nor a digit parses to NaN. */
  lemma ParseIntOfLetter(t: string)
    requires t != [] && !IsJsWhiteSpace(t[0]) && !IsDigit(t[0]) && t[0] != '-' && t[0] != '+'
    ensures ParseInt(t) == None
  {
    assert TrimStart(t) == t;
    assert LeadingDigits(t) == [];
  }

  /** The selected option's text `n` is sent as the integer `n`. */
  lemma DriverIdPayloadOfText(n: int, env: Env)
    ensures DriverIdPayload(Str(DecimalText(n)), env) == Some(n)
  {
    ParseIntOfDecimalText(n);
  }

  /** An opened edit form's numeric driver id is sent back as the same integer. */
  lemma DriverIdPayloadOfNumber(n: int, env: Env)
    requires n != 0 && -1000000000000000000000 < n < 1000000000000000000000
    ensures DriverIdPayload(Num(Finite(n as real)), env) == Some(n)
  {
    assert (n as real).Floor == n;
    assert NumberToString(Finite(n as real), env) == DecimalText(n);
    ParseIntOfDecimalText(n);
  }

  /** The body of an add or edit request. */
  datatype TruckPayload = TruckPayload(plateNumber: Value, status: Value, capacity: Value, driverId: Option<int>)

  function PayloadOf(f: TruckForm, env: Env): TruckPayload
  {
    TruckPayload(f.plateNumber, f.status, f.capacity, DriverIdPayload(f.driverId, env))
  }

  /** `msg = data.error || fallback`, replaced when it mentions a plate in any letter case. */
  function TruckErrorMessage(error: Option<string>, fallback: string): (msg: string)
    ensures Contains(AsciiLower(OrText(error, fallback)), "plate") ==> msg == PlateInUse
    ensures !Contains(AsciiLower(OrText(error, fallback)), "plate") ==> msg == OrText(error, fallback)
  {
    var msg := OrText(error, fallback);
    if Contains(AsciiLower(msg), "plate") then PlateInUse else msg
  }

  /** The plate message maps to itself: the mapping is idempotent. */
  lemma TruckErrorMessageIdempotent(error: Option<string>, fallback: string)
    ensures TruckErrorMessage(Some(TruckErrorMessage(error, fallback)), fallback) == TruckErrorMessage(error, fallback)
  {
    var msg := TruckErrorMessage(error, fallback);
    if msg == PlateInUse {
      PlateInUseMentionsPlate();
    }
  }

  lemma PlateInUseMentionsPlate()
    ensures Contains(AsciiLower(PlateInUse), "plate")
  {
    var p := PlateInUse;
    assert p == "This truck " + "plate" + " is already used.";
    assert p[11..16] == "plate";
    LowerCasePlateKept(p, 11);
  }

  /** A lower-case `plate` survives lowering. */
  lemma LowerCasePlateKept(s: string, i: nat)
    requires i + 5 <= |s| && s[i..i + 5] == "plate"
    ensures Contains(AsciiLower(s), "plate")
  {
    assert AsciiLower("plate") == "plate" by {
      var q := AsciiLower("plate");
      assert |q| == 5 && q[0] == 'p' && q[1] == 'l' && q[2] == 'a' && q[3] == 't' && q[4] == 'e';
    }
    LoweredOccurrence(s, "plate", i);
  }

  /** An upper-case `PLATE` anywhere in the server message yields the plate message. */
  lemma TruckErrorMessageUpperCase(error: string, fallback: string, i: nat)
    requires OccursAt(error, "PLATE", i)
    ensures TruckErrorMessage(Some(error), fallback) == PlateInUse
  {
    assert AsciiLower("PLATE") == "plate" by {
      var q := AsciiLower("PLATE");
      assert |q| == 5 && q[0] == 'p' && q[1] == 'l' && q[2] == 'a' && q[3] == 't' && q[4] == 'e';
    }
    LoweredOccurrence(error, "PLATE", i);
  }

  /** Lowering a text lowers every occurrence of a pattern in it, in place. */
  lemma LoweredOccurrence(s: string, pattern: string, i: nat)
    requires OccursAt(s, pattern, i)
    ensures OccursAt(AsciiLower(s), AsciiLower(pattern), i)
  {
    var t, q := AsciiLower(s), AsciiLower(pattern);
    var n := |pattern|;
    var w := t[i..i + n];
    assert |w| == n == |q|;
    forall k | 0 <= k < n
      ensures w[k] == q[k]
    {
      var c := pattern[k];
      assert s[i + k] == c by {
        assert s[i + k] == s[i..i + n][k];
      }
      assert w[k] == t[i + k];
    }
    assert w == q;
  }

  /** Without a server message a fallback free of `p` and `P` is used as it is. */
  lemma TruckErrorMessageFallback(fallback: string)
    requires forall i :: 0 <= i < |fallback| ==> fallback[i] != 'p' && fallback[i] != 'P'
    ensures TruckErrorMessage(None, fallback) == fallback
  {
    NoPlateInLower(fallback);
  }

  /** A text without `p` or `P` does not mention a plate in any letter case. */
  lemma NoPlateInLower(s: string)
    requires forall i :: 0 <= i < |s| ==> s[i] != 'p' && s[i] != 'P'
    ensures !Contains(AsciiLower(s), "plate")
  {
    var t := AsciiLower(s);
    assert forall i :: 0 <= i < |t| ==> t[i] != 'p';
    AbsentFirstChar(t, "plate");
  }

  /** A text that lacks the first character of a pattern does not contain it. */
  lemma AbsentFirstChar(t: string, pattern: string)
    requires pattern != [] && forall i :: 0 <= i < |t| ==> t[i] != pattern[0]
    ensures !Contains(t, pattern)
  {
    forall i | 0 <= i && i + |pattern| <= |t|
      ensures !OccursAt(t, pattern, i)
    {
      assert t[i..i + |pattern|][0] == t[i] != pattern[0];
    }
  }


  // ---------------------------------------------------------------------------
  // Page state

  datatype Notification = Notification(message: string, kind: string)

  /**
   * The reply to a save request: success; failure with the body's `error` field; or a request
   * that never yields a body (the `fetch` rejects, or the error body is not JSON), which throws
   * out of the handler after its synchronous prefix.
   */
  datatype SaveReply = Saved | Rejected(error: Option<string>) | RequestFailed

  /** The reply to the DELETE request: status 204, any other status, or a rejected `fetch`. */
  datatype RetireReply = Retired | NotRetired | RetireRequestFailed

  /** The inputs of the add-driver form, by the `name` they carry. */
  datatype DriverField = Name | Phone

  class TruckManagementState {
    var trucks: seq<Truck>
    var drivers: seq<Driver>
    var loading: bool
    var error: string
    var notification: Notification
    var form: TruckForm
    var formError: string
    var addModalOpen: bool
    var editForm: TruckForm
    var editFormError: string
    var editModalOpen: bool
    var driverName: string
    var driverPhone: string
    var driverFormError: string
    var addDriverModalOpen: bool
    var retireOpen: bool
    var retireTruckId: Value

    constructor ()
      ensures trucks == [] && drivers == [] && loading && error == "" && notification == Notification("", "")
      ensures form == EmptyForm() && formError == "" && !addModalOpen
      ensures editForm == EmptyForm() && editFormError == "" && !editModalOpen
      ensures driverName == "" && driverPhone == "" && driverFormError == "" && !addDriverModalOpen
      ensures !retireOpen && retireTruckId == Null
    {
      trucks := [];
      drivers := [];
      loading := true;
      error := "";
      notification := Notification("", "");
      form := EmptyForm();
      formError := "";
      addModalOpen := false;
      editForm := EmptyForm();
      editFormError := "";
      editModalOpen := false;
      driverName := "";
      driverPhone := "";
      driverFormError := "";
      addDriverModalOpen := false;
      retireOpen := false;
      retireTruckId := Null;
    }

    /** `openEditModal`. */
    method OpenEditModal(truck: Truck)
      modifies this`editForm, this`editFormError, this`editModalOpen
      ensures editForm == EditFormOf(truck) && editFormError == "" && editModalOpen
    {
      editForm := EditFormOf(truck);
      editFormError := "";
      editModalOpen := true;
    }

    /** The "Retire" button of a truck's row: opens the confirmation for that truck. */
    method OpenRetireModal(truck: Truck)
      modifies this`retireOpen, this`retireTruckId
      ensures retireOpen && retireTruckId == truck.truckId
    {
      retireOpen := true;
      retireTruckId := truck.truckId;
    }

    /**
     * The end of `fetchTrucks`: the parsed truck list, or `None` when the request or the parse
     * fails. Loading ends either way.
     */
    method ReceiveTrucks(reply: Option<seq<Truck>>)
      modifies this`trucks, this`error, this`loading
      ensures reply.Some? ==> trucks == reply.value && error == old(error)
      ensures reply.None? ==> trucks == old(trucks) && error == "Failed to fetch trucks."
      ensures !loading
    {
      match reply {
        case Some(data) => trucks := data;
        case None => error := "Failed to fetch trucks.";
      }
      loading := false;
    }

    /** The driver list request: the parsed list, or `None`, which empties the list. */
    method ReceiveDrivers(reply: Option<seq<Driver>>)
      modifies this`drivers
      ensures reply.Some? ==> drivers == reply.value
      ensures reply.None? ==> drivers == []
    {
      drivers := if reply.Some? then reply.value else [];
    }

    /** The add form's driver options, from the current lists: the drivers no truck carries. */
    function AddFormOffers(): (offered: seq<Driver>)
      reads this
      ensures forall d :: d in offered <==> d in drivers && !AssignedAnywhere(d.driverId, trucks)
    {
      AddFormDriversSpec(drivers, trucks);
      AddFormDrivers(drivers, trucks)
    }

    /**
     * The edit form's driver options, from the current lists and form: never a driver another
     * truck carries, and otherwise the form's own driver or one no truck carries.
     */
    function EditFormOffers(): (offered: seq<Driver>)
      reads this
      ensures forall d :: d in offered ==> d in drivers && !AssignedElsewhere(d.driverId, trucks, editForm.truckId)
      ensures forall d :: (d in drivers && !AssignedElsewhere(d.driverId, trucks, editForm.truckId)
                           && (StrictEquals(d.driverId, editForm.driverId) || !CarriedByAny(d.driverId, trucks)))
                          ==> d in offered
    {
      var offered := EditFormDrivers(drivers, trucks, editForm);
      assert forall d: Driver :: EditOffers(d, trucks, editForm) <==>
          (!AssignedElsewhere(d.driverId, trucks, editForm.truckId)
           && (StrictEquals(d.driverId, editForm.driverId) || !CarriedByAny(d.driverId, trucks))) by {
        forall d: Driver
          ensures EditOffers(d, trucks, editForm) <==>
            (!AssignedElsewhere(d.driverId, trucks, editForm.truckId)
             && (StrictEquals(d.driverId, editForm.driverId) || !CarriedByAny(d.driverId, trucks)))
        {
          EditOffersSpec(d, trucks, editForm);
        }
      }
      offered
    }

    /** `handleDriverFormChange`: `{...f, [name]: value}` on the add-driver form. */
    method ChangeDriverForm(field: DriverField, value: string)
      modifies this`driverName, this`driverPhone
      ensures field.Name? ==> driverName == value && driverPhone == old(driverPhone)
      ensures field.Phone? ==> driverPhone == value && driverName == old(driverName)
    {
      match field {
        case Name => driverName := value;
        case Phone => driverPhone := value;
      }
    }

    /** `handleFormChange`. */
    method ChangeForm(field: TruckField, value: string)
      modifies this`form
      ensures form == WithField(old(form), field, value)
    {
      form := WithField(form, field, value);
    }

    /** `handleEditFormChange`. */
    method ChangeEditForm(field: TruckField, value: string)
      modifies this`editForm
      ensures editForm == WithField(old(editForm), field, value)
    {
      editForm := WithField(editForm, field, value);
    }

    /** `handleAddTruck`: returns the body it posts, if any. */
    method HandleAddTruck(reply: SaveReply, env: Env) returns (sent: Option<TruckPayload>)
      modifies this`form, this`formError, this`addModalOpen, this`notification, this`loading
      ensures MissingRequired(old(form)) ==>
        && sent.None? && formError == RequiredMessage
        && notification == Notification(RequiredMessage, "error")
        && form == old(form) && addModalOpen == old(addModalOpen) && loading == old(loading)
      ensures !MissingRequired(old(form)) ==> sent == Some(PayloadOf(old(form), env))
      ensures !MissingRequired(old(form)) && reply.Saved? ==>
        && !addModalOpen && form == EmptyForm() && formError == "" && loading
        && notification == Notification("Truck added successfully.", "success")
      ensures !MissingRequired(old(form)) && reply.Rejected? ==>
        var msg := TruckErrorMessage(reply.error, AddTruckFailed);
        && formError == msg && notification == Notification(msg, "error")
        && form == old(form) && addModalOpen == old(addModalOpen) && loading == old(loading)
      ensures !MissingRequired(old(form)) && reply.RequestFailed? ==>
        && formError == "" && notification == old(notification)
        && form == old(form) && addModalOpen == old(addModalOpen) && loading == old(loading)
    {
      formError := "";
      if MissingRequired(form) {
        formError := RequiredMessage;
        notification := Notification(RequiredMessage, "error");
        return None;
      }
      sent := Some(PayloadOf(form, env));
      match reply {
        case Saved =>
          addModalOpen := false;
          form := EmptyForm();
          notification := Notification("Truck added successfully.", "success");
          loading := true;
        case Rejected(error) =>
          var msg := TruckErrorMessage(error, AddTruckFailed);
          formError := msg;
          notification := Notification(msg, "error");
        case RequestFailed =>
      }
    }

    /** `handleEditTruck`: returns the edited truck's id and the body it puts, if any. */
    method HandleEditTruck(reply: SaveReply, env: Env) returns (sent: Option<(Value, TruckPayload)>)
      modifies this`editForm, this`editFormError, this`editModalOpen, this`notification, this`loading
      ensures MissingRequired(old(editForm)) ==>
        && sent.None? && editFormError == RequiredMessage
        && notification == Notification(RequiredMessage, "error")
        && editForm == old(editForm) && editModalOpen == old(editModalOpen) && loading == old(loading)
      ensures !MissingRequired(old(editForm)) ==> sent == Some((old(editForm).truckId, PayloadOf(old(editForm), env)))
      ensures !MissingRequired(old(editForm)) && reply.Saved? ==>
        && !editModalOpen && editForm == EmptyForm() && editFormError == "" && loading
        && notification == Notification("Truck updated successfully.", "success")
      ensures !MissingRequired(old(editForm)) && reply.Rejected? ==>
        var msg := TruckErrorMessage(reply.error, UpdateTruckFailed);
        && editFormError == msg && notification == Notification(msg, "error")
        && editForm == old(editForm) && editModalOpen == old(editModalOpen) && loading == old(loading)
      ensures !MissingRequired(old(editForm)) && reply.RequestFailed? ==>
        && editFormError == "" && notification == old(notification)
        && editForm == old(editForm) && editModalOpen == old(editModalOpen) && loading == old(loading)
    {
      editFormError := "";
      if MissingRequired(editForm) {
        editFormError := RequiredMessage;
        notification := Notification(RequiredMessage, "error");
        return None;
      }
      sent := Some((editForm.truckId, PayloadOf(editForm, env)));
      match reply {
        case Saved =>
          editModalOpen := false;
          editForm := EmptyForm();
          notification := Notification("Truck updated successfully.", "success");
          loading := true;
        case Rejected(error) =>
          var msg := TruckErrorMessage(error, UpdateTruckFailed);
          editFormError := msg;
          notification := Notification(msg, "error");
        case RequestFailed =>
      }
    }

    /** `handleAddDriver`: returns the name and phone it posts, if any. */
    method HandleAddDriver(reply: SaveReply) returns (sent: Option<(string, string)>)
      modifies this`driverName, this`driverPhone, this`driverFormError, this`addDriverModalOpen, this`notification
      ensures old(driverName) == "" || old(driverPhone) == "" ==>
        && sent.None? && driverFormError == "Both name and phone are required."
        && notification == Notification("Both name and phone are required.", "error")
        && driverName == old(driverName) && driverPhone == old(driverPhone)
        && addDriverModalOpen == old(addDriverModalOpen)
      ensures old(driverName) != "" && old(driverPhone) != "" ==> sent == Some((old(driverName), old(driverPhone)))
      ensures old(driverName) != "" && old(driverPhone) != "" && reply.Saved? ==>
        && !addDriverModalOpen && driverName == "" && driverPhone == "" && driverFormError == ""
        && notification == Notification("Driver added successfully.", "success")
      ensures old(driverName) != "" && old(driverPhone) != "" && reply.Rejected? ==>
        var msg := OrText(reply.error, "Failed to add driver.");
        && driverFormError == msg && notification == Notification(msg, "error")
        && driverName == old(driverName) && driverPhone == old(driverPhone)
        && addDriverModalOpen == old(addDriverModalOpen)
      ensures old(driverName) != "" && old(driverPhone) != "" && reply.RequestFailed? ==>
        && driverFormError == "" && notification == old(notification)
        && driverName == old(driverName) && driverPhone == old(driverPhone)
        && addDriverModalOpen == old(addDriverModalOpen)
    {
      driverFormError := "";
      if driverName == "" || driverPhone == "" {
        driverFormError := "Both name and phone are required.";
        notification := Notification("Both name and phone are required.", "error");
        return None;
      }
      sent := Some((driverName, driverPhone));
      match reply {
        case Saved =>
          addDriverModalOpen := false;
          driverName := "";
          driverPhone := "";
          notification := Notification("Driver added successfully.", "success");
        case Rejected(error) =>
          var msg := OrText(error, "Failed to add driver.");
          driverFormError := msg;
          notification := Notification(msg, "error");

        case RequestFailed =>
      }
    }

    /**
     * `handleRetireTruck`, which the confirmation's button calls with the modal's truck id:
     * returns the id the DELETE request targets.
     */
    method HandleRetireTruck(truckId: Value, reply: RetireReply) returns (target: Value)
      modifies this`notification, this`loading, this`retireOpen, this`retireTruckId
      ensures target == truckId
      ensures reply.Retired? ==> notification == Notification("Truck retired successfully.", "success") && loading
      ensures reply.NotRetired? ==> notification == Notification("Failed to retire truck.", "error") && loading == old(loading)
      ensures !reply.RetireRequestFailed? ==> !retireOpen && retireTruckId == Null
      ensures reply.RetireRequestFailed? ==>
        && notification == old(notification) && loading == old(loading)
        && retireOpen == old(retireOpen) && retireTruckId == old(retireTruckId)
    {
      target := truckId;
      match reply {
        case Retired =>
          notification := Notification("Truck retired successfully.", "success");
          loading := true;
        case NotRetired =>
          notification := Notification("Failed to retire truck.", "error");
        case RetireRequestFailed =>
          return;
      }
      retireOpen := false;
      retireTruckId := Null;
    }
  }
}
