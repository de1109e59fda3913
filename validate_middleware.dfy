/**
 * Request validation for the queue routes
 * (`backend/src/middlewares/validate.middleware.js`): every failing rule is
 * reported, in the order the rules are written, and the request goes on
 * only when none fails.
 */
module ValidateMiddleware {
  import opened Common
  import opened Text
  import opened Response
  import QueueService

  const ALLOWED_CATEGORIES: seq<string> := ["RECEIVING", "DELIVERY"]
  const ALLOWED_STATUSES: seq<string> := ["MENUNGGU", "IN_WH", "PROSES", "SELESAI", "BATAL"]

  const MSG_FAILED := "Validasi gagal"

  /** The messages of `validateQueueCreate`, in rule order. */
  const CREATE_MESSAGES: seq<string> := [
    "category harus RECEIVING atau DELIVERY",
    "customerId wajib diisi",
    "driverName wajib diisi",
    "truckNumber wajib diisi"]

  /** The messages of `validateQueueUpdate`, in rule order. */
  const UPDATE_MESSAGES: seq<string> := [
    "category harus RECEIVING atau DELIVERY",
    "customerId tidak boleh kosong",
    "driverName tidak boleh kosong",
    "truckNumber tidak boleh kosong",
    "containerNumber harus string",
    "notes harus string"]

  /** `isNonEmptyString(v)`: a string with at least one non-white-space character. */
  predicate IsNonEmptyString(v: JsValue)
  {
    v.Str? && |Trim(v.s)| > 0
  }

  /** A value passes `isNonEmptyString` exactly when it is a string holding a non-white-space character. */
  lemma NonEmptyStringMeaning(v: JsValue)
    ensures IsNonEmptyString(v) <==> v.Str? && exists i :: 0 <= i < |v.s| && !IsSpace(v.s[i])
  {
  }

  /** `ALLOWED_CATEGORIES.includes(v)`: exactly one of the two strings, case included. */
  predicate CategoryAllowed(v: JsValue)
  {
    v.Str? && v.s in ALLOWED_CATEGORIES
  }

  /** The fields of a queue request body the validators look at. */
  datatype QueueBody = QueueBody(
    category: JsValue,
    customerId: JsValue,
    driverName: JsValue,
    truckNumber: JsValue,
    containerNumber: JsValue,
    notes: JsValue)

  /** The answer a validator gives when `errors` is non-empty, or `next()`. */
  function Verdict(errors: seq<string>): (r: Outcome)
    ensures r.CallNext? <==> errors == []
    ensures r.Respond? ==> r.reply == SendError(400, MSG_FAILED, Some(errors))
  {
    if |errors| > 0 then Respond(SendError(400, MSG_FAILED, Some(errors))) else CallNext
  }

  /** Which of the create rules fail, in rule order. */
  function CreateFailures(body: QueueBody): seq<bool>
  {
    [!CategoryAllowed(body.category), !IsNonEmptyString(body.customerId),
     !IsNonEmptyString(body.driverName), !IsNonEmptyString(body.truckNumber)]
  }

  /** Which of the update rules fail, in rule order; a rule skips an undefined field. */
  function UpdateFailures(body: QueueBody): seq<bool>
  {
    [!body.category.Undefined? && !CategoryAllowed(body.category),
     !body.customerId.Undefined? && !IsNonEmptyString(body.customerId),
     !body.driverName.Undefined? && !IsNonEmptyString(body.driverName),
     !body.truckNumber.Undefined? && !IsNonEmptyString(body.truckNumber),
     !body.containerNumber.Undefined? && !body.containerNumber.Str?,
     !body.notes.Undefined? && !body.notes.Str?]
  }

  /**
   * `validateQueueCreate`: the collected messages are those of the failing
   * rules, in rule order, and the request goes on exactly when none fails.
   */
  method ValidateQueueCreate(body: QueueBody) returns (errors: seq<string>, r: Outcome)
    ensures errors == Selected(CREATE_MESSAGES, CreateFailures(body), 4)
    ensures r == Verdict(errors)
  {
    ghost var flags := CreateFailures(body);
    errors := [];
    if !CategoryAllowed(body.category) {
      errors := errors + [CREATE_MESSAGES[0]];
    }
    assert errors == Selected(CREATE_MESSAGES, flags, 1);
    if !IsNonEmptyString(body.customerId) {
      errors := errors + [CREATE_MESSAGES[1]];
    }
    assert errors == Selected(CREATE_MESSAGES, flags, 2);
    if !IsNonEmptyString(body.driverName) {
      errors := errors + [CREATE_MESSAGES[2]];
    }
    assert errors == Selected(CREATE_MESSAGES, flags, 3);
    if !IsNonEmptyString(body.truckNumber) {
      errors := errors + [CREATE_MESSAGES[3]];
    }
    assert errors == Selected(CREATE_MESSAGES, flags, 4);
    r := Verdict(errors);
  }

  /** Each create message is reported exactly when its rule fails; a body passes only when all hold. */
  lemma CreateMessagesIff(body: QueueBody)
    ensures var errors := Selected(CREATE_MESSAGES, CreateFailures(body), 4);
      && (CREATE_MESSAGES[0] in errors <==> !CategoryAllowed(body.category))
      && (CREATE_MESSAGES[1] in errors <==> !IsNonEmptyString(body.customerId))
      && (CREATE_MESSAGES[2] in errors <==> !IsNonEmptyString(body.driverName))
      && (CREATE_MESSAGES[3] in errors <==> !IsNonEmptyString(body.truckNumber))
  {
    var flags := CreateFailures(body);
    assert flags[0] == !CategoryAllowed(body.category) && flags[1] == !IsNonEmptyString(body.customerId);
    assert flags[2] == !IsNonEmptyString(body.driverName) && flags[3] == !IsNonEmptyString(body.truckNumber);
    assert Distinct(CREATE_MESSAGES);
    SelectedMembership(CREATE_MESSAGES, flags, 4, 0);
    SelectedMembership(CREATE_MESSAGES, flags, 4, 1);
    SelectedMembership(CREATE_MESSAGES, flags, 4, 2);
    SelectedMembership(CREATE_MESSAGES, flags, 4, 3);
  }

  /** A create body goes on to the service exactly when all four rules hold. */
  lemma CreatePassesIff(body: QueueBody)
    ensures Selected(CREATE_MESSAGES, CreateFailures(body), 4) == [] <==>
      CategoryAllowed(body.category) && IsNonEmptyString(body.customerId) &&
      IsNonEmptyString(body.driverName) && IsNonEmptyString(body.truckNumber)
  {
    NoneOfFour(CREATE_MESSAGES, CreateFailures(body));
  }

  lemma NoneOfFour<T>(xs: seq<T>, flags: seq<bool>)
    requires |flags| == 4 == |xs|
    ensures Selected(xs, flags, 4) == [] <==> !flags[0] && !flags[1] && !flags[2] && !flags[3]
  {
    SelectedEmpty(xs, flags, 4);
  }

  /**
   * `validateQueueUpdate`: the same shape, where a rule only applies to a
   * field that is present (not undefined).
   */
  method ValidateQueueUpdate(body: QueueBody) returns (errors: seq<string>, r: Outcome)
    ensures errors == Selected(UPDATE_MESSAGES, UpdateFailures(body), 6)
    ensures r == Verdict(errors)
  {
    ghost var flags := UpdateFailures(body);
    errors := [];
    if !body.category.Undefined? && !CategoryAllowed(body.category) {
      errors := errors + [UPDATE_MESSAGES[0]];
    }
    assert errors == Selected(UPDATE_MESSAGES, flags, 1);
    if !body.customerId.Undefined? && !IsNonEmptyString(body.customerId) {
      errors := errors + [UPDATE_MESSAGES[1]];
    }
    assert errors == Selected(UPDATE_MESSAGES, flags, 2);
    if !body.driverName.Undefined? && !IsNonEmptyString(body.driverName) {
      errors := errors + [UPDATE_MESSAGES[2]];
    }
    assert errors == Selected(UPDATE_MESSAGES, flags, 3);
    if !body.truckNumber.Undefined? && !IsNonEmptyString(body.truckNumber) {
      errors := errors + [UPDATE_MESSAGES[3]];
    }
    assert errors == Selected(UPDATE_MESSAGES, flags, 4);
    if !body.containerNumber.Undefined? && !body.containerNumber.Str? {
      errors := errors + [UPDATE_MESSAGES[4]];
    }
    assert errors == Selected(UPDATE_MESSAGES, flags, 5);
    if !body.notes.Undefined? && !body.notes.Str? {
      errors := errors + [UPDATE_MESSAGES[5]];
    }
    assert errors == Selected(UPDATE_MESSAGES, flags, 6);
    r := Verdict(errors);
  }

  /**
   * An update body with every field undefined always passes; `containerNumber`
   * and `notes` are refused exactly when present and not strings, so null is
   * refused and "" accepted.
   */
  lemma UpdateMessagesIff(body: QueueBody)
    ensures var errors := Selected(UPDATE_MESSAGES, UpdateFailures(body), 6);
      && (UPDATE_MESSAGES[0] in errors <==> !body.category.Undefined? && !CategoryAllowed(body.category))
      && (UPDATE_MESSAGES[1] in errors <==> !body.customerId.Undefined? && !IsNonEmptyString(body.customerId))
      && (UPDATE_MESSAGES[2] in errors <==> !body.driverName.Undefined? && !IsNonEmptyString(body.driverName))
      && (UPDATE_MESSAGES[3] in errors <==> !body.truckNumber.Undefined? && !IsNonEmptyString(body.truckNumber))
      && (UPDATE_MESSAGES[4] in errors <==> !body.containerNumber.Undefined? && !body.containerNumber.Str?)
      && (UPDATE_MESSAGES[5] in errors <==> !body.notes.Undefined? && !body.notes.Str?)
      && (body == QueueBody(Undefined, Undefined, Undefined, Undefined, Undefined, Undefined) ==> errors == [])
  {
    var flags := UpdateFailures(body);
    assert Distinct(UPDATE_MESSAGES);
    SelectedMembership(UPDATE_MESSAGES, flags, 6, 0);
    SelectedMembership(UPDATE_MESSAGES, flags, 6, 1);
    SelectedMembership(UPDATE_MESSAGES, flags, 6, 2);
    SelectedMembership(UPDATE_MESSAGES, flags, 6, 3);
    SelectedMembership(UPDATE_MESSAGES, flags, 6, 4);
    SelectedMembership(UPDATE_MESSAGES, flags, 6, 5);
    SelectedEmpty(UPDATE_MESSAGES, flags, 6);
  }

  /**
   * `validateStatusChange`: `next()` exactly for one of the five status
   * names, which are exactly the strings the status machine knows.
   */
  function ValidateStatusChange(newStatus: JsValue): (r: Outcome)
    ensures r.CallNext? <==> newStatus.Str? && QueueService.StatusNamed(newStatus.s).Some?
    ensures r.Respond? ==> r.reply == SendError(400, MSG_FAILED, Some(["newStatus tidak valid"]))
  {
    if !(newStatus.Str? && newStatus.s in ALLOWED_STATUSES) then
      Respond(SendError(400, MSG_FAILED, Some(["newStatus tidak valid"])))
    else CallNext
  }
}
