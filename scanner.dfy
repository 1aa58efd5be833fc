/** The QR scanner screen: a one-flag gate in front of payload validation, the
    event check, one check-in request and the classification of its answer.
    The 1.2 s re-arm timer is the explicit event CooldownElapsed. */
module Scanner {
  import opened Api
  import opened Requests

  /** The two fields of a badge payload as `JSON.parse` yields them; a missing
      or null field is None. */
  datatype QrPayload = QrPayload(eventId: Option<string>, attendeeId: Option<string>)

  /** The four things a processed scan can tell the user. */
  datatype ScanOutcome =
    | CheckinOk         // "Check-in OK"
    | AlreadyPresent    // "Já presente": the server answered 409
    | OtherEvent        // "QR de outro evento"
    | ProcessingFailed  // "Falha ao processar": bad payload or any other error

  /** The payload parsed and both ids are truthy. */
  predicate ValidPayload(parsed: Option<QrPayload>)
    ensures ValidPayload(parsed) <==>
              && parsed.Some?
              && parsed.value.eventId !in {None, Some("")}
              && parsed.value.attendeeId !in {None, Some("")}
  {
    parsed.Some? && Truthy(parsed.value.eventId) && Truthy(parsed.value.attendeeId)
  }

  /** The attendee a scan checks in: only a valid payload of the active event
      names one, and it is the payload's own non-empty attendee id. */
  function CheckinTarget(activeEvent: string, parsed: Option<QrPayload>): (r: Option<string>)
    ensures r.Some? <==> ValidPayload(parsed) && parsed.value.eventId.value == activeEvent
    ensures r.Some? ==> r.value == parsed.value.attendeeId.value && r.value != ""
  {
    if ValidPayload(parsed) && parsed.value.eventId.value == activeEvent
    then Some(parsed.value.attendeeId.value)
    else None
  }

  /** What the answer to the check-in request means: success, 409, or a
      failure reported like an unreadable code. */
  function SubmitOutcome(res: Response<CheckinResponse>): (o: ScanOutcome)
    ensures o == CheckinOk <==> res.Ok?
    ensures o == AlreadyPresent <==> IsConflict(res)
    ensures o == ProcessingFailed <==> !res.Ok? && !IsConflict(res)
    ensures o != OtherEvent
  {
    if res.Ok? then CheckinOk
    else if IsConflict(res) then AlreadyPresent
    else ProcessingFailed
  }

  /** The outcome of a whole accepted scan. Only a valid payload of another
      event is OtherEvent; a check-in happens exactly when there is a target,
      and an invalid payload is reported like a failed check-in. */
  function Classify(activeEvent: string, parsed: Option<QrPayload>,
                    res: Response<CheckinResponse>): (o: ScanOutcome)
    ensures o == OtherEvent <==> ValidPayload(parsed) && parsed.value.eventId.value != activeEvent
    ensures o == CheckinOk <==> CheckinTarget(activeEvent, parsed).Some? && res.Ok?
    ensures o == AlreadyPresent <==> CheckinTarget(activeEvent, parsed).Some? && IsConflict(res)
    ensures o == ProcessingFailed <==>
              || !ValidPayload(parsed)
              || (CheckinTarget(activeEvent, parsed).Some? && !res.Ok? && !IsConflict(res))
  {
    if !ValidPayload(parsed) then ProcessingFailed
    else if parsed.value.eventId.value != activeEvent then OtherEvent
    else SubmitOutcome(res)
  }

  /** Without a target the answer of the server plays no part. */
  lemma ClassifyWithoutTarget(activeEvent: string, parsed: Option<QrPayload>,
                              res1: Response<CheckinResponse>, res2: Response<CheckinResponse>)
    requires CheckinTarget(activeEvent, parsed).None?
    ensures Classify(activeEvent, parsed, res1) == Classify(activeEvent, parsed, res2)
    ensures Classify(activeEvent, parsed, res1) in {OtherEvent, ProcessingFailed}
  {
  }

  class ScannerController {
    const eventId: string
    /** `canScanRef.current`. */
    var canScan: bool
    /** The attendee whose check-in request is awaited, if any. */
    var pending: Option<string>
    /** The re-arm timer is set. */
    var coolingDown: bool

    /** The gate is open exactly when no attempt is under way; a closed gate
        is either waiting for the server or for the timer, never both. */
    ghost predicate Valid()
      reads this
    {
      && (canScan ==> pending.None? && !coolingDown)
      && (!canScan ==> pending.Some? != coolingDown)
    }

    constructor(eventId: string)
      ensures Valid()
      ensures this.eventId == eventId && canScan && pending.None? && !coolingDown
    {
      this.eventId := eventId;
      canScan := true;
      pending := None;
      coolingDown := false;
    }

    /** The start of `handleScan`, up to the check-in request. A scan while the
        gate is closed changes nothing. An accepted scan closes the gate; an
        invalid payload or one of another event ends the attempt at once with
        its outcome and sets the timer; a valid payload of the active event
        sends one check-in for its attendee. */
    method Scan(data: string, parse: string -> Option<QrPayload>)
      returns (accepted: bool, req: Option<Request>, outcome: Option<ScanOutcome>)
      requires Valid()
      modifies this
      ensures Valid()
      ensures accepted == old(canScan)
      ensures !accepted ==> req.None? && outcome.None? && unchanged(this)
      ensures accepted ==> !canScan
      ensures var target := CheckinTarget(eventId, parse(data));
              && (accepted && target.Some? ==>
                    && req == Some(PostCheckin(eventId, CheckinRequest(target.value)))
                    && pending == target && !coolingDown && outcome.None?)
              && (accepted && target.None? ==>
                    && req.None? && pending.None? && coolingDown
                    && outcome.Some?
                    && forall res :: outcome.value == Classify(eventId, parse(data), res))
    {
      if !canScan {
        return false, None, None;
      }
      canScan := false;
      accepted := true;
      var parsed := parse(data);
      if !ValidPayload(parsed) {
        req, outcome := None, Some(ProcessingFailed);
        coolingDown := true;
        return;
      }
      if parsed.value.eventId.value != eventId {
        req, outcome := None, Some(OtherEvent);
        coolingDown := true;
        return;
      }
      var attendeeId := parsed.value.attendeeId.value;
      req := Some(PostCheckin(eventId, CheckinRequest(attendeeId)));
      pending := Some(attendeeId);
      outcome := None;
    }

    /** The rest of `handleScan` once the check-in answer is in: the outcome of
        the answer, and the timer set whatever it was. */
    method CheckinSettled(res: Response<CheckinResponse>) returns (outcome: ScanOutcome)
      requires Valid() && pending.Some?
      modifies this
      ensures Valid()
      ensures outcome == SubmitOutcome(res)
      ensures !canScan && pending.None? && coolingDown
    {
      outcome := SubmitOutcome(res);
      pending := None;
      coolingDown := true;
    }

    /** The timer fires: the gate opens again. */
    method CooldownElapsed()
      requires Valid() && coolingDown
      modifies this
      ensures Valid()
      ensures canScan && pending.None? && !coolingDown
    {
      canScan := true;
      coolingDown := false;
    }

    /** One whole `handleScan` given the server's answer. An ignored scan sends
        nothing and changes nothing; an accepted one sends a check-in exactly
        when the payload names an attendee of the active event, reports the
        classified outcome, and always leaves the gate closed with the timer set. */
    method HandleScan(data: string, parse: string -> Option<QrPayload>,
                      res: Response<CheckinResponse>)
      returns (accepted: bool, req: Option<Request>, outcome: Option<ScanOutcome>)
      requires Valid()
      modifies this
      ensures Valid()
      ensures accepted == old(canScan)
      ensures !accepted ==> req.None? && outcome.None? && unchanged(this)
      ensures accepted ==> && outcome == Some(Classify(eventId, parse(data), res))
                           && !canScan && pending.None? && coolingDown
      ensures var target := CheckinTarget(eventId, parse(data));
              && (accepted && target.Some? ==>
                    req == Some(PostCheckin(eventId, CheckinRequest(target.value))))
              && (target.None? ==> req.None?)
    {
      accepted, req, outcome := Scan(data, parse);
      if accepted && outcome.None? {
        var settled := CheckinSettled(res);
        outcome := Some(settled);
      }
    }
  }

  /** A badge of the active event checked in, then a badge of another event:
      the second scan is dropped until the timer fires, and once it has fired
      it is reported as another event's without any request. */
  method ScanScenario(active: string, other: string, attendee: string,
                      parse: string -> Option<QrPayload>, first: string, second: string)
    requires active != other && active != "" && other != "" && attendee != ""
    requires parse(first) == Some(QrPayload(Some(active), Some(attendee)))
    requires parse(second) == Some(QrPayload(Some(other), Some(attendee)))
  {
    var s := new ScannerController(active);
    var ok := Ok(CheckinResponse(attendee, "t"));
    assert ValidPayload(parse(first)) && ValidPayload(parse(second));
    var accepted, req, outcome := s.HandleScan(first, parse, ok);
    assert accepted && outcome == Some(CheckinOk);
    assert req == Some(PostCheckin(active, CheckinRequest(attendee)));
    accepted, req, outcome := s.HandleScan(second, parse, ok);
    assert !accepted && req.None?;
    s.CooldownElapsed();
    accepted, req, outcome := s.HandleScan(second, parse, ok);
    assert accepted && req.None? && outcome == Some(OtherEvent);
  }
}
