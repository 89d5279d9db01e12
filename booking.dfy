/** The booking handler of the reminders app: one request flows through the
    lead-time gate, the phone lookup and the message scheduling, and ends
    either with the form re-rendered (with or without a flashed message), the
    confirmation page and one appointment appended to the store, or an
    exception escaping the handler.

    The outside world is passed in: the clock reading `now`, the configured
    timezone and formats as total functions in `Config`, and what the lookup
    and messaging services answer as `LookupOutcome` and `MessageOutcome`.
    The outbound calls the handler makes are returned as a list of `Call`s. */
module Booking {
  import opened TimeConverter

  datatype Option<T> = None | Some(value: T)

  /** Local wall-clock date and time in the configured timezone, in seconds. */
  type CivilTime = int

  /** Process configuration and the library conversions the handler uses:
      `toUtc` is localizing in the configured timezone and converting to UTC,
      `display` is `strftime` with the configured display format, and
      `isoFormat` is `isoformat("T")` of an aware UTC datetime. */
  datatype Config = Config(
    countryCode: string,
    toUtc: CivilTime -> Instant,
    display: CivilTime -> string,
    isoFormat: Instant -> string)

  /** The posted form, with date and time already combined. */
  datatype Form = Form(apptLocal: CivilTime, name: string, treatment: string, phone: string)

  datatype Request = Get | Post(form: Form)

  /** What the lookup service answers: the number's types, an API error
      carrying its list of error codes, or any other exception. */
  datatype LookupOutcome =
    | Found(types: seq<string>)
    | LookupApiError(codes: seq<int>)
    | LookupOtherFailure

  /** What the messaging service answers: success, an API error carrying its
      list of error descriptions, or any other exception. */
  datatype MessageOutcome =
    | Sent
    | MessageApiError(descriptions: seq<string>)
    | MessageOtherFailure

  /** One stored appointment record. */
  datatype Appointment = Appointment(
    name: string,
    treatment: string,
    number: string,
    appointmentDT: Instant,
    reminderDT: Instant)

  /** An outbound call to the external service. */
  datatype Call =
    | Lookup(number: string)
    | MessageCreate(originator: string, recipient: string, body: string, scheduledDatetime: string)

  /** What the handler renders: the form (with the flashed message, if any),
      the confirmation page, or nothing because an exception escaped. */
  datatype Response =
    | FormPage(flash: Option<string>)
    | SuccessPage(name: string, treatment: string, phone: string, appointmentDT: string)
    | Unhandled

  const TooSoonMessage: string := "Appointment time must be at least 3:05 hours from now"
  const NotMobileMessage: string := "The number you entered is not a mobile number. Please re-enter a mobile number."
  const InvalidNumberMessage: string := "Please enter a valid phone number."
  const LookupFailedMessage: string := "Something went wrong while checking your phone number."

  /** The lookup service's error code for a malformed number. */
  const InvalidNumberCode: int := 21

  const Originator: string := "BeautyBird"

  /** The flashed text for one messaging-service error. */
  function DescriptionFlash(description: string): string {
    "  description : " + description + "\n"
  }

  function MessageBody(name: string, when: string): string {
    name + ", you have an appointment at BeautyBird at " + when
  }

  /** Everything one request produces: the response, the outbound calls in
      order, and the appointment appended to the store, if any. */
  datatype Outcome = Outcome(response: Response, calls: seq<Call>, stored: Option<Appointment>)

  /** The records an outcome appends to the store. */
  function Appended(o: Outcome): seq<Appointment> {
    match o.stored
    case None => []
    case Some(a) => [a]
  }

  /** How the handler reacts to the lookup answer: `None` lets the request
      through, `Some(r)` ends it with response `r`. */
  function LookupGate(lookup: LookupOutcome): (r: Option<Response>)
    ensures r.None? <==> lookup.Found? && "mobile" in lookup.types
    ensures r.Some? ==> !r.value.SuccessPage?
    ensures r.Some? && r.value.FormPage? ==> r.value.flash.Some?
  {
    match lookup
    case Found(types) =>
      if "mobile" !in types then Some(FormPage(Some(NotMobileMessage))) else None
    case LookupApiError(codes) =>
      if |codes| == 0 then Some(Unhandled)
      else if codes[0] == InvalidNumberCode then Some(FormPage(Some(InvalidNumberMessage)))
      else Some(FormPage(Some(LookupFailedMessage)))
    case LookupOtherFailure => Some(FormPage(Some(LookupFailedMessage)))
  }

  /** The specification of the handler for one request. A datetime value
      outside Python's range raises `OverflowError` before any outbound
      call, and the exception escapes the handler. */
  function Handle(cfg: Config, now: Instant, req: Request, lookup: LookupOutcome, msg: MessageOutcome): (o: Outcome)
    ensures o.stored.Some? <==> o.response.SuccessPage?
    ensures o.stored.Some? ==> WellFormed(o.stored.value) && Representable(o.stored.value.reminderDT)
    ensures |o.calls| <= 2
  {
    match req
    case Get => Outcome(FormPage(None), [], None)
    case Post(f) =>
      var utcAppt := cfg.toUtc(f.apptLocal);
      var reminder := Reminder(utcAppt);
      if !InDatetimeRange(utcAppt) then
        Outcome(Unhandled, [], None)
      else if TooSoon(utcAppt, now) then
        Outcome(FormPage(Some(TooSoonMessage)), [], None)
      else
        var number := cfg.countryCode + f.phone;
        match LookupGate(lookup)
        case Some(r) => Outcome(r, [Lookup(number)], None)
        case None =>
          var when := cfg.display(f.apptLocal);
          var calls := [Lookup(number),
                        MessageCreate(Originator, number, MessageBody(f.name, when), IsoZ(cfg.isoFormat(reminder)))];
          match msg
          case Sent =>
            Outcome(SuccessPage(f.name, f.treatment, f.phone, when), calls,
                    Some(Appointment(f.name, f.treatment, f.phone, utcAppt, reminder)))
          case MessageApiError(ds) =>
            if |ds| == 0 then Outcome(FormPage(None), calls, None)
            else Outcome(FormPage(Some(DescriptionFlash(ds[0]))), calls, None)
          case MessageOtherFailure => Outcome(Unhandled, calls, None)
  }

  /** A stored record's reminder is exactly three hours before its appointment. */
  predicate WellFormed(a: Appointment) {
    a.reminderDT == a.appointmentDT - ReminderOffset
  }

  /** The in-memory, append-only list of booked appointments. */
  class AppointmentStore {
    var appointments: seq<Appointment>

    ghost predicate Valid()
      reads this
    {
      forall a :: a in appointments ==> WellFormed(a)
    }

    constructor ()
      ensures Valid() && appointments == []
    {
      appointments := [];
    }

    /** Handles one request: runs the gates in order, returns at the first
        one that rejects, and appends the appointment only once the message
        has been accepted by the messaging service. */
    method MakeAppointment(cfg: Config, now: Instant, req: Request, lookup: LookupOutcome, msg: MessageOutcome)
      returns (resp: Response, calls: seq<Call>)
      requires Valid()
      modifies this
      ensures Valid()
      ensures var o := Handle(cfg, now, req, lookup, msg);
        resp == o.response && calls == o.calls && appointments == old(appointments) + Appended(o)
    {
      calls := [];
      if req.Post? {
        var f := req.form;
        var utcAppt := cfg.toUtc(f.apptLocal);
        if !Representable(utcAppt) {
          // converting to UTC leaves the datetime range
          resp := Unhandled;
          return;
        }
        var reminder := Reminder(utcAppt);
        if !Representable(reminder) {
          // subtracting the reminder offset leaves the datetime range
          resp := Unhandled;
          return;
        }
        var iso := IsoZ(cfg.isoFormat(reminder));
        if !Representable(utcAppt - LeadTime) {
          // subtracting the lead time in the gate leaves the datetime range
          resp := Unhandled;
          return;
        }
        if TooSoon(utcAppt, now) {
          resp := FormPage(Some(TooSoonMessage));
          return;
        }

        var number := cfg.countryCode + f.phone;
        calls := calls + [Lookup(number)];
        match lookup {
          case Found(types) =>
            if "mobile" !in types {
              resp := FormPage(Some(NotMobileMessage));
              return;
            }
          case LookupApiError(codes) =>
            if |codes| == 0 {
              // indexing the empty error list raises inside the except clause
              resp := Unhandled;
            } else if codes[0] == InvalidNumberCode {
              resp := FormPage(Some(InvalidNumberMessage));
            } else {
              resp := FormPage(Some(LookupFailedMessage));
            }
            return;
          case LookupOtherFailure =>
            resp := FormPage(Some(LookupFailedMessage));
            return;
        }

        var when := cfg.display(f.apptLocal);
        calls := calls + [MessageCreate(Originator, number, MessageBody(f.name, when), iso)];
        match msg {
          case Sent =>
            appointments := appointments + [Appointment(f.name, f.treatment, f.phone, utcAppt, reminder)];
            resp := SuccessPage(f.name, f.treatment, f.phone, when);
            return;
          case MessageApiError(ds) =>
            // the loop over the errors returns on its first iteration
            for i := 0 to |ds|
              invariant i == 0
            {
              resp := FormPage(Some(DescriptionFlash(ds[i])));
              return;
            }
          case MessageOtherFailure =>
            resp := Unhandled;
            return;
        }
      }
      resp := FormPage(None);
    }
  }
}
