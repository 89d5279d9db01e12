/** What the booking handler promises, stated over its specification `Handle`
    and over a sequence of requests replayed against the store. */
module BookingProperties {
  import opened TimeConverter
  import opened Booking

  /** A request that is not a form submission renders the empty form, makes
      no outbound call and stores nothing. */
  lemma GetRendersEmptyForm(cfg: Config, now: Instant, lookup: LookupOutcome, msg: MessageOutcome)
    ensures Handle(cfg, now, Get, lookup, msg) == Outcome(FormPage(None), [], None)
  {
  }

  /** The fixed messages are pairwise different, and none of them is the
      flash of a messaging-service error. */
  lemma MessagesDistinct(d: string)
    ensures TooSoonMessage != NotMobileMessage && TooSoonMessage != InvalidNumberMessage
    ensures TooSoonMessage != LookupFailedMessage && NotMobileMessage != InvalidNumberMessage
    ensures NotMobileMessage != LookupFailedMessage && InvalidNumberMessage != LookupFailedMessage
    ensures DescriptionFlash(d) !in {TooSoonMessage, NotMobileMessage, InvalidNumberMessage, LookupFailedMessage}
  {
    assert |TooSoonMessage| == 53 && |NotMobileMessage| == 79;
    assert |InvalidNumberMessage| == 34 && |LookupFailedMessage| == 54;
    assert TooSoonMessage[52] == 'w' && NotMobileMessage[78] == '.';
    assert InvalidNumberMessage[33] == '.' && LookupFailedMessage[53] == '.';
    var flash := DescriptionFlash(d);
    assert flash[|flash| - 1] == '\n';
  }

  /** A submission whose UTC appointment, reminder or gate value leaves the
      datetime range ends with the exception escaping, before any outbound
      call and without storing anything; in range, it never escapes before
      the lookup. */
  lemma OutOfRangeEscapes(cfg: Config, now: Instant, f: Form, lookup: LookupOutcome, msg: MessageOutcome)
    ensures var o := Handle(cfg, now, Post(f), lookup, msg);
      !InDatetimeRange(cfg.toUtc(f.apptLocal)) <==> (o.response == Unhandled && o.calls == [])
  {
  }

  /** The lead-time message is shown exactly for submissions whose UTC
      appointment minus 3h05m lies before now; such a request makes no
      outbound call and stores nothing. */
  lemma TooSoonIff(cfg: Config, now: Instant, req: Request, lookup: LookupOutcome, msg: MessageOutcome)
    ensures var o := Handle(cfg, now, req, lookup, msg);
      (o.response == FormPage(Some(TooSoonMessage)))
        <==> (req.Post? && InDatetimeRange(cfg.toUtc(req.form.apptLocal))
              && cfg.toUtc(req.form.apptLocal) - 11100 < now)
    ensures var o := Handle(cfg, now, req, lookup, msg);
      req.Post? && TooSoon(cfg.toUtc(req.form.apptLocal), now) ==> o.calls == [] && o.stored == None
  {
    if req.Post? {
      var ds := if msg.MessageApiError? && |msg.descriptions| > 0 then msg.descriptions[0] else "";
      MessagesDistinct(ds);
    }
  }

  /** The request stores an appointment exactly when it ends on the
      confirmation page, which happens exactly when every gate passes: the
      appointment is far enough ahead, the number is a mobile number and the
      messaging service accepted the message. */
  lemma StoredIffConfirmed(cfg: Config, now: Instant, req: Request, lookup: LookupOutcome, msg: MessageOutcome)
    ensures var o := Handle(cfg, now, req, lookup, msg);
      o.stored.Some? <==> o.response.SuccessPage?
    ensures var o := Handle(cfg, now, req, lookup, msg);
      o.stored.Some? <==>
        req.Post? && InDatetimeRange(cfg.toUtc(req.form.apptLocal))
        && !TooSoon(cfg.toUtc(req.form.apptLocal), now)
        && lookup.Found? && "mobile" in lookup.types && msg == Sent
  {
  }

  /** The stored record carries the raw form fields (the number without the
      country code) and the UTC instants; its reminder is exactly three hours
      before the appointment and at least five minutes after now. */
  lemma StoredRecord(cfg: Config, now: Instant, req: Request, lookup: LookupOutcome, msg: MessageOutcome)
    requires Handle(cfg, now, req, lookup, msg).stored.Some?
    ensures var a := Handle(cfg, now, req, lookup, msg).stored.value;
      req.Post? &&
      a.name == req.form.name && a.treatment == req.form.treatment && a.number == req.form.phone &&
      a.appointmentDT == cfg.toUtc(req.form.apptLocal) &&
      a.reminderDT == a.appointmentDT - 10800 &&
      a.reminderDT >= now + 300 && WellFormed(a) &&
      Representable(a.appointmentDT) && Representable(a.reminderDT)
    ensures Handle(cfg, now, req, lookup, msg).response
      == SuccessPage(req.form.name, req.form.treatment, req.form.phone, cfg.display(req.form.apptLocal))
  {
    AcceptedReminderInFuture(cfg.toUtc(req.form.apptLocal), now);
  }

  /** Once the lead-time gate passes, the lookup answer decides the response
      as follows; every rejection stores nothing and sends no message. */
  lemma LookupClassification(cfg: Config, now: Instant, f: Form, lookup: LookupOutcome, msg: MessageOutcome)
    requires InDatetimeRange(cfg.toUtc(f.apptLocal)) && !TooSoon(cfg.toUtc(f.apptLocal), now)
    ensures var o := Handle(cfg, now, Post(f), lookup, msg);
      (lookup.Found? && "mobile" !in lookup.types ==>
        o.response == FormPage(Some(NotMobileMessage)))
      && (lookup.LookupApiError? && |lookup.codes| > 0 && lookup.codes[0] == 21 ==>
        o.response == FormPage(Some(InvalidNumberMessage)))
      && (lookup.LookupApiError? && |lookup.codes| > 0 && lookup.codes[0] != 21 ==>
        o.response == FormPage(Some(LookupFailedMessage)))
      && (lookup.LookupOtherFailure? ==>
        o.response == FormPage(Some(LookupFailedMessage)))
      && (lookup.LookupApiError? && |lookup.codes| == 0 ==> o.response == Unhandled)
    ensures var o := Handle(cfg, now, Post(f), lookup, msg);
      !(lookup.Found? && "mobile" in lookup.types) ==>
        o.calls == [Lookup(cfg.countryCode + f.phone)] && o.stored == None
  {
  }

  /** Every outbound call goes to the country code followed by the raw
      number; the calls are the lookup, then the message, in that order and
      each at most once, and the message is sent only after a mobile lookup. */
  lemma CallsUseCountryCode(cfg: Config, now: Instant, f: Form, lookup: LookupOutcome, msg: MessageOutcome)
    ensures var o := Handle(cfg, now, Post(f), lookup, msg);
      |o.calls| <= 2 &&
      (|o.calls| >= 1 ==> o.calls[0] == Lookup(cfg.countryCode + f.phone)) &&
      (|o.calls| == 2 ==>
        o.calls[1].MessageCreate? && o.calls[1].originator == "BeautyBird" &&
        o.calls[1].recipient == cfg.countryCode + f.phone &&
        lookup.Found? && "mobile" in lookup.types)
  {
  }

  /** The message scheduled with the messaging service: its body names the
      customer and the displayed local time, and its send time is the ISO
      reminder instant with the "+00:00" suffix replaced by "Z". */
  lemma ScheduledReminder(cfg: Config, now: Instant, f: Form, types: seq<string>, msg: MessageOutcome, prefix: string)
    requires InDatetimeRange(cfg.toUtc(f.apptLocal)) && !TooSoon(cfg.toUtc(f.apptLocal), now)
    requires "mobile" in types
    requires cfg.isoFormat(cfg.toUtc(f.apptLocal) - 10800) == prefix + UtcOffset
    ensures var o := Handle(cfg, now, Post(f), Found(types), msg);
      |o.calls| == 2 &&
      o.calls[1] == MessageCreate("BeautyBird", cfg.countryCode + f.phone,
                                  f.name + ", you have an appointment at BeautyBird at " + cfg.display(f.apptLocal),
                                  prefix + "Z")
  {
    IsoZReplacesOffset(prefix);
  }

  /** A messaging-service error shows only the first error's description
      (the handler returns inside the first iteration of its loop over the
      errors); an error with no descriptions renders the bare form. Neither
      stores anything. */
  lemma MessagingErrorShowsFirst(cfg: Config, now: Instant, f: Form, types: seq<string>, ds: seq<string>)
    requires InDatetimeRange(cfg.toUtc(f.apptLocal)) && !TooSoon(cfg.toUtc(f.apptLocal), now)
    requires "mobile" in types
    ensures var o := Handle(cfg, now, Post(f), Found(types), MessageApiError(ds));
      o.stored == None && |o.calls| == 2 &&
      o.response == (if |ds| == 0 then FormPage(None) else FormPage(Some("  description : " + ds[0] + "\n")))
  {
  }

  /** Every flashed message is one of the four fixed messages or the flash of
      the first messaging-service error description. */
  lemma FlashesFromFixedSet(cfg: Config, now: Instant, req: Request, lookup: LookupOutcome, msg: MessageOutcome, m: string)
    requires Handle(cfg, now, req, lookup, msg).response == FormPage(Some(m))
    ensures m in {TooSoonMessage, NotMobileMessage, InvalidNumberMessage, LookupFailedMessage}
      || (msg.MessageApiError? && |msg.descriptions| > 0 && m == DescriptionFlash(msg.descriptions[0]))
  {
  }

  /** One request as seen by the handler: the clock reading and the answers
      of the two services. */
  datatype Step = Step(now: Instant, req: Request, lookup: LookupOutcome, msg: MessageOutcome)

  function Run(cfg: Config, s: Step): Outcome {
    Handle(cfg, s.now, s.req, s.lookup, s.msg)
  }

  /** The store after handling `steps` in order, starting from `store`. */
  function Replay(cfg: Config, store: seq<Appointment>, steps: seq<Step>): seq<Appointment>
    decreases |steps|
  {
    if steps == [] then store
    else Replay(cfg, store + Appended(Run(cfg, steps[0])), steps[1..])
  }

  /** How many of `steps` end on the confirmation page. */
  function Confirmations(cfg: Config, steps: seq<Step>): nat
    decreases |steps|
  {
    if steps == [] then 0
    else (if Run(cfg, steps[0]).response.SuccessPage? then 1 else 0) + Confirmations(cfg, steps[1..])
  }

  /** The store is append-only: after any sequence of requests the old
      records are still there, unchanged and in place, and exactly one
      record was added per confirmed booking. */
  lemma {:induction false} ReplayAppendOnly(cfg: Config, store: seq<Appointment>, steps: seq<Step>)
    ensures |Replay(cfg, store, steps)| == |store| + Confirmations(cfg, steps)
    ensures Replay(cfg, store, steps)[..|store|] == store
    decreases |steps|
  {
    if steps != [] {
      var s := steps[0];
      StoredIffConfirmed(cfg, s.now, s.req, s.lookup, s.msg);
      var next := store + Appended(Run(cfg, s));
      ReplayAppendOnly(cfg, next, steps[1..]);
      assert Replay(cfg, store, steps)[..|next|][..|store|] == store;
    }
  }

  /** Every record in the store has its reminder exactly three hours before
      its appointment, after any sequence of requests. */
  lemma {:induction false} ReplayKeepsWellFormed(cfg: Config, store: seq<Appointment>, steps: seq<Step>)
    requires forall a :: a in store ==> WellFormed(a)
    ensures forall a :: a in Replay(cfg, store, steps) ==> WellFormed(a)
    decreases |steps|
  {
    if steps != [] {
      var s := steps[0];
      var o := Run(cfg, s);
      if o.stored.Some? {
        StoredRecord(cfg, s.now, s.req, s.lookup, s.msg);
      }
      var next := store + Appended(o);
      assert forall a :: a in next ==> WellFormed(a);
      ReplayKeepsWellFormed(cfg, next, steps[1..]);
    }
  }
}
