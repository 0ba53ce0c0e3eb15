// The creator routes that do more than forward a call: recording an
// activity from a request, and the two outbound actions (place a call, send
// an email), each a guard on the creator's contact field, one adapter call
// and one logged activity. Every exception a handler meets is answered with
// status 500 and the exception's text.

module CreatorsRouter {
  import opened Values
  import opened Schemas
  import opened CreatorService

  /** What a route returns: a JSON object, or an HTTP error. */
  datatype Response = Ok(body: Row) | HttpError(status: int, detail: string)

  /** The handlers' `except Exception as e: raise HTTPException(500, str(e))`. */
  function InternalError(e: Exc): Response
  {
    HttpError(500, ExcText(e))
  }

  /** The arguments the call handler passes to `make_call`. */
  datatype CallArgs = CallArgs(
    phoneNumber: Value,
    name: Value,
    handle: Value,
    prompt: string,
    language: string,
    voice: string,
    maxDuration: int,
    creatorId: string)

  /** The arguments the email handler passes to `send_email`; the request's
      `from_email` is not among them. */
  datatype EmailArgs = EmailArgs(
    toEmail: Value,
    subject: string,
    body: string,
    cc: Option<string>,
    bcc: Option<string>)

  /** The two outbound adapters. What each provider answers is not part of
      this model: it is passed in as `outcome`. The adapters remember every
      request they were given. */
  class Adapters {
    var placedCalls: seq<CallArgs>
    var sentEmails: seq<EmailArgs>

    constructor ()
      ensures placedCalls == [] && sentEmails == []
    {
      placedCalls, sentEmails := [], [];
    }

    method MakeCall(args: CallArgs, outcome: Result<Value, Exc>) returns (r: Result<Value, Exc>)
      modifies this
      ensures placedCalls == old(placedCalls) + [args] && sentEmails == old(sentEmails)
      ensures r == outcome
    {
      placedCalls := placedCalls + [args];
      r := outcome;
    }

    method SendEmail(args: EmailArgs, outcome: Result<Row, Exc>) returns (r: Result<Row, Exc>)
      modifies this
      ensures sentEmails == old(sentEmails) + [args] && placedCalls == old(placedCalls)
      ensures r == outcome
    {
      sentEmails := sentEmails + [args];
      r := outcome;
    }
  }

  // ---- create_activity ----

  /** The keys `create_activity` sets or removes; every other key of the
      request passes through. */
  const ShapedKeys: set<string> := {"creator_id", "body", "metadata", "created_at", "updated_at", "status"}

  function BodyMetadata(data: Row): Value
  {
    if "body" in data then Object(map["body" := data["body"]]) else Object(map[])
  }

  /** The record `create_activity` stores for request fields `data` posted to
      `/creators/{creatorId}/activities` at instant `now`. */
  function Shaped(data: Row, creatorId: string, now: string): Row
  {
    var passThrough := map k | k in data && k !in ShapedKeys :: data[k];
    passThrough["creator_id" := Str(creatorId)]
               ["metadata" := BodyMetadata(data)]
               ["created_at" := Get(data, "created_at", Str(now))]
               ["updated_at" := Get(data, "updated_at", Str(now))]
               ["status" := Get(data, "status", Str("completed"))]
  }

  /** What the shaping promises: the path's creator id wins, `body` moves
      under `metadata`, timestamps and status are filled only when absent,
      and nothing else is added, dropped or changed. */
  lemma ShapedSpec(data: Row, creatorId: string, now: string)
    ensures var d := Shaped(data, creatorId, now);
      && d["creator_id"] == Str(creatorId)
      && "body" !in d
      && d["metadata"] == (if "body" in data then Object(map["body" := data["body"]]) else Object(map[]))
      && d["created_at"] == (if "created_at" in data then data["created_at"] else Str(now))
      && d["updated_at"] == (if "updated_at" in data then data["updated_at"] else Str(now))
      && d["status"] == (if "status" in data then data["status"] else Str("completed"))
      && (forall k :: k in data && k !in ShapedKeys ==> k in d && d[k] == data[k])
      && (forall k :: k in d ==> k in data || k in ShapedKeys)
  {
  }

  /** For a validated `Activity` body the else-branch never runs: the stored
      record is exactly these seven keys, with `activity_datetime` carried
      through and the request's own `creator_id` replaced. */
  lemma ShapedActivity(a: Activity, creatorId: string, now: string)
    ensures Shaped(ActivityRow(a), creatorId, now) ==
      map["activity_type" := Str(ActivityTypeValue(a.activityType)),
          "activity_datetime" := Str(a.activityDatetime),
          "creator_id" := Str(creatorId),
          "metadata" := Object(map["body" := Str(a.body)]),
          "created_at" := Str(now),
          "updated_at" := Str(now),
          "status" := Str("completed")]
  {
    var d := Shaped(ActivityRow(a), creatorId, now);
    var e := map["activity_type" := Str(ActivityTypeValue(a.activityType)),
                 "activity_datetime" := Str(a.activityDatetime),
                 "creator_id" := Str(creatorId),
                 "metadata" := Object(map["body" := Str(a.body)]),
                 "created_at" := Str(now),
                 "updated_at" := Str(now),
                 "status" := Str("completed")];
    ShapedSpec(ActivityRow(a), creatorId, now);
    assert d.Keys == e.Keys;
  }

  /** The in-place rewrite of the request dict, step by step. */
  method ShapeActivity(data: Row, creatorId: string, now: string) returns (d: Row)
    ensures d == Shaped(data, creatorId, now)
  {
    d := data;
    d := d["creator_id" := Str(creatorId)];
    if "body" in d {
      var body := d["body"];
      d := d - {"body"};
      d := d["metadata" := Object(map["body" := body])];
    } else {
      d := d["metadata" := Object(map[])];
    }
    ghost var shaped := d;
    d := d["created_at" := Get(d, "created_at", Str(now))];
    d := d["updated_at" := Get(d, "updated_at", Str(now))];
    d := d["status" := Get(d, "status", Str("completed"))];
    ShapedAfterMetadata(data, creatorId, now, shaped);
  }

  /** The first half of the rewrite already fixes every key but the three
      filled-in ones. */
  lemma ShapedAfterMetadata(data: Row, creatorId: string, now: string, d: Row)
    requires d == (if "body" in data then data["creator_id" := Str(creatorId)] - {"body"} else data["creator_id" := Str(creatorId)])
                  ["metadata" := BodyMetadata(data)]
    ensures Shaped(data, creatorId, now) ==
      d["created_at" := Get(d, "created_at", Str(now))]
       ["updated_at" := Get(d, "updated_at", Str(now))]
       ["status" := Get(d, "status", Str("completed"))]
  {
    var e := d["created_at" := Get(d, "created_at", Str(now))]
              ["updated_at" := Get(d, "updated_at", Str(now))]
              ["status" := Get(d, "status", Str("completed"))];
    ShapedSpec(data, creatorId, now);
    assert e.Keys == Shaped(data, creatorId, now).Keys;
  }

  /** `POST /creators/{creatorId}/activities`: one logged activity, returned
      under `data`. */
  method CreateActivity(store: CreatorStore, creatorId: string, activity: Activity, now: string)
    returns (resp: Response)
    requires store.Valid()
    modifies store
    ensures store.Valid()
    ensures store.creators == old(store.creators)
    ensures store.activities == old(store.activities) + [WithId(Shaped(ActivityRow(activity), creatorId, now), old(store.nextId))]
    ensures resp == Ok(map["status" := Str("success"), "data" := Object(store.activities[|store.activities| - 1])])
  {
    var activityData := ShapeActivity(ActivityRow(activity), creatorId, now);
    var record := store.LogActivity(activityData);
    resp := Ok(map["status" := Str("success"), "data" := Object(record)]);
  }

  // ---- make_call_to_creator ----

  /** The narrative logged after a call: the prompt is cut to its first 100
      characters and always followed by "...". */
  function CallNote(creator: Row, req: CallRequest): string
    requires "name" in creator && "handle" in creator
  {
    CallNoteHead(creator, req) + Prefix(req.prompt, 100) + "..."
  }

  function CallNoteHead(creator: Row, req: CallRequest): string
    requires "name" in creator && "handle" in creator
  {
    "Automated call initiated to " + Render(creator["name"]) + " (@" + Render(creator["handle"]) + "):\n"
    + "\U{2022} Language: " + req.language + "\n"
    + "\U{2022} Voice: " + req.voice + "\n"
    + "\U{2022} Duration: " + IntToString(req.maxDuration) + " minutes\n"
    + "\U{2022} Prompt: "
  }

  /** The activity logged after a call. It is written under `type`, with the
      narrative in `metadata`. */
  function CallActivity(creatorId: string, creator: Row, req: CallRequest, now: string): Row
    requires "name" in creator && "handle" in creator
  {
    map["creator_id" := Str(creatorId),
        "type" := Str(ActivityTypeValue(CallMade)),
        "status" := Str("completed"),
        "metadata" := Object(map["body" := Str(CallNote(creator, req))]),
        "created_at" := Str(now),
        "updated_at" := Str(now)]
  }

  /** The logged call narrative ends with at most the first 100 characters
      of the prompt, followed by "...". */
  lemma CallNoteTruncatesPrompt(creator: Row, req: CallRequest)
    requires "name" in creator && "handle" in creator
    ensures var note, cut := CallNote(creator, req), Prefix(req.prompt, 100);
      && |cut| <= 100 && cut <= req.prompt
      && (|req.prompt| <= 100 ==> cut == req.prompt)
      && note[|note| - 3..] == "..."
      && note[|note| - 3 - |cut|..|note| - 3] == cut
  {
  }

  function CallArgsFor(creator: Row, creatorId: string, req: CallRequest): CallArgs
    requires "phone_number" in creator && "name" in creator && "handle" in creator
  {
    CallArgs(creator["phone_number"], creator["name"], creator["handle"],
             req.prompt, req.language, req.voice, req.maxDuration, creatorId)
  }

  /** `POST /creators/{creatorId}/call`: look the creator up, require a phone
      number, place the call, log one `call_made` activity. */
  method MakeCallToCreator(store: CreatorStore, adapters: Adapters, creatorId: string,
                           req: CallRequest, outcome: Result<Value, Exc>, now: string)
    returns (resp: Response)
    requires store.Valid()
    modifies store, adapters
    ensures store.Valid()
    ensures store.creators == old(store.creators) && adapters.sentEmails == old(adapters.sentEmails)
    ensures resp.HttpError? ==> resp.status == 500
    // an unknown creator: the 404 surfaces as a 500
    ensures CreatorLookup(old(store.creators), creatorId).Failure? ==>
      resp == InternalError(CreatorNotFound(creatorId))
      && adapters.placedCalls == old(adapters.placedCalls) && store.activities == old(store.activities)
    // no phone number: the 400 surfaces as a 500, and nothing is called or logged
    ensures var look := CreatorLookup(old(store.creators), creatorId);
      look.Success? && !Truthy(Get(look.value, "phone_number", Null)) ==>
      resp == InternalError(HttpExc(400, "Creator has no phone number"))
      && adapters.placedCalls == old(adapters.placedCalls) && store.activities == old(store.activities)
    // the adapter is asked at most once, and only for a creator with a phone number
    ensures adapters.placedCalls == old(adapters.placedCalls)
      || (var look := CreatorLookup(old(store.creators), creatorId);
          look.Success? && Truthy(Get(look.value, "phone_number", Null))
          && "name" in look.value && "handle" in look.value
          && adapters.placedCalls == old(adapters.placedCalls) + [CallArgsFor(look.value, creatorId, req)])
    // an activity is logged exactly when the call succeeded, and then exactly one
    ensures resp.Ok? <==> store.activities != old(store.activities)
    ensures resp.Ok? ==>
      var creator := CreatorLookup(old(store.creators), creatorId).value;
      outcome.Success? && "name" in creator && "handle" in creator
      && adapters.placedCalls == old(adapters.placedCalls) + [CallArgsFor(creator, creatorId, req)]
      && store.activities == old(store.activities) + [WithId(CallActivity(creatorId, creator, req, now), old(store.nextId))]
      && resp.body == map["status" := Str("success"), "data" := outcome.value,
                          "message" := Str("Call initiated in " + req.language + " with " + req.voice + " voice")]
    // a failing provider (a 429 included) surfaces as a 500 with its text
    ensures outcome.Failure? && adapters.placedCalls != old(adapters.placedCalls) ==>
      resp == InternalError(outcome.error)
    // a creator with a phone number but no name or handle: the KeyError surfaces
    // before the provider is called
    ensures var look := CreatorLookup(old(store.creators), creatorId);
      look.Success? && Truthy(Get(look.value, "phone_number", Null)) && "name" !in look.value ==>
      resp == InternalError(KeyErr("name"))
      && adapters.placedCalls == old(adapters.placedCalls) && store.activities == old(store.activities)
    ensures var look := CreatorLookup(old(store.creators), creatorId);
      look.Success? && Truthy(Get(look.value, "phone_number", Null)) && "name" in look.value && "handle" !in look.value ==>
      resp == InternalError(KeyErr("handle"))
      && adapters.placedCalls == old(adapters.placedCalls) && store.activities == old(store.activities)
    // a creator with phone number, name and handle is called exactly once, and
    // the call succeeds exactly when the provider does
    ensures var look := CreatorLookup(old(store.creators), creatorId);
      look.Success? && Truthy(Get(look.value, "phone_number", Null)) && "name" in look.value && "handle" in look.value ==>
      adapters.placedCalls == old(adapters.placedCalls) + [CallArgsFor(look.value, creatorId, req)]
      && (resp.Ok? <==> outcome.Success?)
  {
    var found := store.GetCreator(creatorId);
    if found.Failure? {
      return InternalError(found.error);
    }
    var creator := found.value;
    if !Truthy(Get(creator, "phone_number", Null)) {
      return InternalError(HttpExc(400, "Creator has no phone number"));
    }
    if "name" !in creator {
      return InternalError(KeyErr("name"));
    }
    if "handle" !in creator {
      return InternalError(KeyErr("handle"));
    }
    var result := adapters.MakeCall(CallArgsFor(creator, creatorId, req), outcome);
    if result.Failure? {
      return InternalError(result.error);
    }
    var logged := store.LogActivity(CallActivity(creatorId, creator, req, now));
    resp := Ok(map["status" := Str("success"), "data" := result.value,
                   "message" := Str("Call initiated in " + req.language + " with " + req.voice + " voice")]);
  }

  // ---- send_email_to_creator ----

  /** The narrative logged after an email: the body is cut to its first 500
      characters and always followed by "...". */
  function EmailNote(creator: Row, req: EmailRequest, sent: Row): string
    requires "name" in creator && "handle" in creator && "email" in creator
  {
    EmailNoteHead(creator, req, sent) + Prefix(req.body, 500) + "..."
  }

  function EmailNoteHead(creator: Row, req: EmailRequest, sent: Row): string
    requires "name" in creator && "handle" in creator && "email" in creator
  {
    "Email sent to " + Render(creator["name"]) + " (@" + Render(creator["handle"]) + "):\n"
    + "Subject: " + req.subject + "\n"
    + "To: " + Render(creator["email"]) + "\n"
    + "From: " + Render(Get(sent, "from", Null)) + "\n"
    + "Content: "
  }

  /** The logged email narrative ends with at most the first 500 characters
      of the body, followed by "...". */
  lemma EmailNoteTruncatesBody(creator: Row, req: EmailRequest, sent: Row)
    requires "name" in creator && "handle" in creator && "email" in creator
    ensures var note, cut := EmailNote(creator, req, sent), Prefix(req.body, 500);
      && |cut| <= 500 && cut <= req.body
      && (|req.body| <= 500 ==> cut == req.body)
      && note[|note| - 3..] == "..."
      && note[|note| - 3 - |cut|..|note| - 3] == cut
  {
  }

  function EmailActivity(creatorId: string, creator: Row, req: EmailRequest, sent: Row, now: string): Row
    requires "name" in creator && "handle" in creator && "email" in creator
  {
    map["creator_id" := Str(creatorId),
        "type" := Str(ActivityTypeValue(EmailSent)),
        "status" := Str("completed"),
        "metadata" := Object(map["body" := Str(EmailNote(creator, req, sent))]),
        "created_at" := Str(now),
        "updated_at" := Str(now)]
  }

  function EmailArgsFor(creator: Row, req: EmailRequest): EmailArgs
    requires "email" in creator
  {
    EmailArgs(creator["email"], req.subject, req.body, req.cc, req.bcc)
  }

  /** `POST /creators/{creatorId}/email`: look the creator up, require an
      email address, send, log one `email_sent` activity. The name and handle
      are read only after sending, so a row without them fails after the
      email has gone out and before anything is logged. */
  method SendEmailToCreator(store: CreatorStore, adapters: Adapters, creatorId: string,
                            req: EmailRequest, outcome: Result<Row, Exc>, now: string)
    returns (resp: Response)
    requires store.Valid()
    modifies store, adapters
    ensures store.Valid()
    ensures store.creators == old(store.creators) && adapters.placedCalls == old(adapters.placedCalls)
    ensures resp.HttpError? ==> resp.status == 500
    ensures CreatorLookup(old(store.creators), creatorId).Failure? ==>
      resp == InternalError(CreatorNotFound(creatorId))
      && adapters.sentEmails == old(adapters.sentEmails) && store.activities == old(store.activities)
    ensures var look := CreatorLookup(old(store.creators), creatorId);
      look.Success? && !Truthy(Get(look.value, "email", Null)) ==>
      resp == InternalError(HttpExc(400, "Creator has no email address"))
      && adapters.sentEmails == old(adapters.sentEmails) && store.activities == old(store.activities)
    ensures adapters.sentEmails == old(adapters.sentEmails)
      || (var look := CreatorLookup(old(store.creators), creatorId);
          look.Success? && Truthy(Get(look.value, "email", Null))
          && adapters.sentEmails == old(adapters.sentEmails) + [EmailArgsFor(look.value, req)])
    ensures resp.Ok? <==> store.activities != old(store.activities)
    ensures resp.Ok? ==>
      var creator := CreatorLookup(old(store.creators), creatorId).value;
      outcome.Success? && "name" in creator && "handle" in creator && "email" in creator
      && adapters.sentEmails == old(adapters.sentEmails) + [EmailArgsFor(creator, req)]
      && store.activities == old(store.activities) + [WithId(EmailActivity(creatorId, creator, req, outcome.value, now), old(store.nextId))]
      && resp.body == map["status" := Str("success"), "data" := Object(outcome.value)]
    ensures outcome.Failure? && adapters.sentEmails != old(adapters.sentEmails) ==>
      resp == InternalError(outcome.error)
    // a creator with an email address is sent exactly one email; the name and
    // handle are read only afterwards
    ensures var look := CreatorLookup(old(store.creators), creatorId);
      look.Success? && Truthy(Get(look.value, "email", Null)) ==>
      adapters.sentEmails == old(adapters.sentEmails) + [EmailArgsFor(look.value, req)]
      && (outcome.Success? && "name" !in look.value ==>
            resp == InternalError(KeyErr("name")) && store.activities == old(store.activities))
      && (outcome.Success? && "name" in look.value && "handle" !in look.value ==>
            resp == InternalError(KeyErr("handle")) && store.activities == old(store.activities))
      && (resp.Ok? <==> outcome.Success? && "name" in look.value && "handle" in look.value)
  {
    var found := store.GetCreator(creatorId);
    if found.Failure? {
      return InternalError(found.error);
    }
    var creator := found.value;
    if !Truthy(Get(creator, "email", Null)) {
      return InternalError(HttpExc(400, "Creator has no email address"));
    }
    var result := adapters.SendEmail(EmailArgsFor(creator, req), outcome);
    if result.Failure? {
      return InternalError(result.error);
    }
    if "name" !in creator {
      return InternalError(KeyErr("name"));
    }
    if "handle" !in creator {
      return InternalError(KeyErr("handle"));
    }
    var logged := store.LogActivity(EmailActivity(creatorId, creator, req, result.value, now));
    resp := Ok(map["status" := Str("success"), "data" := Object(result.value)]);
  }
}
