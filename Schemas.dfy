// The request and record shapes of the creator API: the closed enumeration
// of activity types and the four request records with their defaults.
// Validation of a JSON body into a record follows the declared field types:
// a required field must be present with the declared type, a field with a
// default takes it when the key is absent, and an Optional field also
// accepts an explicit null.

module Schemas {
  import opened Values

  datatype ActivityType =
    | EmailSent
    | EmailReceived
    | CallMade
    | CallCompleted
    | CreatorCreated
    | StatusChanged
    | CallAnalyzed

  /** The string value each member carries (the enum is a `str` enum, so this
      is also what is stored in a row). */
  function ActivityTypeValue(t: ActivityType): string
  {
    match t
    case EmailSent => "email_sent"
    case EmailReceived => "email_received"
    case CallMade => "call_made"
    case CallCompleted => "call_completed"
    case CreatorCreated => "creator_created"
    case StatusChanged => "status_changed"
    case CallAnalyzed => "call_analyzed"
  }

  const ActivityTypeValues: seq<string> :=
    ["email_sent", "email_received", "call_made", "call_completed",
     "creator_created", "status_changed", "call_analyzed"]

  /** `ActivityType(s)`: look a member up by its value. */
  function ParseActivityType(s: string): (r: Option<ActivityType>)
    ensures r.Some? ==> ActivityTypeValue(r.value) == s
    ensures r.None? ==> forall t: ActivityType :: ActivityTypeValue(t) != s
  {
    if s == "email_sent" then Some(EmailSent)
    else if s == "email_received" then Some(EmailReceived)
    else if s == "call_made" then Some(CallMade)
    else if s == "call_completed" then Some(CallCompleted)
    else if s == "creator_created" then Some(CreatorCreated)
    else if s == "status_changed" then Some(StatusChanged)
    else if s == "call_analyzed" then Some(CallAnalyzed)
    else None
  }

  /** The enumeration is closed: exactly the seven listed strings are values,
      each names one member, and looking up a member's value gives it back. */
  lemma ActivityTypeClosed(s: string, t: ActivityType)
    ensures ParseActivityType(s).Some? <==> s in ActivityTypeValues
    ensures ParseActivityType(ActivityTypeValue(t)) == Some(t)
    ensures |ActivityTypeValues| == 7
    ensures forall i, j :: 0 <= i < j < 7 ==> ActivityTypeValues[i] != ActivityTypeValues[j]
  {
  }

  datatype CreatorCreate = CreatorCreate(
    name: string,
    handle: string,
    email: Option<string>,
    phoneNumber: Option<string>)

  datatype Activity = Activity(
    creatorId: string,
    activityType: ActivityType,
    body: string,
    activityDatetime: string)

  datatype CallRequest = CallRequest(
    prompt: string,
    language: string,
    voice: string,
    maxDuration: int)

  datatype EmailRequest = EmailRequest(
    subject: string,
    body: string,
    cc: Option<string>,
    bcc: Option<string>,
    fromEmail: Option<string>)

  const DefaultLanguage := "en"
  const DefaultVoice := "nat"
  const DefaultMaxDuration := 12

  // Field validators. A failure carries the name of the offending field.

  function RequiredStr(j: Row, key: string): Result<string, string>
  {
    if key in j && j[key].Str? then Success(j[key].s) else Failure(key)
  }

  function OptionalStr(j: Row, key: string): Result<Option<string>, string>
  {
    if key !in j || j[key] == Null then Success(None)
    else if j[key].Str? then Success(Some(j[key].s))
    else Failure(key)
  }

  function StrOrDefault(j: Row, key: string, default: string): Result<string, string>
  {
    if key !in j then Success(default)
    else if j[key].Str? then Success(j[key].s)
    else Failure(key)
  }

  function IntOrDefault(j: Row, key: string, default: int): Result<int, string>
  {
    if key !in j then Success(default)
    else if j[key].Int? then Success(j[key].i)
    else Failure(key)
  }

  function OptionValue(o: Option<string>): Value
  {
    match o
    case None => Null
    case Some(s) => Str(s)
  }

  /** Validate a body as a `CreatorCreate`; the first invalid field, in
      declaration order, is reported. */
  function ParseCreatorCreate(j: Row): (r: Result<CreatorCreate, string>)
    ensures r.Success? <==>
      RequiredStr(j, "name").Success? && RequiredStr(j, "handle").Success?
      && OptionalStr(j, "email").Success? && OptionalStr(j, "phone_number").Success?
    ensures RequiredStr(j, "name").Failure? ==> r == Failure("name")
    ensures RequiredStr(j, "name").Success? && RequiredStr(j, "handle").Failure? ==> r == Failure("handle")
    ensures r.Success? ==> r.value.name == j["name"].s && r.value.handle == j["handle"].s
    ensures r.Success? && ("email" !in j || j["email"] == Null) ==> r.value.email == None
    ensures r.Success? && ("phone_number" !in j || j["phone_number"] == Null) ==> r.value.phoneNumber == None
    ensures r.Success? && "email" in j && j["email"].Str? ==> r.value.email == Some(j["email"].s)
    ensures r.Success? && "phone_number" in j && j["phone_number"].Str? ==> r.value.phoneNumber == Some(j["phone_number"].s)
  {
    match (RequiredStr(j, "name"), RequiredStr(j, "handle"), OptionalStr(j, "email"), OptionalStr(j, "phone_number"))
    case (Failure(f), _, _, _) => Failure(f)
    case (_, Failure(f), _, _) => Failure(f)
    case (_, _, Failure(f), _) => Failure(f)
    case (_, _, _, Failure(f)) => Failure(f)
    case (Success(n), Success(h), Success(e), Success(p)) => Success(CreatorCreate(n, h, e, p))
  }

  /** `creator.dict()` */
  function CreatorCreateRow(c: CreatorCreate): Row
  {
    map["name" := Str(c.name), "handle" := Str(c.handle),
        "email" := OptionValue(c.email), "phone_number" := OptionValue(c.phoneNumber)]
  }

  lemma CreatorCreateRoundTrip(c: CreatorCreate)
    ensures ParseCreatorCreate(CreatorCreateRow(c)) == Success(c)
  {
  }

  /** A body giving only a name and a handle validates, with no email and no
      phone number. */
  lemma CreatorCreateMinimal(name: string, handle: string)
    ensures ParseCreatorCreate(map["name" := Str(name), "handle" := Str(handle)])
            == Success(CreatorCreate(name, handle, None, None))
  {
  }

  /** Validate a body as an `Activity`. The default of `activity_datetime` is
      evaluated once, when the class is defined, so every activity that omits
      it shares the instant `classDefinedAt`. */
  function ParseActivity(j: Row, classDefinedAt: string): (r: Result<Activity, string>)
    ensures RequiredStr(j, "creator_id").Failure? ==> r == Failure("creator_id")
    ensures r.Success? <==>
      RequiredStr(j, "creator_id").Success? && RequiredStr(j, "activity_type").Success?
      && ParseActivityType(j["activity_type"].s).Some?
      && RequiredStr(j, "body").Success? && StrOrDefault(j, "activity_datetime", classDefinedAt).Success?
    ensures r.Success? ==> ActivityTypeValue(r.value.activityType) == j["activity_type"].s
    ensures r.Success? ==> r.value.creatorId == j["creator_id"].s && r.value.body == j["body"].s
    ensures r.Success? && "activity_datetime" !in j ==> r.value.activityDatetime == classDefinedAt
    ensures r.Success? && "activity_datetime" in j ==> r.value.activityDatetime == j["activity_datetime"].s
  {
    match (RequiredStr(j, "creator_id"), RequiredStr(j, "activity_type"), RequiredStr(j, "body"),
           StrOrDefault(j, "activity_datetime", classDefinedAt))
    case (Failure(f), _, _, _) => Failure(f)
    case (_, Failure(f), _, _) => Failure(f)
    case (_, Success(t), _, _) =>
      match ParseActivityType(t)
      case None => Failure("activity_type")
      case Some(at) =>
        match (RequiredStr(j, "body"), StrOrDefault(j, "activity_datetime", classDefinedAt))
        case (Failure(f), _) => Failure(f)
        case (_, Failure(f)) => Failure(f)
        case (Success(b), Success(dt)) => Success(Activity(j["creator_id"].s, at, b, dt))
  }

  /** `activity.dict()`: always the four declared keys. */
  function ActivityRow(a: Activity): Row
  {
    map["creator_id" := Str(a.creatorId),
        "activity_type" := Str(ActivityTypeValue(a.activityType)),
        "body" := Str(a.body),
        "activity_datetime" := Str(a.activityDatetime)]
  }

  lemma ActivityRoundTrip(a: Activity, classDefinedAt: string)
    ensures ParseActivity(ActivityRow(a), classDefinedAt) == Success(a)
  {
    ActivityTypeClosed(ActivityTypeValue(a.activityType), a.activityType);
  }

  /** Validate a body as a `CallRequest`: only `prompt` is required. */
  function ParseCallRequest(j: Row): (r: Result<CallRequest, string>)
    ensures r.Success? <==>
      RequiredStr(j, "prompt").Success? && StrOrDefault(j, "language", DefaultLanguage).Success?
      && StrOrDefault(j, "voice", DefaultVoice).Success? && IntOrDefault(j, "max_duration", DefaultMaxDuration).Success?
    ensures RequiredStr(j, "prompt").Failure? ==> r == Failure("prompt")
    ensures r.Success? ==> r.value.prompt == j["prompt"].s
    ensures r.Success? && "language" in j ==> r.value.language == j["language"].s
    ensures r.Success? && "voice" in j ==> r.value.voice == j["voice"].s
    ensures r.Success? && "max_duration" in j ==> r.value.maxDuration == j["max_duration"].i
    ensures r.Success? && "language" !in j ==> r.value.language == DefaultLanguage
    ensures r.Success? && "voice" !in j ==> r.value.voice == DefaultVoice
    ensures r.Success? && "max_duration" !in j ==> r.value.maxDuration == DefaultMaxDuration
  {
    match (RequiredStr(j, "prompt"), StrOrDefault(j, "language", DefaultLanguage),
           StrOrDefault(j, "voice", DefaultVoice), IntOrDefault(j, "max_duration", DefaultMaxDuration))
    case (Failure(f), _, _, _) => Failure(f)
    case (_, Failure(f), _, _) => Failure(f)
    case (_, _, Failure(f), _) => Failure(f)
    case (_, _, _, Failure(f)) => Failure(f)
    case (Success(p), Success(l), Success(v), Success(d)) => Success(CallRequest(p, l, v, d))
  }

  /** `call_request.dict()` */
  function CallRequestRow(c: CallRequest): Row
  {
    map["prompt" := Str(c.prompt), "language" := Str(c.language),
        "voice" := Str(c.voice), "max_duration" := Int(c.maxDuration)]
  }

  lemma CallRequestRoundTrip(c: CallRequest)
    ensures ParseCallRequest(CallRequestRow(c)) == Success(c)
  {
  }

  /** A body holding only a prompt gets language "en", voice "nat" and a
      twelve-minute ceiling. */
  lemma CallRequestDefaults(prompt: string)
    ensures ParseCallRequest(map["prompt" := Str(prompt)]) == Success(CallRequest(prompt, "en", "nat", 12))
  {
  }

  /** Validate a body as an `EmailRequest`: `subject` and `body` are required,
      the three addresses default to None. */
  function ParseEmailRequest(j: Row): (r: Result<EmailRequest, string>)
    ensures r.Success? <==>
      RequiredStr(j, "subject").Success? && RequiredStr(j, "body").Success?
      && OptionalStr(j, "cc").Success? && OptionalStr(j, "bcc").Success? && OptionalStr(j, "from_email").Success?
    ensures RequiredStr(j, "subject").Failure? ==> r == Failure("subject")
    ensures RequiredStr(j, "subject").Success? && RequiredStr(j, "body").Failure? ==> r == Failure("body")
    ensures r.Success? ==> r.value.subject == j["subject"].s && r.value.body == j["body"].s
    ensures r.Success? && ("cc" !in j || j["cc"] == Null) ==> r.value.cc == None
    ensures r.Success? && ("bcc" !in j || j["bcc"] == Null) ==> r.value.bcc == None
    ensures r.Success? && ("from_email" !in j || j["from_email"] == Null) ==> r.value.fromEmail == None
    ensures r.Success? && "cc" in j && j["cc"].Str? ==> r.value.cc == Some(j["cc"].s)
    ensures r.Success? && "bcc" in j && j["bcc"].Str? ==> r.value.bcc == Some(j["bcc"].s)
    ensures r.Success? && "from_email" in j && j["from_email"].Str? ==> r.value.fromEmail == Some(j["from_email"].s)
  {
    match (RequiredStr(j, "subject"), RequiredStr(j, "body"), OptionalStr(j, "cc"),
           OptionalStr(j, "bcc"), OptionalStr(j, "from_email"))
    case (Failure(f), _, _, _, _) => Failure(f)
    case (_, Failure(f), _, _, _) => Failure(f)
    case (_, _, Failure(f), _, _) => Failure(f)
    case (_, _, _, Failure(f), _) => Failure(f)
    case (_, _, _, _, Failure(f)) => Failure(f)
    case (Success(s), Success(b), Success(c), Success(bc), Success(fe)) => Success(EmailRequest(s, b, c, bc, fe))
  }

  /** `email_request.dict()` */
  function EmailRequestRow(e: EmailRequest): Row
  {
    map["subject" := Str(e.subject), "body" := Str(e.body), "cc" := OptionValue(e.cc),
        "bcc" := OptionValue(e.bcc), "from_email" := OptionValue(e.fromEmail)]
  }

  lemma EmailRequestRoundTrip(e: EmailRequest)
    ensures ParseEmailRequest(EmailRequestRow(e)) == Success(e)
  {
  }

  /** A body giving only a subject and a body validates, with no addresses. */
  lemma EmailRequestMinimal(subject: string, body: string)
    ensures ParseEmailRequest(map["subject" := Str(subject), "body" := Str(body)])
            == Success(EmailRequest(subject, body, None, None, None))
  {
  }
}
