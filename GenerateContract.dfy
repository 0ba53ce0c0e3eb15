// Contract synthesis: fetch the activities whose `type` is "Email", keep
// those with usable metadata as conversations, render them oldest first
// into a fixed prompt, and hand the prompt to a text-generation backend.
// The backend's answer is not part of this model; it is passed in.

module GenerateContract {
  import opened Values
  import opened CreatorService
  import opened TimestampSort
  import opened Schemas
  import CreatorsRouter

  /** One email exchange as the prompt shows it. Each field is whatever the
      row held (None when the key was missing). */
  datatype Conversation = Conversation(timestamp: Value, to: Value, body: Value, status: Value)

  // ---- get_conversation_data ----

  /** The query: every activity whose `type` is the text "Email". The
      creator id takes no part in it. */
  function EmailRows(activities: seq<Row>): seq<Row>
  {
    SelectEq(activities, "type", Str("Email"))
  }

  function MetadataOf(activity: Row): Value
  {
    Get(activity, "metadata", Object(map[]))
  }

  /** `metadata and isinstance(metadata, dict)`: missing, falsy or non-dict
      metadata makes the activity unusable. */
  predicate Usable(activity: Row)
  {
    Truthy(MetadataOf(activity)) && MetadataOf(activity).Object?
  }

  function Project(activity: Row): Conversation
    requires Usable(activity)
  {
    var m := MetadataOf(activity).fields;
    Conversation(Get(activity, "created_at", Null), Get(m, "to", Null),
                 Get(m, "body", Str("")), Get(activity, "status", Null))
  }

  /** The conversations the loop collects from `rows`, built the way the
      loop builds them: one row at a time, appending. */
  function Normalize(rows: seq<Row>): seq<Conversation>
  {
    if rows == [] then []
    else
      var last := rows[|rows| - 1];
      Normalize(rows[..|rows| - 1]) + (if Usable(last) then [Project(last)] else [])
  }

  /** The usable rows, in order (a reference definition, by filtering). */
  function UsableRows(rows: seq<Row>): (r: seq<Row>)
    ensures forall i :: 0 <= i < |r| ==> Usable(r[i])
  {
    if rows == [] then []
    else (if Usable(rows[0]) then [rows[0]] else []) + UsableRows(rows[1..])
  }

  function ProjectAll(rows: seq<Row>): (r: seq<Conversation>)
    requires forall i :: 0 <= i < |rows| ==> Usable(rows[i])
    ensures |r| == |rows|
    ensures forall i :: 0 <= i < |rows| ==> r[i] == Project(rows[i])
  {
    if rows == [] then [] else [Project(rows[0])] + ProjectAll(rows[1..])
  }

  lemma {:induction false} UsableRowsAppend(a: seq<Row>, b: seq<Row>)
    ensures UsableRows(a + b) == UsableRows(a) + UsableRows(b)
  {
    if a == [] {
      assert a + b == b;
    } else {
      var ab := a + b;
      assert ab[0] == a[0] && ab[1..] == a[1..] + b;
      UsableRowsAppend(a[1..], b);
    }
  }

  /** The loop is "filter, then project": every usable row gives exactly one
      conversation, in input order, and no other row gives any. */
  lemma {:induction false} NormalizeIsFilterThenProject(rows: seq<Row>)
    ensures Normalize(rows) == ProjectAll(UsableRows(rows))
  {
    if rows != [] {
      var init, last := rows[..|rows| - 1], rows[|rows| - 1];
      NormalizeIsFilterThenProject(init);
      assert rows == init + [last];
      UsableRowsAppend(init, [last]);
      assert UsableRows([last]) == (if Usable(last) then [last] else []);
    }
  }

  /** Corollary: the result is empty exactly when no row is usable. */
  lemma {:induction false} NormalizeEmpty(rows: seq<Row>)
    ensures Normalize(rows) == [] <==> forall i :: 0 <= i < |rows| ==> !Usable(rows[i])
  {
    if rows != [] {
      var init := rows[..|rows| - 1];
      NormalizeEmpty(init);
      assert forall i :: 0 <= i < |init| ==> init[i] == rows[i];
    }
  }

  function InvalidCreatorId(creatorId: string): Exc
  {
    HttpExc(400, "Invalid creator_id format: " + creatorId)
  }

  const NoConversations: Exc := HttpExc(404, "No conversations found for this creator")
  const NoValidConversations: Exc := HttpExc(404, "No valid email conversations found")

  /** `get_conversation_data`: reject a short id, fetch, fail on an empty
      fetch, collect the conversations, fail if none is usable. */
  method GetConversationData(creatorId: string, activities: seq<Row>)
    returns (r: Result<seq<Conversation>, Exc>)
    ensures |creatorId| < 10 ==> r == Failure(InvalidCreatorId(creatorId))
    ensures |creatorId| >= 10 && EmailRows(activities) == [] ==> r == Failure(NoConversations)
    ensures |creatorId| >= 10 && EmailRows(activities) != [] && Normalize(EmailRows(activities)) == [] ==>
      r == Failure(NoValidConversations)
    ensures r.Success? <==> |creatorId| >= 10 && Normalize(EmailRows(activities)) != []
    ensures r.Success? ==> r.value == Normalize(EmailRows(activities))
  {
    if creatorId == "" || |creatorId| < 10 {
      return Failure(InvalidCreatorId(creatorId));
    }
    var fetched := EmailRows(activities);
    if fetched == [] {
      return Failure(NoConversations);
    }
    var conversations: seq<Conversation> := [];
    for i := 0 to |fetched|
      invariant conversations == Normalize(fetched[..i])
    {
      var activity := fetched[i];
      var metadata := Get(activity, "metadata", Object(map[]));
      if Truthy(metadata) && metadata.Object? {
        var conversation := Conversation(Get(activity, "created_at", Null), Get(metadata.fields, "to", Null),
                                         Get(metadata.fields, "body", Str("")), Get(activity, "status", Null));
        conversations := conversations + [conversation];
      }
      assert fetched[..i + 1][..i] == fetched[..i];
    }
    assert fetched[..|fetched|] == fetched;
    if conversations == [] {
      return Failure(NoValidConversations);
    }
    r := Success(conversations);
  }

  // ---- _prepare_contract_prompt ----

  /** How Python orders a timestamp: bools and ints as numbers, strings as
      text; None and dicts cannot be ordered. */
  function TimestampKey(c: Conversation): SortKey
  {
    match c.timestamp
    case Bool(b) => Num(if b then 1 else 0)
    case Int(i) => Num(i)
    case Str(s) => Text(s)
    case Null => Unordered
    case Object(_) => Unordered
  }

  /** The four labelled lines of one conversation. */
  function EntryText(c: Conversation): string
  {
    "Timestamp: " + Render(c.timestamp) + "\n"
    + "To: " + Render(c.to) + "\n"
    + "Status: " + Render(c.status) + "\n"
    + "Message: " + Render(c.body)
  }

  function Entries(cs: seq<Conversation>): seq<string>
  {
    seq(|cs|, i requires 0 <= i < |cs| => EntryText(cs[i]))
  }

  /** Python's `sep.join(parts)`. */
  function Join(sep: string, parts: seq<string>): string
  {
    if parts == [] then ""
    else if |parts| == 1 then parts[0]
    else parts[0] + sep + Join(sep, parts[1..])
  }

  /** Joining two non-empty runs of parts puts one separator between them. */
  lemma {:induction false} JoinAppend(sep: string, a: seq<string>, b: seq<string>)
    requires a != [] && b != []
    ensures Join(sep, a + b) == Join(sep, a) + sep + Join(sep, b)
  {
    if |a| > 1 {
      JoinAppend(sep, a[1..], b);
      assert (a + b)[1..] == a[1..] + b;
    }
  }

  const PromptHead: string :=
    "\n            Based on the following email conversations between the agency and the creator, generate a formal contract.\n"
    + "            \n"
    + "            CONVERSATION HISTORY:\n"
    + "            "

  const PromptTail: string :=
    "\n            \n"
    + "            Please generate a formal contract that includes:\n"
    + "            1. Introduction and parties involved (extract names and roles from the conversations)\n"
    + "            2. Scope of work (based on discussed deliverables and expectations)\n"
    + "            3. Compensation details (extract any mentioned payments, rates, or financial terms)\n"
    + "            4. Timeline and deliverables (based on discussed dates and milestones)\n"
    + "            5. Terms and conditions (standard terms plus any specific terms mentioned)\n"
    + "            6. Termination clauses\n"
    + "            7. Signatures section\n"
    + "            \n"
    + "            Note: Ensure all key details mentioned in the conversations are reflected in the appropriate sections of the contract.\n"
    + "            "

  const PromptError: string := "Error preparing contract prompt. Please check logs for details."

  /** The chronological summary: one entry per conversation, oldest first,
      separated by blank lines. */
  function Summary(convs: seq<Conversation>): string
  {
    Join("\n\n", Entries(SortBy(convs, TimestampKey)))
  }

  /** The prompt for `convs`; the fixed error text when sorting raises. */
  function PromptFor(convs: seq<Conversation>): string
  {
    if Orderable(convs, TimestampKey) then PromptHead + Summary(convs) + PromptTail else PromptError
  }

  /** `_prepare_contract_prompt`: sort, format each entry in a loop, join,
      embed. */
  method PrepareContractPrompt(convs: seq<Conversation>) returns (prompt: string)
    ensures prompt == PromptFor(convs)
    ensures !Orderable(convs, TimestampKey) ==> prompt == PromptError
  {
    if !Orderable(convs, TimestampKey) {
      return PromptError;
    }
    var sorted := SortBy(convs, TimestampKey);
    var entries: seq<string> := [];
    for i := 0 to |sorted|
      invariant entries == Entries(sorted[..i])
    {
      var entry := "Timestamp: " + Render(sorted[i].timestamp) + "\n"
                 + "To: " + Render(sorted[i].to) + "\n"
                 + "Status: " + Render(sorted[i].status) + "\n"
                 + "Message: " + Render(sorted[i].body);
      assert entry == EntryText(sorted[i]);
      EntriesSnoc(sorted, i);
      entries := entries + [entry];
    }
    assert sorted[..|sorted|] == sorted;
    prompt := PromptHead + Join("\n\n", entries) + PromptTail;
  }

  lemma EntriesSnoc(cs: seq<Conversation>, i: nat)
    requires i < |cs|
    ensures Entries(cs[..i + 1]) == Entries(cs[..i]) + [EntryText(cs[i])]
  {
    assert cs[..i + 1][i] == cs[i];
  }

  /** What the summary holds: as many entries as conversations, each the
      entry of one conversation, the conversations in ascending timestamp
      order, a permutation of the input, and equal timestamps in input
      order. */
  lemma SummarySpec(convs: seq<Conversation>, k: SortKey)
    ensures var sorted := SortBy(convs, TimestampKey);
      && Summary(convs) == Join("\n\n", Entries(sorted))
      && |Entries(sorted)| == |convs|
      && multiset(sorted) == multiset(convs)
      && (forall i, j :: 0 <= i < j < |sorted| ==> KeyLe(TimestampKey(sorted[i]), TimestampKey(sorted[j])))
      && WithKey(sorted, TimestampKey, k) == WithKey(convs, TimestampKey, k)
  {
    SortStable(convs, TimestampKey, k);
  }

  /** Conversations with pairwise distinct timestamps give the same prompt
      whatever order they were fetched in. */
  lemma PromptIgnoresFetchOrder(a: seq<Conversation>, b: seq<Conversation>)
    requires multiset(a) == multiset(b)
    requires KeysDistinct(a, TimestampKey)
    ensures PromptFor(a) == PromptFor(b)
  {
    OrderOfArrivalIrrelevant(a, b, TimestampKey);
    OrderableSameElements(a, b);
  }

  lemma OrderableSameElements(a: seq<Conversation>, b: seq<Conversation>)
    requires multiset(a) == multiset(b)
    ensures Orderable(a, TimestampKey) == Orderable(b, TimestampKey)
  {
    assert |a| == |multiset(a)| == |multiset(b)| == |b|;
    forall j | 0 <= j < |b| ensures b[j] in a {
      assert b[j] in multiset(a);
    }
    forall j | 0 <= j < |a| ensures a[j] in b {
      assert a[j] in multiset(b);
    }
  }

  /** Two conversations with ISO timestamps t1 < t2 are rendered with t1's
      entry first, whichever order they arrive in. */
  lemma TwoConversationsInOrder(c1: Conversation, c2: Conversation)
    requires c1.timestamp.Str? && c2.timestamp.Str?
    requires TextLe(c1.timestamp.s, c2.timestamp.s) && c1.timestamp.s != c2.timestamp.s
    ensures var summary := EntryText(c1) + "\n\n" + EntryText(c2);
      PromptFor([c2, c1]) == PromptFor([c1, c2]) == PromptHead + summary + PromptTail
  {
    var summary := EntryText(c1) + "\n\n" + EntryText(c2);
    SummaryOfTwo(c1, c2);
    OrderableTwo(c1, c2);
    PromptOfSummary([c1, c2], summary);
    PromptOfSummary([c2, c1], summary);
  }

  lemma SummaryOfTwo(c1: Conversation, c2: Conversation)
    requires c1.timestamp.Str? && c2.timestamp.Str?
    requires TextLe(c1.timestamp.s, c2.timestamp.s) && c1.timestamp.s != c2.timestamp.s
    ensures Summary([c1, c2]) == Summary([c2, c1]) == EntryText(c1) + "\n\n" + EntryText(c2)
  {
    SortTwo(c1, c2, TimestampKey);
    EntriesTwo(c1, c2);
    JoinTwo("\n\n", EntryText(c1), EntryText(c2));
  }

  lemma OrderableTwo(c1: Conversation, c2: Conversation)
    requires c1.timestamp.Str? && c2.timestamp.Str?
    ensures Orderable([c1, c2], TimestampKey) && Orderable([c2, c1], TimestampKey)
  {
  }

  lemma EntriesTwo(c1: Conversation, c2: Conversation)
    ensures Entries([c1, c2]) == [EntryText(c1), EntryText(c2)]
  {
  }

  lemma JoinTwo(sep: string, x: string, y: string)
    ensures Join(sep, [x, y]) == x + sep + y
  {
    assert [x, y][1..] == [y];
  }

  lemma PromptOfSummary(convs: seq<Conversation>, summary: string)
    requires Orderable(convs, TimestampKey) && Summary(convs) == summary
    ensures PromptFor(convs) == PromptHead + summary + PromptTail
  {
  }

  // ---- generate_contract_text ----

  /** What the backend does with the prompt: it raises, or it returns a
      completion whose first choice's content may be None. */
  datatype LlmReply = Completion(content: Option<string>) | LlmError(message: string)

  const EmptyContract: Exc := HttpExc(500, "Empty contract text received from Groq API")

  /** The HTTPException raised for an empty completion is caught by the
      handler around the backend call and wrapped again. */
  function BackendFailure(e: Exc): Exc
  {
    HttpExc(500, "Groq API error: " + ExcText(e))
  }

  /** `generate_contract_text`: build the prompt, ask the backend once, and
      insist on a non-empty answer. */
  method GenerateContractText(convs: seq<Conversation>, reply: LlmReply)
    returns (r: Result<string, Exc>, sentPrompt: string)
    ensures sentPrompt == PromptFor(convs)
    ensures r.Success? <==> reply.Completion? && reply.content.Some? && reply.content.value != ""
    ensures r.Success? ==> r.value == reply.content.value
    ensures reply.LlmError? ==> r == Failure(BackendFailure(Raised(reply.message)))
    ensures reply.Completion? && (reply.content.None? || reply.content.value == "") ==>
      r == Failure(BackendFailure(EmptyContract))
  {
    sentPrompt := PrepareContractPrompt(convs);
    match reply
    case LlmError(message) =>
      r := Failure(BackendFailure(Raised(message)));
    case Completion(content) =>
      if content.None? || content.value == "" {
        r := Failure(BackendFailure(EmptyContract));
      } else {
        r := Success(content.value);
      }
  }

  // ---- generate_contract_for_creator ----

  function GenerationFailure(e: Exc): Exc
  {
    HttpExc(500, "Failed to generate contract: " + ExcText(e))
  }

  /** `generate_contract_for_creator`: the pipeline, with every failure
      (the 400 and the 404s included) turned into a 500. `prompts` lists
      what was sent to the backend. */
  method GenerateContractForCreator(creatorId: string, activities: seq<Row>, reply: LlmReply)
    returns (r: Result<string, Exc>, prompts: seq<string>)
    ensures r.Failure? ==> exists e :: r.error == GenerationFailure(e)
    ensures r.Failure? ==> r.error.HttpExc? && r.error.code == 500
    ensures |creatorId| < 10 ==>
      r == Failure(GenerationFailure(InvalidCreatorId(creatorId))) && prompts == []
    ensures |creatorId| >= 10 && EmailRows(activities) == [] ==>
      r == Failure(GenerationFailure(NoConversations)) && prompts == []
    ensures |creatorId| >= 10 && EmailRows(activities) != [] && Normalize(EmailRows(activities)) == [] ==>
      r == Failure(GenerationFailure(NoValidConversations)) && prompts == []
    ensures |creatorId| >= 10 && Normalize(EmailRows(activities)) != [] ==>
      prompts == [PromptFor(Normalize(EmailRows(activities)))]
    ensures r.Success? <==>
      |creatorId| >= 10 && Normalize(EmailRows(activities)) != []
      && reply.Completion? && reply.content.Some? && reply.content.value != ""
    ensures r.Success? ==> r.value == reply.content.value
  {
    var data := GetConversationData(creatorId, activities);
    if data.Failure? {
      NormalizeEmpty(EmailRows(activities));
      return Failure(GenerationFailure(data.error)), [];
    }
    var text, sent := GenerateContractText(data.value, reply);
    prompts := [sent];
    if text.Failure? {
      return Failure(GenerationFailure(text.error)), prompts;
    }
    r := Success(text.value);
  }

  /** The `type` of every activity row the service and the routes write:
      absent, "email_sent" or "call_made". */
  predicate WrittenType(row: Row)
  {
    "type" !in row || row["type"] in {Str("email_sent"), Str("call_made")}
  }

  /** Each writer produces a row of that kind: the call and email logs of the
      routes, the two logs of the service, and a recorded `Activity` body,
      all once stored with their identifier. */
  lemma WritersWriteNoEmailType(creatorId: string, creator: Row, call: CallRequest, email: EmailRequest,
                                sent: Row, c: CreatorCreate, newCreatorId: Value, newStatus: string,
                                a: Activity, now: string, n: nat)
    requires "name" in creator && "handle" in creator && "email" in creator
    ensures WrittenType(WithId(CreatorsRouter.CallActivity(creatorId, creator, call, now), n))
    ensures WrittenType(WithId(CreatorsRouter.EmailActivity(creatorId, creator, email, sent, now), n))
    ensures WrittenType(WithId(CreatorCreatedActivity(newCreatorId, c, now), n))
    ensures WrittenType(WithId(StatusChangedActivity(creatorId, newStatus, now), n))
    ensures WrittenType(WithId(CreatorsRouter.Shaped(ActivityRow(a), creatorId, now), n))
  {
    CreatorsRouter.ShapedActivity(a, creatorId, now);
  }

  /** None of the activity rows the service writes has `type` "Email", so
      the fetch never returns any of them and no conversation is collected. */
  lemma WrittenActivitiesAreNeverFetched(rows: seq<Row>)
    requires forall i :: 0 <= i < |rows| ==> WrittenType(rows[i])
    ensures EmailRows(rows) == []
    ensures Normalize(EmailRows(rows)) == []
  {
    SelectEqFirst(rows, "type", Str("Email"));
  }
}
