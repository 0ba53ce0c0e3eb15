# Creator platform core, modelled in Dafny

This project models the core of a small creator-management API: an agency
stores creators and their activities in two datastore tables, places calls
and sends emails to creators, and asks a language model to draft a contract
from the email conversations it has on record.

The model covers four parts of the program:

- **The record types** (`Schemas`). This is the closed `ActivityType`
  enumeration and the four request bodies (`CreatorCreate`, `Activity`,
  `CallRequest`, `EmailRequest`). Each has its defaults and its validation
  from a JSON object.
- **The creator service** (`CreatorService`). A `CreatorStore` class holds
  the `creators` and `activities` tables as sequences of rows. The three
  query shapes the service uses are modelled by what they do to a table:
  - `insert` appends the row with a fresh identifier;
  - `select … eq` keeps the matching rows in table order;
  - `update … eq` merges a patch into every matching row.
- **The creator routes** (`CreatorsRouter`):
  - `create_activity` rewrites the request dict in place;
  - the call and email handlers run guard → adapter → log, and every
    exception they meet becomes a 500.

  The call and email providers are an `Adapters` class. It records every
  request it receives, and the provider's answer is passed in.
- **Contract generation** (`GenerateContract`), a pipeline of five steps:
  1. the creator-id check;
  2. the `type == "Email"` fetch;
  3. the loop that turns usable rows into conversations;
  4. the loop that renders them oldest first into a fixed prompt;
  5. the backend call, whose reply is passed in, followed by the 500
     wrapping of every failure.

  Python's `sorted` with a key is modelled separately in `TimestampSort`.
  It is a stable insertion sort over the values a timestamp can take, and
  it raises when the keys cannot be compared.

`Values` holds the shared pieces of Python semantics:
- JSON-like values and rows;
- truthiness and `dict.get`;
- `str()` of a value inside an f-string;
- slicing with `s[:n]`;
- the text of an exception.

The text of an exception is modelled as follows:
- an `HTTPException` reads `"<status>: <detail>"`;
- a `KeyError` reads as the quoted key;
- any other exception reads as its message.

Timestamps (`datetime.now()`) are parameters. Each handler receives one
instant, `now`. Identifiers issued by the datastore are a counter written
in decimal.

## Model

| member | source | states |
|---|---|---|
| Schemas.ParseActivityType | app/schemas/creator.py:6-13 | looking a value up yields a member carrying exactly that value, and None only when no member carries it |
| Schemas.ActivityTypeClosed | app/schemas/creator.py:6-13 | the enumeration is closed: a string is a value iff it is one of the seven listed, the seven are distinct, and every member's value looks up to that member |
| Schemas.ParseCreatorCreate | app/schemas/creator.py:15-19 | a body validates iff name and handle are strings and email / phone number are strings, null or absent; a missing name (then handle) is reported by name; on success every field is the body's, and a missing or null email / phone number becomes None |
| Schemas.CreatorCreateRoundTrip | app/schemas/creator.py:15-19 | validating `creator.dict()` gives back the same creator |
| Schemas.CreatorCreateMinimal | app/schemas/creator.py:15-19 | a body with only a name and a handle validates, with email and phone number None |
| Schemas.ParseActivity | app/schemas/creator.py:21-25 | an activity validates iff creator_id, a known activity_type and body are strings (and activity_datetime, when given, too); the type parsed carries the body's value, a supplied activity_datetime is kept, and a missing one takes the single class-definition instant |
| Schemas.ActivityRoundTrip | app/schemas/creator.py:21-25 | validating `activity.dict()` gives back the same activity |
| Schemas.ParseCallRequest | app/schemas/creator.py:27-31 | a body validates iff prompt is a string and language / voice / max_duration, when present, have their declared types; only `prompt` is required; a value sent for language, voice or max_duration is kept, an absent one takes "en", "nat" or 12 |
| Schemas.CallRequestDefaults | app/schemas/creator.py:27-31 | a body holding only a prompt validates to (prompt, "en", "nat", 12) |
| Schemas.CallRequestRoundTrip | app/schemas/creator.py:27-31 | validating `call_request.dict()` gives back the same request |
| Schemas.ParseEmailRequest | app/schemas/creator.py:33-38 | a body validates iff subject and body are strings and cc / bcc / from_email are strings, null or absent; a missing subject (then body) is reported by name; on success subject and body are the body's, a string cc, bcc or from_email is kept, and an absent or null one is None |
| Schemas.EmailRequestRoundTrip | app/schemas/creator.py:33-38 | validating `email_request.dict()` gives back the same request |
| Schemas.EmailRequestMinimal | app/schemas/creator.py:33-38 | a body with only a subject and a body validates, with cc, bcc and from_email None |
| Values.Prefix | app/routers/creators.py:84 | `s[:n]` has length min(n, \|s\|) and is a prefix of `s` |
| CreatorService.SelectEq | app/services/creator_service.py:39 | a select returns no more rows than the table holds, and a row is returned iff it is in the table and matches |
| CreatorService.SelectEqFirst | app/services/creator_service.py:39-42 | a select is non-empty iff some row matches, and its first row is the table's first matching row |
| CreatorService.UpdateEq | app/services/creator_service.py:67-70 | an update keeps the table's length and rewrites row i to row i merged with the patch exactly when row i matches |
| CreatorService.UpdateEqFrame | app/services/creator_service.py:67-70 | columns outside the patch keep their presence and value in every row, and a non-matching row is left as it was |
| CreatorService.UpdateEqNoMatch | app/services/creator_service.py:67-73 | when no row has the id, the update leaves the table unchanged |
| CreatorService.IdenticalPayloadsDistinctRows | app/services/creator_service.py:56-59 | logging the same payload under two different counter values stores two different rows with different ids (no deduplication) |
| CreatorService.CreatorStore.LogActivity | app/services/creator_service.py:56-62 | exactly one row, the payload with a fresh id, is appended to `activities` and returned; `creators` is unchanged and the store invariant (distinct issued ids) is kept |
| CreatorService.CreatorStore.CreateCreator | app/services/creator_service.py:12-34 | the creator with both timestamps stamped gets a fresh id and is appended to `creators`, then exactly one `creator_created` activity naming that id is appended to `activities` |
| CreatorService.CreatorStore.GetCreator | app/services/creator_service.py:36-45 | the result is the first row whose id matches, and a 404 "Creator with ID … not found" exactly when none does |
| CreatorService.CreatorStore.GetAllCreators | app/services/creator_service.py:47-54 | every creator row is returned, unchanged and in order |
| CreatorService.CreatorStore.UpdateCreatorStatus | app/services/creator_service.py:64-87 | `status` and `updated_at` are patched on every row with the id; with no match it raises "Creator with ID … not found" and nothing changes, otherwise exactly one `status_changed` activity is logged and the first updated row is returned |
| TimestampSort.KeyLeOrder | app/services/generate_contract.py:169 | the key order is total, antisymmetric and transitive |
| TimestampSort.Insert | app/services/generate_contract.py:169 | inserting adds exactly one element and keeps a sorted sequence sorted |
| TimestampSort.SortBy | app/services/generate_contract.py:169 | the sorted conversations are a permutation of the input, in ascending key order |
| TimestampSort.InsertGroups | app/services/generate_contract.py:169 | inserting puts the element ahead of the existing elements with its key, and leaves the other keys' elements as they were |
| TimestampSort.SortStable | app/services/generate_contract.py:169 | the sort is stable: for every key, the elements with that key keep their input order |
| TimestampSort.SortedUnique | app/services/generate_contract.py:169 | two sorted sequences are equal when, for every key, their elements with that key are the same and in the same order |
| TimestampSort.OrderOfArrivalIrrelevant | app/services/generate_contract.py:169 | when one arrangement has pairwise distinct keys, every arrangement of the same elements sorts to the same sequence |
| TimestampSort.KeysDistinctPerm | app/services/generate_contract.py:169 | pairwise distinct keys carry over to every rearrangement of the same elements |
| TimestampSort.SortTwo | app/services/generate_contract.py:169 | two elements with strictly ordered keys come out smaller key first in either input order |
| CreatorsRouter.Adapters.MakeCall | app/routers/creators.py:67-76 | the call request is recorded once and the provider's outcome is returned; no email is recorded |
| CreatorsRouter.Adapters.SendEmail | app/routers/creators.py:115-121 | the email request (without from_email) is recorded once and the provider's outcome is returned; no call is recorded |
| CreatorsRouter.ShapedSpec | app/routers/creators.py:33-42 | the stored record has the path's creator_id, no top-level body, `metadata` = {"body": body} or {}, created_at / updated_at / status filled only when absent, and every other request key passed through unchanged, with nothing else added |
| CreatorsRouter.ShapedActivity | app/routers/creators.py:33-42 | for a validated Activity the record is exactly seven keys: activity_type, activity_datetime, the path's creator_id, metadata {"body": body}, created_at = updated_at = now, status "completed" |
| CreatorsRouter.ShapeActivity | app/routers/creators.py:33-42 | the step-by-step rewrite of the request dict yields the shaped record described by ShapedSpec |
| CreatorsRouter.CreateActivity | app/routers/creators.py:26-48 | exactly one activity, the shaped record with a fresh id, is logged and returned under `data` with status "success"; creators are unchanged |
| CreatorsRouter.CallNoteTruncatesPrompt | app/routers/creators.py:84 | the logged call narrative ends with at most the first 100 characters of the prompt (all of it when shorter) followed by "..." |
| CreatorsRouter.EmailNoteTruncatesBody | app/routers/creators.py:129 | the logged email narrative ends with at most the first 500 characters of the body (all of it when shorter) followed by "..." |
| CreatorsRouter.MakeCallToCreator | app/routers/creators.py:50-98 | every error is a 500; an unknown creator gives the 404 text and a creator without a truthy phone number gives the 400 text, a missing name or handle gives the KeyError text, and in those cases nothing is called or logged; a creator with phone number, name and handle is called exactly once with its phone, name, handle and the request's settings; the response is a success iff the provider's is, and then exactly one `call_made` activity is logged and the provider's result is returned with the language/voice message; a provider failure surfaces with its text and logs nothing |
| CreatorsRouter.SendEmailToCreator | app/routers/creators.py:100-140 | every error is a 500; an unknown creator or one without a truthy email is rejected before sending and nothing is logged; a creator with an email address is sent exactly one email, to that address with the request's subject, body, cc and bcc; the response is a success iff the provider succeeded and the creator has a name and a handle (otherwise the KeyError text, after sending), and then exactly one `email_sent` activity is logged and the provider's result returned; a provider failure surfaces with its text |
| GenerateContract.NormalizeIsFilterThenProject | app/services/generate_contract.py:78-97 | the collecting loop equals "keep the rows with truthy dict metadata, then project each": one conversation per usable row, in input order, none for other rows |
| GenerateContract.NormalizeEmpty | app/services/generate_contract.py:79-101 | no conversation is collected iff no fetched row has usable metadata |
| GenerateContract.GetConversationData | app/services/generate_contract.py:50-112 | an id shorter than 10 characters fails with 400 before the fetch; an empty fetch fails with 404 "No conversations found…"; a fetch with no usable row fails with 404 "No valid email conversations found"; it succeeds exactly otherwise, with the filtered and projected conversations |
| GenerateContract.JoinAppend | app/services/generate_contract.py:182 | joining two non-empty runs of entries puts exactly one blank-line separator between them |
| GenerateContract.PrepareContractPrompt | app/services/generate_contract.py:164-206 | the prompt is the fixed header, the joined entries of the sorted conversations and the fixed instruction list, or the fixed error text when the timestamps cannot be compared |
| GenerateContract.SummarySpec | app/services/generate_contract.py:166-182 | the summary has one entry per conversation, its conversations are a permutation of the input in ascending timestamp order, and equal timestamps keep their input order |
| GenerateContract.PromptIgnoresFetchOrder | app/services/generate_contract.py:164-206 | conversations with pairwise distinct timestamps give the same prompt whatever order they were fetched in |
| GenerateContract.OrderableSameElements | app/services/generate_contract.py:169-206 | whether sorting raises depends only on which conversations there are, not on their order |
| GenerateContract.TwoConversationsInOrder | app/services/generate_contract.py:164-202 | two conversations with ISO timestamps t1 < t2 give the prompt header + entry(t1) + blank line + entry(t2) + instructions, in either arrival order |
| GenerateContract.GenerateContractText | app/services/generate_contract.py:114-162 | the prompt sent is the rendered prompt; the result is the backend's text exactly when it is non-empty; a backend error and an empty answer both become 500 "Groq API error: …" |
| GenerateContract.GenerateContractForCreator | app/services/generate_contract.py:208-231 | every failure, the 400 and both 404s included, becomes a 500 "Failed to generate contract: …"; the backend is asked once, with the prompt for the collected conversations, exactly when there are any; success iff a valid id, some usable conversation and a non-empty answer |
| GenerateContract.WritersWriteNoEmailType | app/routers/creators.py:79-134 | every activity row the program writes, once stored (the call and email logs, the creator-created and status-changed logs, a recorded `Activity`), has no `type` or `type` "email_sent" / "call_made" |
| GenerateContract.WrittenActivitiesAreNeverFetched | app/services/generate_contract.py:64-68 | activity rows whose `type` is absent, "email_sent" or "call_made" are never selected by the `type == "Email"` fetch, so the fetch returns nothing and no conversation is collected from them (the condition under which `GenerateContractForCreator` answers a valid id with the wrapped 404) |

## Left out

- `generate_contract.py:20-37, 127-142, 233-247`. The backend client's set-up, the request it sends (model, system message, temperature) and the connection test are left out. The reply is passed in as an `LlmReply`.
- The call and email providers are not modelled. `make_call` and `send_email` are the `Adapters` methods, and their answers are parameters.
- The datastore client is not modelled. Only what `insert`, `select … eq` and `update … eq` do to a table is modelled. A failing write, such as a network error from `insert`, is not modelled, so `log_activity` and `create_creator` always succeed. A failing read is not modelled either: the fetch in `get_conversation_data` always returns, so its 500 "Error fetching conversation data: …" path (generate_contract.py:108-112) does not arise in the model.
- Identifiers: the datastore issues UUIDs, while the model issues a counter written in decimal. The model proves only that identifiers are fresh and distinct.
- GenerateContract.GetConversationData: takes the fetched rows in table order. The query's `order('created_at', desc=True)` is not modelled. It changes nothing in the prompt except the relative order of conversations with equal timestamps.
- GenerateContract.PrepareContractPrompt: the per-entry `try/except` is not modelled, because formatting an entry cannot raise. The `conv.get(..., 'N/A')` defaults are not modelled either, because every conversation has all four keys.
- Values.Render: `str()` of a nested dict is rendered as the fixed text `{...}`. The model's maps do not keep Python's key order. Lists and floats are not among the modelled values.
- `str(HTTPException)` is taken to be `"<status>: <detail>"`, as recent versions of the web framework print it.
- Schemas.ParseCreatorCreate: reports only the first invalid field, where pydantic reports all of them. It does not model the e-mail syntax check of `EmailStr`, nor pydantic's coercions (for example an integer-like string for `max_duration`).
- Schemas.ParseActivity: `activity_datetime` is a `datetime` in the source and is kept as its ISO text here. Parsing and re-serialising datetimes are not modelled. In the source, `create_activity` hands `activity.dict()`, which still holds a `datetime` object, to the JSON insert. The datastore client is not part of this model and may fail to serialise that object; if so, the real route answers 500 where CreatorsRouter.CreateActivity always stores the record.
- Timestamps: the source calls `datetime.now()` separately for each field. The model uses one instant `now` per request, so, for example, `created_at` and `updated_at` are equal.
- The `GET /creators` route wrapper (creators.py:16-24) is not modelled separately. It is `CreatorStore.GetAllCreators` with the 500 wrapping.
- The request's `from_email` is parsed but, as in the source, never used.
- Logging, `async`/`await` and concurrency between requests are left out.
