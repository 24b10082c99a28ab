# Platform 5ive chat back end: lead handling, Monday.com export, session clean-up and input schemas

This project is a Dafny model of the decision logic behind the Platform 5ive
chat back end. The Flask, database and vendor plumbing around that logic is
not modelled.

- **Lead extraction** (`lead_extractor.dfy`, module `LeadExtractor`):
  - a session's stored chat messages become a tagged transcript for the external analyser;
  - the analyser's JSON answer is cleaned;
  - the cleaned data is merged fill-only into the session's lead, or a new lead is created when a full name was extracted.

  The analyser is a function parameter. The lead lookup is an `Option<Lead>`, and the database write is a returned `LeadWrite` value.
- **Monday.com export** (`monday_service.dfy`, module `Monday`):
  - the configuration check;
  - the board item's name;
  - the column values, where a column is written only for a truthy source value, and the source and status columns are always written;
  - the classification of the GraphQL reply.

  The HTTP exchange is an input value (`HttpReply`).
- **Session clean-up** (`session_cleanup.dfy`, module `SessionCleanup`):
  - the selection of recent sessions whose lead still holds placeholder data and that have more than one message;
  - the loop that re-runs the extractor on them and counts the calls that returned and the calls that succeeded.

  The database tables are values: the sessions in query order, a map from session id to lead, and a map from session id to message count. The extractor call is a function parameter.
- **Input schemas** (`schemas.dfy`, module `Schemas`):
  - a generic load function holding the validation library's rules: unknown and dump-only keys are rejected, required keys must be present, `null` is accepted only where allowed, kind and validator checks apply, and defaults are filled in;
  - the five schemas as field tables;
  - lemmas that state each schema's defaults, bounds, choices, required fields and dump-only fields.

`common.dfy` (module `Common`) holds `Option`, Python's `sep.join` and `str.split` for one separator, and their round trip.

Each imperative source loop is a Dafny method with a loop: the transcript builder, the lead update and creation loops, the session selection loop and the counter loop. Each method is proved equal to a specification function, and the properties the source promises are lemmas about those functions. The pure parts are functions with lemmas: cleaning, item name, reply classification and schemas.

## Model

| member | source | states |
|---|---|---|
| LeadExtractor.LineClassification | ai_lead_extractor.py:61-70 | a line starts with "AI AGENT" iff the tag is "ai"; it starts with "AI AGENT ASKS: " iff the message is an AI question, and is then that marker followed by the text; it starts with "USER RESPONDS: " iff it is a "user" message right after an AI question; a tag other than "ai" or "user" always gives "USER: " + text |
| LeadExtractor.LineText | ai_lead_extractor.py:65-70 | every line ends with its message text verbatim, and contains a newline iff the text does |
| LeadExtractor.FormatConversation | ai_lead_extractor.py:57-72 | the loop's result is the per-message lines joined with "\n", in message order; it is empty iff there are no messages |
| LeadExtractor.TranscriptLines | ai_lead_extractor.py:59-72 | for a non-empty message list in which no message text holds a newline, splitting the transcript at newlines gives back exactly one line per message, in order (the empty list is excluded, because the empty transcript splits into one empty line) |
| Common.SplitJoin | ai_lead_extractor.py:72 | joining lines that do not contain the separator and splitting at it again gives back the same lines |
| LeadExtractor.Clean | ai_lead_extractor.py:149 | a key is kept iff its extracted value is neither null nor "", and kept values are unchanged |
| LeadExtractor.FillOnly | ai_lead_extractor.py:155-171 | the merge keeps the attribute set; it changes only placeholder values (null, "", "Unknown", and also "Web Chat User" for full_name); it fills every placeholder the cleaned data has a value for; it reports exactly those attributes as updated; keys that are not attributes have no effect |
| LeadExtractor.MergeIdempotent | ai_lead_extractor.py:158-171 | merging the same data a second time leaves the values of the first merge; the second merge updates nothing when no cleaned value is itself a placeholder |
| LeadExtractor.PlaceholderValueIsUpdatedAgain | ai_lead_extractor.py:162-171 | a full_name of "Unknown" written by one merge is reported as updated again by the next |
| LeadExtractor.ConfirmedNameIsKept | ai_lead_extractor.py:161-171 | a confirmed full name ("Jane Doe") is not overwritten by a later extraction ("John Smith"), and nothing is reported updated |
| LeadExtractor.MergeLead | ai_lead_extractor.py:155-178 | the update loop yields the attribute values `MergedFields` and exactly the updated set `UpdatedFields` (whose fill-only properties `FillOnly` proves); updated_at becomes now iff something was updated; session id and created_at are unchanged |
| LeadExtractor.CreateLead | ai_lead_extractor.py:181-194 | the new lead has all ten attributes, each the cleaned value when one exists and NULL otherwise, with both timestamps now |
| LeadExtractor.ProcessLeadData | ai_lead_extractor.py:142-198 | the write is `LeadWriteFor` of the cleaned data, that is: nothing is written when cleaning leaves nothing; an existing lead is never re-inserted, and is written back iff the merge updated some attribute, carrying the merged values and updated_at = now; without a lead, a new one for the session is inserted iff a full_name was extracted, carrying exactly the cleaned attributes |
| LeadExtractor.ExtractLeadInformation | ai_lead_extractor.py:23-55 | the analyser is called, on the formatted transcript, iff there are messages; the result is the analyser's answer iff that answer is non-empty, and is None otherwise; with a result, the write is the one `_process_lead_data` requests for its cleaned data (`LeadWriteFor`), and without one nothing is written; a session that already has a lead never gets a second one, and an inserted lead belongs to the session |
| LeadExtractor.ProcessSessionForLeadExtraction | ai_lead_extractor.py:204-225 | success iff there are messages and the analyser's answer is non-empty; on success the write is `LeadWriteFor` of the cleaned answer, and without success nothing is written; an existing lead is never re-inserted, and an inserted lead belongs to the session |
| Monday.IsConfigured | monday_service.py:31-33 | configured iff both the API token and the board id are set and non-empty |
| Monday.ItemNameCases | monday_service.py:164-171 | the name is "name - company" when the company is non-empty and the bare name otherwise; "Unknown" is used only when full_name is absent; a null full_name prints as "None" before a company, and is returned as None without one |
| Monday.ColumnKeyRoundTrip | monday_service.py:183-235 | every board column has a distinct key among the thirteen the builder writes, and the key determines the column |
| Monday.CopyColumnsSpec | monday_service.py:183-212 | for a table with distinct columns, each column is present iff its source value is truthy, and then holds that value; no other column is written |
| Monday.ColumnValuesSpec | monday_service.py:173-237 | each of the nine lead columns is present iff its lead value is truthy, and then holds that value; session_id likewise from the session; source ("Platform 5ive Chat Widget") and status ("New Lead") are always present; nothing else is written |
| Monday.PrepareColumnValues | monday_service.py:181-237 | the successive guarded assignments build exactly `ColumnValues(lead, session)`, whose contents `ColumnValuesSpec` states |
| Monday.RequestClassification | monday_service.py:35-75 | nothing is sent without configuration; a configured request sends the query, with the variables only when they are non-empty; a reply is accepted iff it has status 200 and a decodable body without an "errors" key; the accepted body is returned unchanged |
| Monday.ColumnsJsonKeys | monday_service.py:147-151 | each written column is sent under its own key with its value, and no other key is sent |
| Monday.AcceptedItem | monday_service.py:154-162 | a created item is obtained iff the reply is accepted and its data object holds create_item, and it is that member |
| Monday.CreateLeadItem | monday_service.py:107-162 | the mutation is sent iff the service is configured, with the board id, the formatted item name (null when it is None) and the prepared columns under their board keys; the created item is returned iff the reply is accepted and its data object holds create_item, and it is that member |
| SessionCleanup.SelectionMembers | session_cleanup.py:28-55 | a session id is selected iff some session with that id needs processing: its last message is at most 24 hours old, it has a lead, the lead has an unknown name or neither company nor email, and it has more than one message |
| SessionCleanup.SelectionAppend | session_cleanup.py:34-55 | selection preserves input order: the selection of a concatenation is the concatenation of the selections |
| SessionCleanup.FindSessionsNeedingProcessing | session_cleanup.py:17-55 | the loop returns exactly the selection of the input sessions, in input order |
| SessionCleanup.CountBounds | session_cleanup.py:69-84 | successes ≤ calls that returned ≤ calls made; all calls returned iff none raised |
| SessionCleanup.ProcessMissedSessions | session_cleanup.py:57-84 | the extractor is called once per selected session, in order, and on no session when the selection is empty; processed_count counts the calls that returned and success_count those that returned true; success_count ≤ processed_count ≤ number of calls |
| Schemas.LoadSucceeds | schemas.py:6-79 | a load succeeds iff every input key is loadable with an accepted value and every required field is present; a rejection names at least one key; loaded keys are declared fields |
| Schemas.FieldRule | schemas.py:6-79 | a loadable field is in error iff its present value is rejected, or it is absent and required; it is loaded iff present or defaulted, with the given value or the default |
| Schemas.RequiredPresent | schemas.py:8-12 | a required field is present in every input that loads |
| Schemas.NotLoadable | schemas.py:7-13 | a dump-only or undeclared key is never loaded, and is an error when given |
| Schemas.QueryPagination | schemas.py:19-20 | in the error filter, and identically in the session filter at lines 78-79: page is in error iff given and not an integer ≥ 1, and defaults to 1; per_page is in error iff given and not an integer in [1, 100], and defaults to 20; a successful load carries both in range |
| Schemas.SessionStatus | schemas.py:31 | on creation, status is in error iff given and not active, resolved or escalated, and defaults to "active" |
| Schemas.UpdateStatus | schemas.py:52 | on update, status is in error iff given and not active, resolved or escalated; there is no default |
| Schemas.FilterStatus | schemas.py:69 | the session filter's status is in error iff given and not among the session statuses plus "archived" and "complete" |
| Schemas.QaStatus | schemas.py:40 | on creation, qa_status is in error iff given and not one of unchecked, passed, issue, fixed, archived, and defaults to "unchecked" |
| Schemas.UpdateQaStatus | schemas.py:60-77 | on update and in the session filter, qa_status obeys the same five choices and has no default |
| Schemas.MessageCount | schemas.py:29 | on creation, message_count is in error iff given and not an integer ≥ 1, and defaults to 1 |
| Schemas.UpdateMessageCount | schemas.py:56 | on update, message_count is in error iff given and not an integer ≥ 1; there is no default |
| Schemas.ErrorLengths | schemas.py:9-12 | workflow is required, with 1 to 255 characters; error_message is required and non-empty; url (at most 500) and node (at most 255) may also be null |
| Schemas.SessionIdLength | schemas.py:24 | session_id is required, with 1 to 100 characters |
| Schemas.CustomerNameLength | schemas.py:25 | customer_name has at most 255 characters, or is null |
| Schemas.ContactIdLength | schemas.py:26 | contact_id has at most 255 characters, or is null |
| Schemas.ErrorRequired | schemas.py:8-12 | a workflow error loads only when timestamp, workflow and error_message are present |
| Schemas.SessionRequired | schemas.py:24-28 | a new session loads only when session_id, conversation_start and last_message_time are present |
| Schemas.DumpOnlyFields | schemas.py:7-49 | the dump-only columns (id and created_at of an error; id, archived, archived_at, created_at, updated_at, qa_status_updated_at, qa_notes_updated_at and dev_feedback_at of a session) are never loaded, and giving one rejects the input |

## Left out

- The OpenAI call and its prompt (ai_lead_extractor.py:74-140) are external. Their answer is the `analyse` parameter, and a failed or unparsable answer is `None`.
- Database access is represented by values:
  - the message query and its ordering;
  - the lead lookup;
  - commits, rollbacks and sessions.
- The exception handlers of `extract_lead_information`, `_process_lead_data` and `process_session_for_lead_extraction` are not modelled. No operation of the model can fail with an exception.
- Logging everywhere is left out.
- Extracted values other than strings and `null` are not modelled: booleans, numbers, lists and objects. A boolean such as `False` is what the prompt asks for in `ai_budget_allocated`, and it survives the clean filter.
- LeadExtractor.FormatConversation: message texts are strings. A NULL `messageStr` would be rendered "USER: None", or would raise on the `"?" in` test for an AI message.
- LeadExtractor.CreateLead: the lead table's declaration is not part of this model. The attributes a new lead is not given are assumed to be NULL.
- LeadExtractor.MergeLead: only the ten lead attributes can be written. An extracted key naming a bookkeeping column (`id`, `session_id`, `created_at`, `updated_at`) passes the source's `hasattr` test, is tested like an attribute, and is written only when its current value is a placeholder (in practice only a NULL `updated_at`); the model ignores it.
- LeadExtractor.CreateLead: bookkeeping columns are ignored in the same way. `created_at` and `updated_at` receive one `now`, whereas the source reads the clock twice.
- LeadExtractor.MergeIdempotent: "a repeated merge updates nothing" is stated only when no cleaned value is itself a placeholder. `PlaceholderValueIsUpdatedAgain` shows that the unconditional statement does not hold.
- The Monday.com HTTP exchange is an input:
  - headers, the timeout and the GraphQL strings are not interpreted;
  - `get_board_structure` and `test_connection` are not modelled;
  - a transport or decoding failure is one reply value each.
- The completion date (monday_service.py:218-229) depends on ISO date parsing and formatting. It is never written by the model.
- Monday.PrepareColumnValues: lead and session values are strings or `None` only. The successive assignments are `CopyIfTruthy` steps on a map value rather than in-place dictionary updates.
- Monday.CreateLeadItem: the board id is passed as a string, so the `ValueError` of `int(board_id)` is not modelled. `json.dumps` of the columns is shown as a JSON object (`ColumnsJson`).
- Monday.CreateLeadItem: a `data` member that is not an object counts as failure, whereas the source would apply `in` to it or raise. The `KeyError` the success log can raise on an item without `id` or `name` is not modelled.
- Monday.RequestClassification: a reply body is either an object or undecodable. A body that decodes to an array, string, null or number cannot be represented. On an array or string the source's `'errors' in result` is a membership or substring test, and on null or a number it raises an uncaught TypeError.
- SessionCleanup.FindSessionsNeedingProcessing: the query's recency filter is done by the loop itself. The clock reading is the `now` parameter, in seconds.
- SessionCleanup.ProcessMissedSessions: each extractor call is the `outcome` parameter. Its effect on the database is not modelled. The current extractor catches its own exceptions, so `Raised` stands for the source's `except` branch only.
- Schemas: values arrive already typed. The library's coercions are not modelled: numeric strings to integers, "true"/"false" strings to booleans, ISO strings to date-times (`Time` stands for a parsed date-time).
- Schemas: error messages are reduced to the set of keys in error. Serialisation (dump) is not modelled.
- routes.py, supabase_service.py, models.py, app.py, main.py and create_test_data.py are not part of this model.
