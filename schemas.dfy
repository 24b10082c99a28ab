/**
 * The request validation schemas: each schema is a table of declared fields,
 * and loading an input record either yields the loaded record (present values
 * plus declared defaults) or rejects it with the names of the offending keys.
 * Loading follows the validation library's rules: keys the schema does not
 * declare for input are rejected, a required key must be present, `null` is
 * accepted only where the field allows it, a present value must be of the
 * field's kind and pass its validator, and a default is filled in (without
 * validation) when a key is absent.
 */
module Schemas {
  import opened Common

  /** An input value; `Time` is a date-time that has already been parsed. */
  datatype Value = Null | Bool(b: bool) | Int(i: int) | Str(s: string) | Time(t: int)

  /** The declared type of a field. */
  datatype Kind = StringKind | IntegerKind | BooleanKind | DateTimeKind | RawKind

  /** The validator attached to a field; `Length` and `Range` bounds are inclusive. */
  datatype Validator =
    | NoCheck
    | Length(min: nat, max: Option<nat>)
    | Range(low: int, high: Option<int>)
    | OneOf(choices: set<string>)

  /** A field declaration. */
  datatype Field = Field(
    kind: Kind,
    required: bool := false,
    allowNone: bool := false,
    loadDefault: Option<Value> := None,
    validator: Validator := NoCheck,
    dumpOnly: bool := false)

  /** A schema: field name to declaration. */
  type Schema = map<string, Field>

  /** An input record: key to value. */
  type Input = map<string, Value>

  /** A non-null value of the field's kind. */
  predicate KindAccepts(kind: Kind, v: Value)
  {
    match kind
    case StringKind => v.Str?
    case IntegerKind => v.Int?
    case BooleanKind => v.Bool?
    case DateTimeKind => v.Time?
    case RawKind => true
  }

  /** The value passes the validator. */
  predicate Passes(validator: Validator, v: Value)
  {
    match validator
    case NoCheck => true
    case Length(min, max) => v.Str? && min <= |v.s| && (max.None? || |v.s| <= max.value)
    case Range(low, high) => v.Int? && low <= v.i && (high.None? || v.i <= high.value)
    case OneOf(choices) => v.Str? && v.s in choices
  }

  /** A present value the field rejects. */
  predicate Invalid(f: Field, v: Value)
  {
    if v == Null then !f.allowNone
    else !KindAccepts(f.kind, v) || !Passes(f.validator, v)
  }

  /** The field takes part in loading. */
  predicate Loadable(schema: Schema, k: string)
  {
    k in schema && !schema[k].dumpOnly
  }

  /** The keys in error: unknown or dump-only keys, missing required keys, and rejected values. */
  function Errors(schema: Schema, input: Input): set<string>
  {
    (set k | k in input && !Loadable(schema, k))
    + (set k | k in schema && Loadable(schema, k) && k !in input && schema[k].required)
    + (set k | k in input && Loadable(schema, k) && Invalid(schema[k], input[k]))
  }

  /** The loaded record: every present loadable value, and the default of every absent field that has one. */
  function Output(schema: Schema, input: Input): map<string, Value>
  {
    map k | k in schema && Loadable(schema, k) && (k in input || schema[k].loadDefault.Some?) ::
      if k in input then input[k] else schema[k].loadDefault.value
  }

  /** The result of a load. */
  datatype LoadResult = Loaded(data: map<string, Value>) | Rejected(fields: set<string>)

  /** `schema.load(input)`. */
  function Load(schema: Schema, input: Input): LoadResult
  {
    var errors := Errors(schema, input);
    if errors == {} then Loaded(Output(schema, input)) else Rejected(errors)
  }

  /**
   * A load succeeds exactly when the input has only loadable keys, every
   * required field is present, and every present value is accepted; a
   * rejection names at least one key.
   */
  lemma LoadSucceeds(schema: Schema, input: Input)
    ensures Load(schema, input).Loaded? <==>
              && (forall k :: k in input ==> Loadable(schema, k) && !Invalid(schema[k], input[k]))
              && (forall k :: k in schema && Loadable(schema, k) && schema[k].required ==> k in input)
    ensures Load(schema, input).Rejected? ==> Load(schema, input).fields != {}
    ensures Load(schema, input).Loaded? ==> Load(schema, input).data.Keys <= schema.Keys
  {
    var errors := Errors(schema, input);
    if errors == {} {
      forall k | k in input
        ensures Loadable(schema, k) && !Invalid(schema[k], input[k])
      {
        assert k !in errors;
      }
      forall k | k in schema && Loadable(schema, k) && schema[k].required
        ensures k in input
      {
        assert k !in errors;
      }
    }
  }

  /** How one loadable field behaves: when it is in error, and what the loaded record holds for it. */
  lemma FieldRule(schema: Schema, input: Input, k: string)
    requires Loadable(schema, k)
    ensures k in Errors(schema, input) <==>
              if k in input then Invalid(schema[k], input[k]) else schema[k].required
    ensures k in Output(schema, input) <==> k in input || schema[k].loadDefault.Some?
    ensures k in Output(schema, input) ==>
              Output(schema, input)[k] == if k in input then input[k] else schema[k].loadDefault.value
  {
  }

  /** A required field is present in every input that loads. */
  lemma RequiredPresent(schema: Schema, input: Input, k: string)
    requires Loadable(schema, k) && schema[k].required
    ensures Load(schema, input).Loaded? ==> k in input
  {
    if k !in input {
      assert k in Errors(schema, input);
    }
  }

  /** A dump-only or undeclared key is never loaded, and is an error when given. */
  lemma NotLoadable(schema: Schema, input: Input, k: string)
    requires !Loadable(schema, k)
    ensures k !in Output(schema, input)
    ensures k in input ==> k in Errors(schema, input)
  {
  }

  //--------------------------------------------------------------------------
  // The five schemas
  //--------------------------------------------------------------------------

  /** The statuses a chat session can be created or updated with. */
  const SessionStatuses: set<string> := {"active", "resolved", "escalated"}

  /** The statuses the session list can be filtered by. */
  const QueryStatuses: set<string> := {"active", "resolved", "escalated", "archived", "complete"}

  /** The quality-review statuses. */
  const QaStatuses: set<string> := {"unchecked", "passed", "issue", "fixed", "archived"}

  /** A recorded workflow error. */
  const ErrorSchema: Schema := map[
    "id" := Field(IntegerKind, dumpOnly := true),
    "timestamp" := Field(DateTimeKind, required := true),
    "workflow" := Field(StringKind, required := true, validator := Length(1, Some(255))),
    "url" := Field(StringKind, allowNone := true, validator := Length(0, Some(500))),
    "node" := Field(StringKind, allowNone := true, validator := Length(0, Some(255))),
    "error_message" := Field(StringKind, required := true, validator := Length(1, None)),
    "created_at" := Field(DateTimeKind, dumpOnly := true)
  ]

  /** The error list filter and its pagination. */
  const ErrorQuerySchema: Schema := map[
    "workflow" := Field(StringKind),
    "date_from" := Field(DateTimeKind),
    "date_to" := Field(DateTimeKind),
    "page" := Field(IntegerKind, validator := Range(1, None), loadDefault := Some(Int(1))),
    "per_page" := Field(IntegerKind, validator := Range(1, Some(100)), loadDefault := Some(Int(20)))
  ]

  /** A chat session as created. */
  const ChatSessionSchema: Schema := map[
    "id" := Field(IntegerKind, dumpOnly := true),
    "session_id" := Field(StringKind, required := true, validator := Length(1, Some(100))),
    "customer_name" := Field(StringKind, allowNone := true, validator := Length(0, Some(255))),
    "contact_id" := Field(StringKind, allowNone := true, validator := Length(0, Some(255))),
    "conversation_start" := Field(DateTimeKind, required := true),
    "last_message_time" := Field(DateTimeKind, required := true),
    "message_count" := Field(IntegerKind, loadDefault := Some(Int(1)), validator := Range(1, None)),
    "session_summary" := Field(StringKind, allowNone := true),
    "status" := Field(StringKind, loadDefault := Some(Str("active")), validator := OneOf(SessionStatuses)),
    "ai_engaged" := Field(BooleanKind, loadDefault := Some(Bool(false))),
    "ai_response" := Field(StringKind, allowNone := true),
    "archived" := Field(BooleanKind, dumpOnly := true),
    "archived_at" := Field(DateTimeKind, dumpOnly := true),
    "created_at" := Field(DateTimeKind, dumpOnly := true),
    "updated_at" := Field(DateTimeKind, dumpOnly := true),
    "qa_status" := Field(StringKind, validator := OneOf(QaStatuses), loadDefault := Some(Str("unchecked"))),
    "qa_status_updated_by" := Field(StringKind, allowNone := true),
    "qa_status_updated_at" := Field(DateTimeKind, dumpOnly := true),
    "qa_notes" := Field(StringKind, allowNone := true),
    "qa_notes_updated_at" := Field(DateTimeKind, dumpOnly := true),
    "dev_feedback" := Field(StringKind, allowNone := true),
    "dev_feedback_by" := Field(StringKind, allowNone := true),
    "dev_feedback_at" := Field(DateTimeKind, dumpOnly := true)
  ]

  /** A partial update of a chat session: nothing is required and nothing has a default. */
  const ChatSessionUpdateSchema: Schema := map[
    "status" := Field(StringKind, validator := OneOf(SessionStatuses)),
    "ai_engaged" := Field(BooleanKind),
    "ai_response" := Field(StringKind, allowNone := true),
    "session_summary" := Field(StringKind, allowNone := true),
    "message_count" := Field(IntegerKind, validator := Range(1, None)),
    "last_message_time" := Field(DateTimeKind),
    "qa_status" := Field(StringKind, validator := OneOf(QaStatuses)),
    "qa_status_updated_by" := Field(StringKind, allowNone := true),
    "qa_notes" := Field(StringKind, allowNone := true),
    "dev_feedback" := Field(StringKind, allowNone := true),
    "dev_feedback_by" := Field(StringKind, allowNone := true)
  ]

  /** The session list filter and its pagination (`qa_status` is declared twice, identically). */
  const ChatSessionQuerySchema: Schema := map[
    "status" := Field(StringKind, validator := OneOf(QueryStatuses)),
    "ai_engaged" := Field(BooleanKind),
    "completed" := Field(RawKind),
    "contact_id" := Field(StringKind),
    "session_id" := Field(StringKind),
    "date_from" := Field(DateTimeKind),
    "date_to" := Field(DateTimeKind),
    "qa_status" := Field(StringKind, validator := OneOf(QaStatuses)),
    "page" := Field(IntegerKind, validator := Range(1, None), loadDefault := Some(Int(1))),
    "per_page" := Field(IntegerKind, validator := Range(1, Some(100)), loadDefault := Some(Int(20)))
  ]

  //--------------------------------------------------------------------------
  // Properties of the five schemas
  //--------------------------------------------------------------------------

  /** An integer value within inclusive bounds. */
  predicate IntIn(v: Value, low: int, high: Option<int>)
  {
    v.Int? && low <= v.i && (high.None? || v.i <= high.value)
  }

  /** A string value whose length is within inclusive bounds. */
  predicate LengthIn(v: Value, min: nat, max: Option<nat>)
  {
    v.Str? && min <= |v.s| && (max.None? || |v.s| <= max.value)
  }

  /** A string value among the choices. */
  predicate StrIn(v: Value, choices: set<string>)
  {
    v.Str? && v.s in choices
  }

  /**
   * In both list filters, `page` defaults to 1 and is accepted only when it
   * is an integer of at least 1; `per_page` defaults to 20 and is accepted
   * only when it is an integer from 1 to 100.
   */
  lemma QueryPagination(schema: Schema, input: Input)
    requires schema == ErrorQuerySchema || schema == ChatSessionQuerySchema
    ensures "page" in Errors(schema, input) <==> "page" in input && !IntIn(input["page"], 1, None)
    ensures "per_page" in Errors(schema, input) <==> "per_page" in input && !IntIn(input["per_page"], 1, Some(100))
    ensures Output(schema, input)["page"] == if "page" in input then input["page"] else Int(1)
    ensures Output(schema, input)["per_page"] == if "per_page" in input then input["per_page"] else Int(20)
    ensures Load(schema, input).Loaded? ==>
              && IntIn(Load(schema, input).data["page"], 1, None)
              && IntIn(Load(schema, input).data["per_page"], 1, Some(100))
  {
    FieldRule(schema, input, "page");
    FieldRule(schema, input, "per_page");
  }

  /** A created session's status defaults to "active" and must be active, resolved or escalated. */
  lemma SessionStatus(input: Input)
    ensures "status" in Errors(ChatSessionSchema, input) <==> "status" in input && !StrIn(input["status"], SessionStatuses)
    ensures Output(ChatSessionSchema, input)["status"] == if "status" in input then input["status"] else Str("active")
  {
    FieldRule(ChatSessionSchema, input, "status");
  }

  /** An update may leave the status out, and otherwise obeys the same choices as creation. */
  lemma UpdateStatus(input: Input)
    ensures "status" in Errors(ChatSessionUpdateSchema, input) <==> "status" in input && !StrIn(input["status"], SessionStatuses)
    ensures "status" in Output(ChatSessionUpdateSchema, input) <==> "status" in input
  {
    FieldRule(ChatSessionUpdateSchema, input, "status");
  }

  /** The session list filter accepts the session statuses and also "archived" and "complete". */
  lemma FilterStatus(input: Input)
    ensures "status" in Errors(ChatSessionQuerySchema, input) <==> "status" in input && !StrIn(input["status"], QueryStatuses)
    ensures "status" in Output(ChatSessionQuerySchema, input) <==> "status" in input
    ensures QueryStatuses == SessionStatuses + {"archived", "complete"}
  {
    FieldRule(ChatSessionQuerySchema, input, "status");
  }

  /** A created session's `qa_status` must be one of the five review statuses and defaults to "unchecked". */
  lemma QaStatus(input: Input)
    ensures "qa_status" in Errors(ChatSessionSchema, input) <==> "qa_status" in input && !StrIn(input["qa_status"], QaStatuses)
    ensures Output(ChatSessionSchema, input)["qa_status"] == if "qa_status" in input then input["qa_status"] else Str("unchecked")
  {
    FieldRule(ChatSessionSchema, input, "qa_status");
  }

  /** An update and the session filter accept the same five review statuses, with no default. */
  lemma UpdateQaStatus(input: Input)
    ensures "qa_status" in Errors(ChatSessionUpdateSchema, input) <==> "qa_status" in input && !StrIn(input["qa_status"], QaStatuses)
    ensures "qa_status" in Output(ChatSessionUpdateSchema, input) <==> "qa_status" in input
    ensures "qa_status" in Errors(ChatSessionQuerySchema, input) <==> "qa_status" in input && !StrIn(input["qa_status"], QaStatuses)
    ensures "qa_status" in Output(ChatSessionQuerySchema, input) <==> "qa_status" in input
  {
    FieldRule(ChatSessionUpdateSchema, input, "qa_status");
    FieldRule(ChatSessionQuerySchema, input, "qa_status");
  }

  /** A created session's `message_count` defaults to 1 and must be an integer of at least 1. */
  lemma MessageCount(input: Input)
    ensures "message_count" in Errors(ChatSessionSchema, input) <==> "message_count" in input && !IntIn(input["message_count"], 1, None)
    ensures Output(ChatSessionSchema, input)["message_count"] == if "message_count" in input then input["message_count"] else Int(1)
  {
    FieldRule(ChatSessionSchema, input, "message_count");
  }

  /** An update's `message_count` has no default and must be an integer of at least 1 when given. */
  lemma UpdateMessageCount(input: Input)
    ensures "message_count" in Errors(ChatSessionUpdateSchema, input) <==> "message_count" in input && !IntIn(input["message_count"], 1, None)
    ensures "message_count" in Output(ChatSessionUpdateSchema, input) <==> "message_count" in input
  {
    FieldRule(ChatSessionUpdateSchema, input, "message_count");
  }

  /** The length bounds of the workflow-error fields; `url` and `node` may also be `null`. */
  lemma ErrorLengths(input: Input)
    ensures "workflow" in Errors(ErrorSchema, input) <==> "workflow" !in input || !LengthIn(input["workflow"], 1, Some(255))
    ensures "error_message" in Errors(ErrorSchema, input) <==> "error_message" !in input || !LengthIn(input["error_message"], 1, None)
    ensures "url" in Errors(ErrorSchema, input) <==> "url" in input && input["url"] != Null && !LengthIn(input["url"], 0, Some(500))
    ensures "node" in Errors(ErrorSchema, input) <==> "node" in input && input["node"] != Null && !LengthIn(input["node"], 0, Some(255))
  {
    FieldRule(ErrorSchema, input, "workflow");
    FieldRule(ErrorSchema, input, "error_message");
    FieldRule(ErrorSchema, input, "url");
    FieldRule(ErrorSchema, input, "node");
  }

  /** A session id must be given, with 1 to 100 characters. */
  lemma SessionIdLength(input: Input)
    ensures "session_id" in Errors(ChatSessionSchema, input) <==> "session_id" !in input || !LengthIn(input["session_id"], 1, Some(100))
  {
    FieldRule(ChatSessionSchema, input, "session_id");
  }

  /** A customer name has at most 255 characters, and may be `null`. */
  lemma CustomerNameLength(input: Input)
    ensures "customer_name" in Errors(ChatSessionSchema, input) <==>
              "customer_name" in input && input["customer_name"] != Null && !LengthIn(input["customer_name"], 0, Some(255))
  {
    FieldRule(ChatSessionSchema, input, "customer_name");
  }

  /** A contact id has at most 255 characters, and may be `null`. */
  lemma ContactIdLength(input: Input)
    ensures "contact_id" in Errors(ChatSessionSchema, input) <==>
              "contact_id" in input && input["contact_id"] != Null && !LengthIn(input["contact_id"], 0, Some(255))
  {
    FieldRule(ChatSessionSchema, input, "contact_id");
  }

  /** A workflow error loads only when its timestamp, workflow and message are present. */
  lemma ErrorRequired(input: Input)
    ensures Load(ErrorSchema, input).Loaded? ==> "timestamp" in input && "workflow" in input && "error_message" in input
  {
    RequiredPresent(ErrorSchema, input, "timestamp");
    RequiredPresent(ErrorSchema, input, "workflow");
    RequiredPresent(ErrorSchema, input, "error_message");
  }

  /** A new session loads only when its id, start time and last message time are present. */
  lemma SessionRequired(input: Input)
    ensures Load(ChatSessionSchema, input).Loaded? ==>
              "session_id" in input && "conversation_start" in input && "last_message_time" in input
  {
    RequiredPresent(ChatSessionSchema, input, "session_id");
    RequiredPresent(ChatSessionSchema, input, "conversation_start");
    RequiredPresent(ChatSessionSchema, input, "last_message_time");
  }

  /** The dump-only columns are never loaded, and giving one rejects the input. */
  lemma DumpOnlyFields(input: Input)
    ensures forall k :: k in {"id", "created_at"} ==>
              k !in Output(ErrorSchema, input) && (k in input ==> k in Errors(ErrorSchema, input))
    ensures forall k :: k in {"id", "archived", "archived_at", "created_at", "updated_at",
                              "qa_status_updated_at", "qa_notes_updated_at", "dev_feedback_at"} ==>
              k !in Output(ChatSessionSchema, input) && (k in input ==> k in Errors(ChatSessionSchema, input))
  {
    forall k | k in {"id", "created_at"}
      ensures k !in Output(ErrorSchema, input) && (k in input ==> k in Errors(ErrorSchema, input))
    {
      NotLoadable(ErrorSchema, input, k);
    }
    forall k | k in {"id", "archived", "archived_at", "created_at", "updated_at",
                     "qa_status_updated_at", "qa_notes_updated_at", "dev_feedback_at"}
      ensures k !in Output(ChatSessionSchema, input) && (k in input ==> k in Errors(ChatSessionSchema, input))
    {
      NotLoadable(ChatSessionSchema, input, k);
    }
  }
}
