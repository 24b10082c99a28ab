/**
 * The Monday.com export: the configuration check, the board item's name and
 * column values built from a lead, and the classification of the GraphQL
 * reply. The HTTP exchange is an input (`HttpReply`); nothing is sent.
 */
module Monday {
  import opened Common

  /** The two environment settings; `None` when the variable is unset. */
  datatype Config = Config(apiToken: Option<string>, boardId: Option<string>)

  /** Python truthiness of an optional string. */
  predicate Truthy(v: Option<string>)
  {
    v.Some? && v.value != ""
  }

  /** `is_configured`: both settings present and non-empty. */
  function IsConfigured(config: Config): (r: bool)
    ensures r <==> && config.apiToken.Some? && |config.apiToken.value| > 0
                   && config.boardId.Some? && |config.boardId.value| > 0
  {
    Truthy(config.apiToken) && Truthy(config.boardId)
  }

  /** A lead or session dictionary: each key with a string or `None`. */
  type Record = map<string, Option<string>>

  /** `d.get(key, default)`. */
  function Get(d: Record, key: string, default: Option<string>): Option<string>
  {
    if key in d then d[key] else default
  }

  /** Python's `str()` of an optional string inside an f-string. */
  function Show(v: Option<string>): string
  {
    match v
    case Some(s) => s
    case None => "None"
  }

  /** `_format_item_name`: `None` is a possible result when `full_name` holds `None`. */
  function FormatItemName(lead: Record): Option<string>
  {
    var name := Get(lead, "full_name", Some("Unknown"));
    var company := Get(lead, "company_name", Some(""));
    if Truthy(company) then Some(Show(name) + " - " + company.value) else name
  }

  /**
   * The item name is "name - company" when the company is non-empty and the
   * bare name otherwise; "Unknown" replaces the name only when the key is
   * absent, and a `None` name is printed as "None" or passed on as `None`.
   */
  lemma ItemNameCases(lead: Record)
    ensures Truthy(Get(lead, "company_name", None)) && "full_name" in lead && lead["full_name"].Some? ==>
              FormatItemName(lead) == Some(lead["full_name"].value + " - " + lead["company_name"].value)
    ensures Truthy(Get(lead, "company_name", None)) && "full_name" !in lead ==>
              FormatItemName(lead) == Some("Unknown - " + lead["company_name"].value)
    ensures Truthy(Get(lead, "company_name", None)) && "full_name" in lead && lead["full_name"].None? ==>
              FormatItemName(lead) == Some("None - " + lead["company_name"].value)
    ensures !Truthy(Get(lead, "company_name", None)) ==>
              FormatItemName(lead) == if "full_name" in lead then lead["full_name"] else Some("Unknown")
  {
    if Truthy(Get(lead, "company_name", None)) {
      var company := lead["company_name"].value;
      assert Show(Some("Unknown")) + " - " + company == "Unknown - " + company;
      assert Show(None) + " - " + company == "None - " + company;
    }
  }

  /** The board columns the builder can write. */
  datatype Column =
    | EmailColumn | PhoneColumn | CompanyColumn | AiInterestColumn | AiImplementationColumn
    | BudgetColumn | TimelineColumn | ChallengesColumn | GoalsColumn
    | SessionIdColumn | CompletionDateColumn | SourceColumn | StatusColumn

  /** The key under which a column is sent to the board. */
  function ColumnKey(c: Column): string
  {
    match c
    case EmailColumn => "email"
    case PhoneColumn => "phone"
    case CompanyColumn => "company"
    case AiInterestColumn => "ai_interest"
    case AiImplementationColumn => "ai_implementation"
    case BudgetColumn => "budget"
    case TimelineColumn => "timeline"
    case ChallengesColumn => "challenges"
    case GoalsColumn => "goals"
    case SessionIdColumn => "session_id"
    case CompletionDateColumn => "completion_date"
    case SourceColumn => "source"
    case StatusColumn => "status"
  }

  /** Every column key the builder can write. */
  const ColumnKeys: set<string> := {
    "email", "phone", "company", "ai_interest", "ai_implementation", "budget",
    "timeline", "challenges", "goals", "session_id", "completion_date", "source", "status"
  }

  /** The column sent under a key, if any. */
  function ColumnOfKey(key: string): Option<Column>
  {
    if key == "email" then Some(EmailColumn)
    else if key == "phone" then Some(PhoneColumn)
    else if key == "company" then Some(CompanyColumn)
    else if key == "ai_interest" then Some(AiInterestColumn)
    else if key == "ai_implementation" then Some(AiImplementationColumn)
    else if key == "budget" then Some(BudgetColumn)
    else if key == "timeline" then Some(TimelineColumn)
    else if key == "challenges" then Some(ChallengesColumn)
    else if key == "goals" then Some(GoalsColumn)
    else if key == "session_id" then Some(SessionIdColumn)
    else if key == "completion_date" then Some(CompletionDateColumn)
    else if key == "source" then Some(SourceColumn)
    else if key == "status" then Some(StatusColumn)
    else None
  }

  /**
   * Every column is sent under a key of the fixed key set, and the key
   * identifies the column, so distinct columns never share a key.
   */
  lemma ColumnKeyRoundTrip(c: Column)
    ensures ColumnKey(c) in ColumnKeys
    ensures ColumnOfKey(ColumnKey(c)) == Some(c)
    ensures forall d :: ColumnKey(d) == ColumnKey(c) ==> d == c
  {
    forall d | ColumnKey(d) == ColumnKey(c)
      ensures d == c
    {
      assert ColumnOfKey(ColumnKey(d)) == Some(d);
    }
  }

  /** The lead columns: each lead key and the board column it is written to. */
  const LeadColumns: seq<(string, Column)> := [
    ("email", EmailColumn),
    ("phone_number", PhoneColumn),
    ("company_name", CompanyColumn),
    ("ai_interest_reason", AiInterestColumn),
    ("ai_implementation_known", AiImplementationColumn),
    ("ai_budget_allocated", BudgetColumn),
    ("ai_implementation_timeline", TimelineColumn),
    ("business_challenges", ChallengesColumn),
    ("business_goals_6_12m", GoalsColumn)
  ]

  const SourceValue := "Platform 5ive Chat Widget"
  const StatusValue := "New Lead"

  /** Column `column` holds the value of `d[key]` exactly when that value is truthy. */
  predicate ColumnCopied(columns: map<Column, string>, d: Record, key: string, column: Column)
  {
    && (column in columns <==> Truthy(Get(d, key, None)))
    && (column in columns ==> Some(columns[column]) == Get(d, key, None))
  }

  /** One `if d.get(key): columns[column] = d[key]` step of the builder. */
  function CopyIfTruthy(columns: map<Column, string>, d: Record, key: string, column: Column): map<Column, string>
  {
    if Truthy(Get(d, key, None)) then columns[column := d[key].value] else columns
  }

  /** The guarded copies of a table of (key, column) pairs, applied in table order to an empty map. */
  function CopyColumns(d: Record, table: seq<(string, Column)>): map<Column, string>
    decreases |table|
  {
    if table == [] then map[]
    else
      var last := table[|table| - 1];
      CopyIfTruthy(CopyColumns(d, table[..|table| - 1]), d, last.0, last.1)
  }

  /** Copying one more table entry is one more guarded copy. */
  lemma CopyColumnsStep(d: Record, table: seq<(string, Column)>, k: nat)
    requires 0 < k <= |table|
    ensures CopyColumns(d, table[..k]) == CopyIfTruthy(CopyColumns(d, table[..k - 1]), d, table[k - 1].0, table[k - 1].1)
  {
    assert table[..k][..k - 1] == table[..k - 1];
  }

  /** No column appears twice in a table. */
  predicate DistinctColumns(table: seq<(string, Column)>)
  {
    forall i, j :: 0 <= i < j < |table| ==> table[i].1 != table[j].1
  }

  /**
   * With distinct columns, each column of the table holds its key's value
   * exactly when that value is truthy, and no other column is written.
   */
  lemma {:induction false} CopyColumnsSpec(d: Record, table: seq<(string, Column)>)
    requires DistinctColumns(table)
    ensures forall i :: 0 <= i < |table| ==> ColumnCopied(CopyColumns(d, table), d, table[i].0, table[i].1)
    ensures forall c :: c in CopyColumns(d, table) ==> exists i :: 0 <= i < |table| && table[i].1 == c
    decreases |table|
  {
    if table != [] {
      var n := |table| - 1;
      var front := table[..n];
      assert DistinctColumns(front) by {
        forall i, j | 0 <= i < j < |front|
          ensures front[i].1 != front[j].1
        {
          assert front[i] == table[i] && front[j] == table[j];
        }
      }
      CopyColumnsSpec(d, front);
      var before := CopyColumns(d, front);
      var after := CopyColumns(d, table);
      assert after == CopyIfTruthy(before, d, table[n].0, table[n].1);
      forall i | 0 <= i < |table|
        ensures ColumnCopied(after, d, table[i].0, table[i].1)
      {
        if i < n {
          assert front[i] == table[i];
          assert table[i].1 != table[n].1;
          assert ColumnCopied(before, d, front[i].0, front[i].1);
        }
      }
      forall c | c in after
        ensures exists i :: 0 <= i < |table| && table[i].1 == c
      {
        if c != table[n].1 {
          assert c in before;
          var i :| 0 <= i < |front| && front[i].1 == c;
          assert table[i].1 == c;
        }
      }
    }
  }

  /** The column values `_prepare_column_values` returns, leaving out the completion date. */
  function ColumnValues(lead: Record, session: Record): map<Column, string>
  {
    CopyIfTruthy(CopyColumns(lead, LeadColumns), session, "session_id", SessionIdColumn)
      [SourceColumn := SourceValue][StatusColumn := StatusValue]
  }

  /**
   * A lead column is present exactly when its lead value is truthy and then
   * holds that value; the session id likewise; source and status are always
   * present; nothing else is written.
   */
  lemma ColumnValuesSpec(lead: Record, session: Record)
    ensures forall i :: 0 <= i < |LeadColumns| ==> ColumnCopied(ColumnValues(lead, session), lead, LeadColumns[i].0, LeadColumns[i].1)
    ensures ColumnCopied(ColumnValues(lead, session), session, "session_id", SessionIdColumn)
    ensures SourceColumn in ColumnValues(lead, session) && ColumnValues(lead, session)[SourceColumn] == SourceValue
    ensures StatusColumn in ColumnValues(lead, session) && ColumnValues(lead, session)[StatusColumn] == StatusValue
    ensures forall c :: c in ColumnValues(lead, session) ==>
              c in {SessionIdColumn, SourceColumn, StatusColumn} || exists i :: 0 <= i < |LeadColumns| && LeadColumns[i].1 == c
    ensures forall c :: c in ColumnValues(lead, session) ==> ColumnKey(c) in ColumnKeys
  {
    CopyColumnsSpec(lead, LeadColumns);
    var copied := CopyColumns(lead, LeadColumns);
    forall i | 0 <= i < |LeadColumns|
      ensures LeadColumns[i].1 !in {SessionIdColumn, SourceColumn, StatusColumn}
    {
    }
    forall c | c in ColumnValues(lead, session)
      ensures ColumnKey(c) in ColumnKeys
    {
      ColumnKeyRoundTrip(c);
    }
  }

  /**
   * `_prepare_column_values` (without the completion date): the guarded
   * copies in the source's order, then the two constant columns.
   */
  method PrepareColumnValues(lead: Record, session: Record) returns (columns: map<Column, string>)
    ensures columns == ColumnValues(lead, session)
  {
    columns := map[];
    columns := CopyIfTruthy(columns, lead, "email", EmailColumn);
    CopyColumnsStep(lead, LeadColumns, 1);
    assert columns == CopyColumns(lead, LeadColumns[..1]);
    columns := CopyIfTruthy(columns, lead, "phone_number", PhoneColumn);
    CopyColumnsStep(lead, LeadColumns, 2);
    assert columns == CopyColumns(lead, LeadColumns[..2]);
    columns := CopyIfTruthy(columns, lead, "company_name", CompanyColumn);
    CopyColumnsStep(lead, LeadColumns, 3);
    assert columns == CopyColumns(lead, LeadColumns[..3]);
    columns := CopyIfTruthy(columns, lead, "ai_interest_reason", AiInterestColumn);
    CopyColumnsStep(lead, LeadColumns, 4);
    assert columns == CopyColumns(lead, LeadColumns[..4]);
    columns := CopyIfTruthy(columns, lead, "ai_implementation_known", AiImplementationColumn);
    CopyColumnsStep(lead, LeadColumns, 5);
    assert columns == CopyColumns(lead, LeadColumns[..5]);
    columns := CopyIfTruthy(columns, lead, "ai_budget_allocated", BudgetColumn);
    CopyColumnsStep(lead, LeadColumns, 6);
    assert columns == CopyColumns(lead, LeadColumns[..6]);
    columns := CopyIfTruthy(columns, lead, "ai_implementation_timeline", TimelineColumn);
    CopyColumnsStep(lead, LeadColumns, 7);
    assert columns == CopyColumns(lead, LeadColumns[..7]);
    columns := CopyIfTruthy(columns, lead, "business_challenges", ChallengesColumn);
    CopyColumnsStep(lead, LeadColumns, 8);
    assert columns == CopyColumns(lead, LeadColumns[..8]);
    columns := CopyIfTruthy(columns, lead, "business_goals_6_12m", GoalsColumn);
    CopyColumnsStep(lead, LeadColumns, 9);
    assert LeadColumns[..9] == LeadColumns;
    assert columns == CopyColumns(lead, LeadColumns);
    columns := CopyIfTruthy(columns, session, "session_id", SessionIdColumn);
    columns := columns[SourceColumn := SourceValue];
    columns := columns[StatusColumn := StatusValue];
  }

  //--------------------------------------------------------------------------
  // Requests and replies
  //--------------------------------------------------------------------------

  /** A decoded JSON value. */
  datatype Json = Null | Bool(b: bool) | Num(n: int) | Str(s: string) | Arr(items: seq<Json>) | Obj(members: map<string, Json>)

  /** The request body: the query, and the variables when they are non-empty. */
  datatype Payload = Payload(query: string, variables: Option<map<string, Json>>)

  /**
   * What the HTTP exchange produced: a transport failure, or a status code and
   * a body that either decodes to a JSON object or does not decode.
   */
  datatype HttpReply = TransportError | Reply(status: int, body: Option<map<string, Json>>)

  /** What `_make_request` sends (if anything) and returns. */
  datatype RequestOutcome = RequestOutcome(sent: Option<Payload>, result: Option<map<string, Json>>)

  /** `_make_request`: the configuration guard, then the reply classification. */
  function MakeRequest(config: Config, query: string, variables: map<string, Json>, reply: HttpReply): RequestOutcome
  {
    if !IsConfigured(config) then RequestOutcome(None, None)
    else
      var payload := Payload(query, if variables != map[] then Some(variables) else None);
      var result :=
        match reply
        case TransportError => None
        case Reply(status, body) =>
          if status != 200 then None
          else if body.None? then None
          else if "errors" in body.value then None
          else body;
      RequestOutcome(Some(payload), result)
  }

  /**
   * Nothing is sent without configuration; a reply is accepted exactly when
   * it has status 200 and a decodable body without `errors`, and the accepted
   * body is returned unchanged.
   */
  lemma RequestClassification(config: Config, query: string, variables: map<string, Json>, reply: HttpReply)
    ensures !IsConfigured(config) ==> MakeRequest(config, query, variables, reply) == RequestOutcome(None, None)
    ensures MakeRequest(config, query, variables, reply).sent.Some? <==> IsConfigured(config)
    ensures MakeRequest(config, query, variables, reply).sent.Some? ==>
              MakeRequest(config, query, variables, reply).sent.value.query == query
    ensures MakeRequest(config, query, variables, reply).sent.Some? ==>
              MakeRequest(config, query, variables, reply).sent.value.variables ==
                if variables != map[] then Some(variables) else None
    ensures MakeRequest(config, query, variables, reply).result.Some? <==>
              && IsConfigured(config)
              && reply.Reply? && reply.status == 200 && reply.body.Some?
              && "errors" !in reply.body.value
    ensures MakeRequest(config, query, variables, reply).result.Some? ==>
              MakeRequest(config, query, variables, reply).result == reply.body
  {
  }

  /** The `create_item` member of an accepted reply, when `data` is an object holding one. */
  function CreatedItem(result: Option<map<string, Json>>): Option<Json>
  {
    if result.Some? && result.value != map[] && "data" in result.value
       && result.value["data"].Obj? && "create_item" in result.value["data"].members
    then Some(result.value["data"].members["create_item"])
    else None
  }

  /**
   * The created item of a request: present exactly when the reply is accepted
   * and its `data` object holds `create_item`, and then that member.
   */
  lemma AcceptedItem(config: Config, query: string, variables: map<string, Json>, reply: HttpReply)
    ensures CreatedItem(MakeRequest(config, query, variables, reply).result).Some? <==>
              && IsConfigured(config)
              && reply.Reply? && reply.status == 200 && reply.body.Some?
              && "errors" !in reply.body.value
              && "data" in reply.body.value
              && reply.body.value["data"].Obj?
              && "create_item" in reply.body.value["data"].members
    ensures CreatedItem(MakeRequest(config, query, variables, reply).result).Some? ==>
              CreatedItem(MakeRequest(config, query, variables, reply).result).value ==
                reply.body.value["data"].members["create_item"]
  {
    RequestClassification(config, query, variables, reply);
  }

  /** The variables of the item mutation: board, item name (`null` when it is `None`) and column values. */
  function ItemVariables(boardId: string, itemName: Option<string>, columns: map<Column, string>): map<string, Json>
  {
    map[
      "boardId" := Str(boardId),
      "itemName" := if itemName.Some? then Str(itemName.value) else Null,
      "columnValues" := Obj(ColumnsJson(columns))
    ]
  }

  /**
   * `create_lead_item`: without configuration nothing is built or sent;
   * otherwise the mutation is sent with the board id, the formatted name and
   * the prepared columns, and the created item is the reply's `data.create_item`.
   */
  method CreateLeadItem(config: Config, lead: Record, session: Record, reply: HttpReply)
    returns (sent: Option<Payload>, item: Option<Json>)
    ensures sent.Some? <==> IsConfigured(config)
    ensures sent.Some? ==> sent.value.query == CreateItemMutation
    ensures sent.Some? ==>
              sent.value.variables == Some(ItemVariables(config.boardId.value, FormatItemName(lead), ColumnValues(lead, session)))
    ensures item.Some? <==>
              && IsConfigured(config)
              && reply.Reply? && reply.status == 200 && reply.body.Some?
              && "errors" !in reply.body.value
              && "data" in reply.body.value
              && reply.body.value["data"].Obj?
              && "create_item" in reply.body.value["data"].members
    ensures item.Some? ==> item.value == reply.body.value["data"].members["create_item"]
  {
    if !IsConfigured(config) {
      return None, None;
    }
    var itemName := FormatItemName(lead);
    var columns := PrepareColumnValues(lead, session);
    var variables := ItemVariables(config.boardId.value, itemName, columns);
    assert "boardId" in variables;
    var outcome := MakeRequest(config, CreateItemMutation, variables, reply);
    RequestClassification(config, CreateItemMutation, variables, reply);
    AcceptedItem(config, CreateItemMutation, variables, reply);
    sent := outcome.sent;
    item := CreatedItem(outcome.result);
  }

  /** The column values keyed by their board keys, as sent in the request. */
  function ColumnsJson(columns: map<Column, string>): map<string, Json>
  {
    map k | k in ColumnKeys && ColumnOfKey(k).Some? && ColumnOfKey(k).value in columns ::
      Str(columns[ColumnOfKey(k).value])
  }

  /** Each written column is sent under its own key with its value, and nothing else is sent. */
  lemma ColumnsJsonKeys(columns: map<Column, string>)
    ensures forall c :: c in columns ==>
              ColumnKey(c) in ColumnsJson(columns) && ColumnsJson(columns)[ColumnKey(c)] == Str(columns[c])
    ensures forall k :: k in ColumnsJson(columns) ==> ColumnOfKey(k).Some? && ColumnOfKey(k).value in columns
  {
    forall c | c in columns
      ensures ColumnKey(c) in ColumnsJson(columns) && ColumnsJson(columns)[ColumnKey(c)] == Str(columns[c])
    {
      ColumnKeyRoundTrip(c);
    }
  }

  /** The GraphQL mutation text; its content is not interpreted by the model. */
  const CreateItemMutation := "mutation ($boardId: Int!, $itemName: String!, $columnValues: JSON) { create_item }"
}
