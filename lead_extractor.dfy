/**
 * Lead handling of the AI lead extractor: the conversation transcript sent to
 * the external analyser, the cleaning of the analyser's answer, and the
 * fill-only merge into (or creation of) the session's lead record.
 *
 * The analyser itself is a parameter (`analyse`), the lead lookup is an
 * `Option<Lead>` and the database write is returned as a `LeadWrite` value.
 */
module LeadExtractor {
  import opened Common

  /** One stored chat message: the speaker tag (`userAi`) and its text. */
  datatype Message = Message(userAi: string, messageStr: string)

  //--------------------------------------------------------------------------
  // Conversation transcript
  //--------------------------------------------------------------------------

  /** An AI message with a question mark is rendered as a question. */
  predicate IsQuestion(m: Message)
  {
    m.userAi == "ai" && '?' in m.messageStr
  }

  /** The role label: only the tag "ai" is the agent, every other tag is the user. */
  function RoleLabel(userAi: string): string
  {
    if userAi == "ai" then "AI AGENT" else "USER"
  }

  /** Message `i` is a user message answering the AI question right before it. */
  predicate AnswersQuestion(messages: seq<Message>, i: nat)
    requires i < |messages|
  {
    messages[i].userAi == "user" && i > 0 && IsQuestion(messages[i - 1])
  }

  /** The transcript line for message `i`. */
  function LineFor(messages: seq<Message>, i: nat): string
    requires i < |messages|
  {
    var m := messages[i];
    if IsQuestion(m) then RoleLabel(m.userAi) + " ASKS: " + m.messageStr
    else if AnswersQuestion(messages, i) then RoleLabel(m.userAi) + " RESPONDS: " + m.messageStr
    else RoleLabel(m.userAi) + ": " + m.messageStr
  }

  /** The transcript lines, one per message, in message order. */
  function Lines(messages: seq<Message>): seq<string>
  {
    seq(|messages|, i requires 0 <= i < |messages| => LineFor(messages, i))
  }

  predicate StartsWith(s: string, prefix: string)
  {
    |prefix| <= |s| && s[..|prefix|] == prefix
  }

  predicate EndsWith(s: string, suffix: string)
  {
    |suffix| <= |s| && s[|s| - |suffix|..] == suffix
  }

  /**
   * How a transcript line can be read back: its label tells the agent from the
   * user, and the ASKS and RESPONDS markers appear exactly in the question and
   * answer cases.
   */
  lemma LineClassification(messages: seq<Message>, i: nat)
    requires i < |messages|
    ensures StartsWith(LineFor(messages, i), "AI AGENT") <==> messages[i].userAi == "ai"
    ensures StartsWith(LineFor(messages, i), "AI AGENT ASKS: ") <==> IsQuestion(messages[i])
    ensures IsQuestion(messages[i]) ==> LineFor(messages, i) == "AI AGENT ASKS: " + messages[i].messageStr
    ensures StartsWith(LineFor(messages, i), "USER RESPONDS: ") <==> AnswersQuestion(messages, i)
    ensures messages[i].userAi != "ai" && messages[i].userAi != "user" ==>
              LineFor(messages, i) == "USER: " + messages[i].messageStr
  {
    var m := messages[i];
    var line := LineFor(messages, i);
    if IsQuestion(m) {
      assert line == "AI AGENT ASKS: " + m.messageStr;
      assert line[..8] == "AI AGENT";
      assert line[..15] == "AI AGENT ASKS: ";
      assert line[0] != "USER RESPONDS: "[0];
    } else if AnswersQuestion(messages, i) {
      assert line == "USER RESPONDS: " + m.messageStr;
      assert line[..15] == "USER RESPONDS: ";
      assert line[0] != "AI AGENT"[0];
    } else if m.userAi == "ai" {
      assert line == "AI AGENT: " + m.messageStr;
      assert line[..8] == "AI AGENT";
      assert line[8] != "AI AGENT ASKS: "[8];
      assert line[0] != "USER RESPONDS: "[0];
    } else {
      assert line == "USER: " + m.messageStr;
      assert line[0] != "AI AGENT"[0];
      assert line[4] != "USER RESPONDS: "[4];
    }
  }

  /** Every line ends with its message text and holds a newline only if that text does. */
  lemma LineText(messages: seq<Message>, i: nat)
    requires i < |messages|
    ensures EndsWith(LineFor(messages, i), messages[i].messageStr)
    ensures '\n' in LineFor(messages, i) <==> '\n' in messages[i].messageStr
  {
    var m := messages[i];
    var line := LineFor(messages, i);
    var prefix := line[..|line| - |m.messageStr|];
    if IsQuestion(m) {
      assert prefix == "AI AGENT ASKS: ";
    } else if AnswersQuestion(messages, i) {
      assert prefix == "USER RESPONDS: ";
    } else if m.userAi == "ai" {
      assert prefix == "AI AGENT: ";
    } else {
      assert prefix == "USER: ";
    }
    assert line == prefix + m.messageStr;
    assert '\n' !in prefix;
  }

  /**
   * `_format_conversation_for_ai`: one line per message, in order, joined by
   * newlines; the transcript is empty exactly when there are no messages.
   */
  method FormatConversation(messages: seq<Message>) returns (conversation: string)
    ensures conversation == Join(Lines(messages), "\n")
    ensures conversation == "" <==> messages == []
  {
    var lines: seq<string> := [];
    for i := 0 to |messages|
      invariant |lines| == i
      invariant forall k :: 0 <= k < i ==> lines[k] == LineFor(messages, k)
    {
      var m := messages[i];
      var role := if m.userAi == "ai" then "AI AGENT" else "USER";
      if m.userAi == "ai" && '?' in m.messageStr {
        lines := lines + [role + " ASKS: " + m.messageStr];
      } else if m.userAi == "user" && i > 0 && messages[i - 1].userAi == "ai" && '?' in messages[i - 1].messageStr {
        lines := lines + [role + " RESPONDS: " + m.messageStr];
      } else {
        lines := lines + [role + ": " + m.messageStr];
      }
    }
    assert lines == Lines(messages);
    conversation := Join(lines, "\n");
    if messages != [] {
      assert |conversation| >= |lines[0]| > 0;
    }
  }

  /**
   * When no message text contains a newline, splitting the transcript at
   * newlines recovers exactly one line per message, in order.
   */
  lemma TranscriptLines(messages: seq<Message>)
    requires messages != []
    requires forall i :: 0 <= i < |messages| ==> '\n' !in messages[i].messageStr
    ensures Split(Join(Lines(messages), "\n"), '\n') == Lines(messages)
    ensures |Split(Join(Lines(messages), "\n"), '\n')| == |messages|
  {
    var lines := Lines(messages);
    forall k | 0 <= k < |lines|
      ensures '\n' !in lines[k]
    {
      LineText(messages, k);
    }
    SplitJoin(lines, '\n');
  }

  //--------------------------------------------------------------------------
  // Lead records
  //--------------------------------------------------------------------------

  /** The lead attributes the analyser's answer can fill. */
  const LeadFields: set<string> := {
    "full_name", "email", "phone_number", "company_name",
    "ai_interest_reason", "ai_implementation_known", "ai_implementation_timeline",
    "ai_budget_allocated", "business_goals_6_12m", "business_challenges"
  }

  /** A lead row: its session, its attribute values (`None` is SQL NULL) and its timestamps. */
  datatype Lead = Lead(sessionId: string, fields: map<string, Option<string>>, createdAt: int, updatedAt: int)

  /** A lead has exactly the lead attributes. */
  predicate ValidLead(lead: Lead)
  {
    lead.fields.Keys == LeadFields
  }

  /** The value of attribute `name`, `None` when it is NULL or not an attribute. */
  function Field(lead: Lead, name: string): Option<string>
  {
    if name in lead.fields then lead.fields[name] else None
  }

  /** The analyser's decoded JSON object: each key with a string or `null`. */
  type Extracted = map<string, Option<string>>

  /** The `clean_data` comprehension: drop `null` and empty values, keep the rest unchanged. */
  function Clean(extracted: Extracted): (clean: map<string, string>)
    ensures forall k :: k in clean <==> k in extracted && extracted[k] != None && extracted[k] != Some("")
    ensures forall k :: k in clean ==> extracted[k] == Some(clean[k])
  {
    assert forall k | k in extracted ::
      (extracted[k] != None && extracted[k] != Some("")) == (extracted[k].Some? && extracted[k].value != "");
    map k | k in extracted && extracted[k].Some? && extracted[k].value != "" :: extracted[k].value
  }

  /** A current value that the merge may overwrite. */
  predicate IsPlaceholder(field: string, current: Option<string>)
  {
    || current == None
    || current == Some("")
    || current == Some("Unknown")
    || (field == "full_name" && (current == Some("Web Chat User") || current == Some("Unknown")))
  }

  /** The attribute values after the keys in `done` have been merged. */
  function MergeOn(fields: map<string, Option<string>>, clean: map<string, string>, done: set<string>): map<string, Option<string>>
  {
    map f | f in fields :: if f in done && f in clean && IsPlaceholder(f, fields[f]) then Some(clean[f]) else fields[f]
  }

  /** The attributes updated once the keys in `done` have been merged. */
  function UpdatedOn(fields: map<string, Option<string>>, clean: map<string, string>, done: set<string>): set<string>
  {
    set f | f in fields && f in done && f in clean && IsPlaceholder(f, fields[f])
  }

  /** The attribute values after merging all of `clean`. */
  function MergedFields(fields: map<string, Option<string>>, clean: map<string, string>): map<string, Option<string>>
  {
    MergeOn(fields, clean, clean.Keys)
  }

  /** The attributes a merge of `clean` updates. */
  function UpdatedFields(fields: map<string, Option<string>>, clean: map<string, string>): set<string>
  {
    UpdatedOn(fields, clean, clean.Keys)
  }

  /**
   * The fill-only policy: the merge keeps the attribute set, changes only
   * placeholder values, fills every placeholder the cleaned data has a value
   * for, reports exactly the changed attributes, and ignores keys that are
   * not attributes.
   */
  lemma FillOnly(fields: map<string, Option<string>>, clean: map<string, string>)
    ensures MergedFields(fields, clean).Keys == fields.Keys
    ensures forall f :: f in fields && MergedFields(fields, clean)[f] != fields[f] ==>
              f in clean && IsPlaceholder(f, fields[f])
    ensures forall f :: f in fields && f in clean && IsPlaceholder(f, fields[f]) ==>
              MergedFields(fields, clean)[f] == Some(clean[f])
    ensures forall f :: f in fields && !IsPlaceholder(f, fields[f]) ==> MergedFields(fields, clean)[f] == fields[f]
    ensures forall f :: f in UpdatedFields(fields, clean) <==> f in fields && f in clean && IsPlaceholder(f, fields[f])
    ensures MergedFields(fields, clean) == MergedFields(fields, map k | k in clean && k in fields :: clean[k])
  {
    var onlyAttributes := map k | k in clean && k in fields :: clean[k];
    assert MergedFields(fields, clean) == MergedFields(fields, onlyAttributes);
  }

  /**
   * Merging the same data twice leaves the values of the first merge; the
   * second merge updates nothing when no cleaned value is itself a placeholder.
   */
  lemma MergeIdempotent(fields: map<string, Option<string>>, clean: map<string, string>)
    ensures MergedFields(MergedFields(fields, clean), clean) == MergedFields(fields, clean)
    ensures (forall f :: f in clean ==> !IsPlaceholder(f, Some(clean[f]))) ==>
              UpdatedFields(MergedFields(fields, clean), clean) == {}
  {
    var once := MergedFields(fields, clean);
    assert once.Keys == fields.Keys;
    var twice := MergedFields(once, clean);
    forall f | f in fields
      ensures twice[f] == once[f]
    {
      if f in clean && IsPlaceholder(f, fields[f]) {
        assert once[f] == Some(clean[f]);
      }
    }
    assert twice == once;
    if forall f :: f in clean ==> !IsPlaceholder(f, Some(clean[f])) {
      forall f | f in once && f in clean
        ensures !IsPlaceholder(f, once[f])
      {
        if IsPlaceholder(f, fields[f]) {
          assert once[f] == Some(clean[f]);
        } else {
          assert once[f] == fields[f];
        }
      }
    }
  }

  /** A full name of "Unknown" written by one merge is overwritten (with itself) by the next. */
  lemma PlaceholderValueIsUpdatedAgain()
    ensures var before := map f | f in LeadFields :: None;
            var clean := map["full_name" := "Unknown"];
            UpdatedFields(MergedFields(before, clean), clean) == {"full_name"}
  {
    var before: map<string, Option<string>> := map f | f in LeadFields :: None;
    var clean := map["full_name" := "Unknown"];
    var once := MergedFields(before, clean);
    assert "full_name" in before;
    assert once["full_name"] == Some("Unknown");
    assert "full_name" in UpdatedFields(once, clean);
  }

  /** A confirmed name is kept when the analyser later extracts another one. */
  lemma ConfirmedNameIsKept(fields: map<string, Option<string>>)
    requires "full_name" in fields && fields["full_name"] == Some("Jane Doe")
    ensures MergedFields(fields, map["full_name" := "John Smith"])["full_name"] == Some("Jane Doe")
    ensures UpdatedFields(fields, map["full_name" := "John Smith"]) == {}
  {
  }

  /** The database write requested by one lead-processing step. */
  datatype LeadWrite = NoWrite | Update(lead: Lead) | Insert(lead: Lead)

  /**
   * The update loop of `_process_lead_data` for an existing lead: every cleaned
   * attribute whose current value is a placeholder is set, and `updated_at` is
   * set only when something was.
   */
  method MergeLead(lead: Lead, clean: map<string, string>, now: int) returns (merged: Lead, updated: set<string>)
    ensures updated == UpdatedFields(lead.fields, clean)
    ensures merged.fields == MergedFields(lead.fields, clean)
    ensures merged.updatedAt == if updated != {} then now else lead.updatedAt
    ensures merged.sessionId == lead.sessionId && merged.createdAt == lead.createdAt
  {
    var fields := lead.fields;
    var todo := clean.Keys;
    updated := {};
    while todo != {}
      invariant todo <= clean.Keys
      invariant fields == MergeOn(lead.fields, clean, clean.Keys - todo)
      invariant updated == UpdatedOn(lead.fields, clean, clean.Keys - todo)
      decreases todo
    {
      var field :| field in todo;
      if field in fields {
        var current := fields[field];
        assert current == lead.fields[field];
        if IsPlaceholder(field, current) {
          fields := fields[field := Some(clean[field])];
          updated := updated + {field};
        }
      }
      todo := todo - {field};
    }
    merged := lead.(fields := fields);
    if updated != {} {
      merged := merged.(updatedAt := now);
    }
  }

  /**
   * The creation branch of `_process_lead_data`: a new lead for the session
   * carrying every cleaned attribute, every other attribute NULL.
   */
  method CreateLead(sessionId: string, clean: map<string, string>, now: int) returns (lead: Lead)
    ensures ValidLead(lead)
    ensures lead.sessionId == sessionId && lead.createdAt == now && lead.updatedAt == now
    ensures forall f :: f in LeadFields ==> lead.fields[f] == if f in clean then Some(clean[f]) else None
  {
    var fields: map<string, Option<string>> := map f | f in LeadFields :: None;
    var todo := clean.Keys;
    while todo != {}
      invariant todo <= clean.Keys
      invariant fields.Keys == LeadFields
      invariant forall f :: f in LeadFields ==>
                  fields[f] == if f in clean && f !in todo then Some(clean[f]) else None
      decreases todo
    {
      var field :| field in todo;
      if field in fields {
        fields := fields[field := Some(clean[field])];
      }
      todo := todo - {field};
    }
    lead := Lead(sessionId, fields, now, now);
  }

  /**
   * The write `_process_lead_data` requests for cleaned data `clean`: none
   * when there is nothing to apply; the merged lead, stamped `now`, when an
   * existing lead had a placeholder filled; a new lead holding the cleaned
   * attributes when there was no lead and a full name was extracted.
   */
  function LeadWriteFor(sessionId: string, existing: Option<Lead>, clean: map<string, string>, now: int): LeadWrite
  {
    if clean == map[] then NoWrite
    else
      match existing
      case Some(lead) =>
        if UpdatedFields(lead.fields, clean) != {}
        then Update(lead.(fields := MergedFields(lead.fields, clean), updatedAt := now))
        else NoWrite
      case None =>
        if "full_name" in clean
        then Insert(Lead(sessionId, map f | f in LeadFields :: if f in clean then Some(clean[f]) else None, now, now))
        else NoWrite
  }

  /**
   * `_process_lead_data`: clean the answer; with nothing left, write nothing;
   * with an existing lead, merge and write only when an attribute changed;
   * without one, insert a lead only when a full name was extracted.
   */
  method ProcessLeadData(sessionId: string, existing: Option<Lead>, extracted: Extracted, now: int)
    returns (write: LeadWrite)
    ensures write == LeadWriteFor(sessionId, existing, Clean(extracted), now)
    ensures Clean(extracted) == map[] ==> write == NoWrite
    ensures existing.Some? ==> !write.Insert?
    ensures existing.Some? ==> (write.Update? <==> UpdatedFields(existing.value.fields, Clean(extracted)) != {})
    ensures write.Update? ==>
              && existing.Some?
              && write.lead.fields == MergedFields(existing.value.fields, Clean(extracted))
              && write.lead.updatedAt == now
              && write.lead.sessionId == existing.value.sessionId
              && write.lead.createdAt == existing.value.createdAt
    ensures existing.None? ==> !write.Update?
    ensures existing.None? ==> (write.Insert? <==> "full_name" in Clean(extracted))
    ensures write.Insert? ==>
              && ValidLead(write.lead)
              && write.lead.sessionId == sessionId
              && write.lead.createdAt == now && write.lead.updatedAt == now
              && forall f :: f in LeadFields ==>
                   write.lead.fields[f] == if f in Clean(extracted) then Some(Clean(extracted)[f]) else None
  {
    var clean := Clean(extracted);
    if clean == map[] {
      return NoWrite;
    }
    match existing
    case Some(lead) =>
      var merged, updated := MergeLead(lead, clean, now);
      write := if updated != {} then Update(merged) else NoWrite;
    case None =>
      if "full_name" in clean {
        var created := CreateLead(sessionId, clean, now);
        assert created.fields == map f | f in LeadFields :: if f in clean then Some(clean[f]) else None;
        write := Insert(created);
      } else {
        write := NoWrite;
      }
  }

  //--------------------------------------------------------------------------
  // Extraction entry points
  //--------------------------------------------------------------------------

  /**
   * `extract_lead_information`: no messages means no analyser call and no
   * result; otherwise the transcript is analysed, and a non-empty answer is
   * processed and returned as it came.
   */
  method ExtractLeadInformation(
    sessionId: string, messages: seq<Message>, existing: Option<Lead>,
    analyse: string -> Option<Extracted>, now: int)
    returns (asked: Option<string>, result: Option<Extracted>, write: LeadWrite)
    ensures messages == [] <==> asked == None
    ensures asked.Some? ==> asked.value == Join(Lines(messages), "\n")
    ensures asked == None ==> result == None
    ensures asked.Some? ==> (result.Some? <==> analyse(asked.value).Some? && analyse(asked.value).value != map[])
    ensures result.Some? ==> asked.Some? && result == analyse(asked.value)
    ensures result == None ==> write == NoWrite
    ensures result.Some? && existing.None? ==> (write.Insert? <==> "full_name" in Clean(result.value))
    ensures result.Some? && existing.Some? ==>
              (write.Update? <==> UpdatedFields(existing.value.fields, Clean(result.value)) != {})
    ensures write.Update? ==> existing.Some? && write.lead.fields == MergedFields(existing.value.fields, Clean(result.value))
    ensures result.Some? ==> write == LeadWriteFor(sessionId, existing, Clean(result.value), now)
    ensures existing.Some? ==> !write.Insert?
    ensures write.Insert? ==> existing.None? && write.lead.sessionId == sessionId
  {
    if messages == [] {
      return None, None, NoWrite;
    }
    var conversation := FormatConversation(messages);
    asked := Some(conversation);
    var reply := analyse(conversation);
    if reply.Some? && reply.value != map[] {
      write := ProcessLeadData(sessionId, existing, reply.value, now);
      result := reply;
    } else {
      result, write := None, NoWrite;
    }
  }

  /** `process_session_for_lead_extraction`: success iff the extraction returned a non-empty answer. */
  method ProcessSessionForLeadExtraction(
    sessionId: string, messages: seq<Message>, existing: Option<Lead>,
    analyse: string -> Option<Extracted>, now: int)
    returns (success: bool, write: LeadWrite)
    ensures success <==> messages != [] && analyse(Join(Lines(messages), "\n")).Some?
                         && analyse(Join(Lines(messages), "\n")).value != map[]
    ensures !success ==> write == NoWrite
    ensures success ==> write == LeadWriteFor(sessionId, existing, Clean(analyse(Join(Lines(messages), "\n")).value), now)
    ensures existing.Some? ==> !write.Insert?
    ensures write.Insert? ==> existing.None? && write.lead.sessionId == sessionId
  {
    var asked, result;
    asked, result, write := ExtractLeadInformation(sessionId, messages, existing, analyse, now);
    success := result.Some? && result.value != map[];
  }
}
