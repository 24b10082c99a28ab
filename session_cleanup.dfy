/**
 * The periodic clean-up pass: choosing the recent sessions whose lead still
 * holds default or unknown data, and counting the outcomes of re-running the
 * extractor on them. The database is given as values: the sessions table in
 * query order, the first lead recorded per session id, and the number of
 * chat messages per session id.
 */
module SessionCleanup {
  import opened Common
  import opened LeadExtractor

  /** A messenger session row: its id and the time of its last message, in seconds. */
  datatype Session = Session(sessionId: string, lastMessageTime: int)

  /** Only sessions active within the last 24 hours are considered, in seconds. */
  const RecentWindow: int := 24 * 60 * 60

  /** A column that holds NULL or the empty string. */
  predicate Blank(v: Option<string>)
  {
    v.None? || v.value == ""
  }

  /** The lead still holds a default name, or neither a company nor an email. */
  predicate HasUnknownData(lead: Lead)
  {
    || Blank(Field(lead, "full_name"))
    || Field(lead, "full_name") == Some("Unknown")
    || Field(lead, "full_name") == Some("Web Chat User")
    || (Blank(Field(lead, "company_name")) && Blank(Field(lead, "email")))
  }

  /** The number of chat messages stored for a session (zero when none). */
  function MessageCount(counts: map<string, nat>, sessionId: string): nat
  {
    if sessionId in counts then counts[sessionId] else 0
  }

  /** The conditions under which the pass picks a session. */
  predicate NeedsProcessing(s: Session, now: int, leads: map<string, Lead>, counts: map<string, nat>)
  {
    && s.lastMessageTime >= now - RecentWindow
    && s.sessionId in leads
    && HasUnknownData(leads[s.sessionId])
    && MessageCount(counts, s.sessionId) > 1
  }

  /** The ids of the sessions that need processing, in table order. */
  function Selection(sessions: seq<Session>, now: int, leads: map<string, Lead>, counts: map<string, nat>): seq<string>
    decreases |sessions|
  {
    if sessions == [] then []
    else
      var last := sessions[|sessions| - 1];
      var rest := Selection(sessions[..|sessions| - 1], now, leads, counts);
      if NeedsProcessing(last, now, leads, counts) then rest + [last.sessionId] else rest
  }

  /** An id is selected exactly when some session with that id needs processing. */
  lemma {:induction false} SelectionMembers(sessions: seq<Session>, now: int, leads: map<string, Lead>, counts: map<string, nat>)
    ensures |Selection(sessions, now, leads, counts)| <= |sessions|
    ensures forall id :: id in Selection(sessions, now, leads, counts) <==>
              exists i :: 0 <= i < |sessions| && sessions[i].sessionId == id && NeedsProcessing(sessions[i], now, leads, counts)
    decreases |sessions|
  {
    if sessions != [] {
      var n := |sessions| - 1;
      var front := sessions[..n];
      SelectionMembers(front, now, leads, counts);
      forall id
        ensures id in Selection(sessions, now, leads, counts) <==>
                exists i :: 0 <= i < |sessions| && sessions[i].sessionId == id && NeedsProcessing(sessions[i], now, leads, counts)
      {
        if exists i :: 0 <= i < |sessions| && sessions[i].sessionId == id && NeedsProcessing(sessions[i], now, leads, counts) {
          var i :| 0 <= i < |sessions| && sessions[i].sessionId == id && NeedsProcessing(sessions[i], now, leads, counts);
          if i < n {
            assert front[i] == sessions[i];
          }
        }
        if id in Selection(front, now, leads, counts) {
          var i :| 0 <= i < |front| && front[i].sessionId == id && NeedsProcessing(front[i], now, leads, counts);
          assert sessions[i] == front[i];
        }
      }
    }
  }

  /** Selection keeps table order: the selection of two parts is the selection of each, one after the other. */
  lemma {:induction false} SelectionAppend(a: seq<Session>, b: seq<Session>, now: int, leads: map<string, Lead>, counts: map<string, nat>)
    ensures Selection(a + b, now, leads, counts) == Selection(a, now, leads, counts) + Selection(b, now, leads, counts)
    decreases |b|
  {
    if b == [] {
      assert a + b == a;
    } else {
      var n := |b| - 1;
      assert (a + b)[..|a + b| - 1] == a + b[..n];
      assert (a + b)[|a + b| - 1] == b[n];
      SelectionAppend(a, b[..n], now, leads, counts);
    }
  }

  /**
   * `find_sessions_needing_processing`: walks the sessions and appends the id
   * of each one that needs processing.
   */
  method FindSessionsNeedingProcessing(sessions: seq<Session>, now: int, leads: map<string, Lead>, counts: map<string, nat>)
    returns (selected: seq<string>)
    ensures selected == Selection(sessions, now, leads, counts)
  {
    var cutoff := now - RecentWindow;
    selected := [];
    for i := 0 to |sessions|
      invariant selected == Selection(sessions[..i], now, leads, counts)
    {
      assert sessions[..i + 1][..i] == sessions[..i];
      var session := sessions[i];
      if session.lastMessageTime >= cutoff && session.sessionId in leads {
        var lead := leads[session.sessionId];
        if HasUnknownData(lead) {
          var messageCount := MessageCount(counts, session.sessionId);
          if messageCount > 1 {
            selected := selected + [session.sessionId];
          }
        }
      }
    }
    assert sessions[..|sessions|] == sessions;
  }

  /** How one extraction call ended: it returned a flag, or it raised. */
  datatype CallOutcome = Returned(success: bool) | Raised

  /** The outcomes of the calls on `ids`, in order. */
  function Outcomes(ids: seq<string>, outcome: string -> CallOutcome): (r: seq<CallOutcome>)
    ensures |r| == |ids|
    ensures forall i :: 0 <= i < |ids| ==> r[i] == outcome(ids[i])
  {
    seq(|ids|, i requires 0 <= i < |ids| => outcome(ids[i]))
  }

  /** The number of calls that returned without raising. */
  function Processed(outs: seq<CallOutcome>): nat
    decreases |outs|
  {
    if outs == [] then 0
    else Processed(outs[..|outs| - 1]) + (if outs[|outs| - 1].Returned? then 1 else 0)
  }

  /** The number of calls that returned success. */
  function Succeeded(outs: seq<CallOutcome>): nat
    decreases |outs|
  {
    if outs == [] then 0
    else Succeeded(outs[..|outs| - 1]) + (if outs[|outs| - 1] == Returned(true) then 1 else 0)
  }

  /** Successes never exceed the calls that returned, which never exceed the calls made. */
  lemma {:induction false} CountBounds(outs: seq<CallOutcome>)
    ensures Succeeded(outs) <= Processed(outs) <= |outs|
    ensures Processed(outs) == |outs| <==> forall i :: 0 <= i < |outs| ==> outs[i].Returned?
    decreases |outs|
  {
    if outs != [] {
      var n := |outs| - 1;
      CountBounds(outs[..n]);
      assert forall i :: 0 <= i < n ==> outs[..n][i] == outs[i];
      assert (forall i :: 0 <= i < |outs| ==> outs[i].Returned?) <==>
             (forall i :: 0 <= i < n ==> outs[..n][i].Returned?) && outs[n].Returned?;
    }
  }

  /**
   * `process_missed_sessions`: the selected sessions are passed to the
   * extractor one by one, in order (`outcome` stands for each call); a call
   * that returns is counted as processed, and as a success when it returns
   * true. An empty selection makes no call.
   */
  method ProcessMissedSessions(
    sessions: seq<Session>, now: int, leads: map<string, Lead>, counts: map<string, nat>,
    outcome: string -> CallOutcome)
    returns (calls: seq<string>, processedCount: nat, successCount: nat)
    ensures calls == Selection(sessions, now, leads, counts)
    ensures processedCount == Processed(Outcomes(calls, outcome))
    ensures successCount == Succeeded(Outcomes(calls, outcome))
    ensures successCount <= processedCount <= |calls|
  {
    var sessionsToProcess := FindSessionsNeedingProcessing(sessions, now, leads, counts);
    calls := [];
    processedCount, successCount := 0, 0;
    if sessionsToProcess == [] {
      CountBounds([]);
      return;
    }
    ghost var outs := Outcomes(sessionsToProcess, outcome);
    for i := 0 to |sessionsToProcess|
      invariant calls == sessionsToProcess[..i]
      invariant processedCount == Processed(outs[..i])
      invariant successCount == Succeeded(outs[..i])
    {
      assert outs[..i + 1][..i] == outs[..i];
      var sessionId := sessionsToProcess[i];
      calls := calls + [sessionId];
      match outcome(sessionId)
      case Returned(success) =>
        processedCount := processedCount + 1;
        if success {
          successCount := successCount + 1;
        }
      case Raised =>
    }
    assert sessionsToProcess[..|sessionsToProcess|] == sessionsToProcess;
    assert outs[..|outs|] == outs;
    CountBounds(outs);
  }
}
