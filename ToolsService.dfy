/** The tool-invocation dispatcher of app/services/tools_service.py.

    The voice engine asks for a tool by name; the dispatcher answers on the
    engine socket with at most one control message and, for `hangUp`, ends the
    call. Socket writes are appended to `Bridge.outbox`; calls to the outside
    world (the automation webhook, the telephony provider's REST API, the
    transcript export, closing the engine socket) are appended to
    `Bridge.effects`. What those collaborators answer is an input, gathered in
    `Environment`. */
module ToolsService {
  import opened Wrappers
  import opened Strings
  import Prompts

  /** Identity of an engine WebSocket; two handles are equal when they are the
      same socket. */
  type SocketId = nat

  /** Tool parameters as sent by the engine. */
  type Params = map<string, string>

  /** The JSON object carried in the `result` of a `new-stage` message. */
  datatype StagePayload = StagePayload(systemPrompt: string, voice: string, toolResultText: string)

  /** A `client_tool_result` frame sent back to the engine. */
  datatype Message =
    | ToolResponse(invocationId: string, result: string)       // response_type "tool-response"
    | NewStage(invocationId: string, payload: StagePayload)     // response_type "new-stage"
    | ErrorResult(invocationId: string, errorType: string, errorMessage: string)  // no response_type

  /** The `data` object of a scheduling request. */
  datatype MeetingData = MeetingData(name: string, email: string, purpose: string, datetime: string, calendarId: string)

  /** A call into a collaborator, in the order it was made. */
  datatype Effect =
    | WebhookCall(route: string, number: string, data: MeetingData)
    | TwilioFetch(callSid: string)
    | TwilioUpdate(callSid: string, status: string)
    | TranscriptExport(sessionSid: string)
    | CloseWs(socket: SocketId)

  /** What the automation webhook gives back: either the request or the JSON
      decoding raises, or a JSON object that may carry a `message`. */
  datatype WebhookReply = WebhookRaised | WebhookJson(message: Option<string>)

  /** The answers of everything outside the dispatcher during one invocation. */
  datatype Environment = Environment(
    engineSocketOpen: bool,           // uv_ws.state == OPEN
    ackSendRaises: bool,              // sending the hangUp acknowledgement raises
    twilioFetchOk: bool,              // creating the client and fetching the call succeed
    twilioUpdateOk: bool,             // setting the call status to completed succeeds
    exportMarksSent: bool,            // the transcript export sets transcript_sent
    webhook: WebhookReply,
    calendars: map<string, string>,   // CALENDARS_LIST: location name to calendar id
    clockNow: string)                 // the time the stage lookup would read

  /** How an invocation ends: normally, or with an exception that leaves it. */
  datatype Outcome = Returned | Raised(error: string)

  const VERIFY: string := "verify"
  const SCHEDULE_MEETING: string := "schedule_meeting"
  const MOVE_TO_MAIN_CONVO: string := "move_to_main_convo"
  const MOVE_TO_CALL_SUMMARY: string := "move_to_call_summary"
  const HANG_UP: string := "hangUp"
  const QUERY_CORPUS: string := "queryCorpus"

  const CONFIRMED: string := "Confirmed"
  const NOT_CONFIRMED: string := "Not Confirmed"
  const REQUIRED_MEETING_PARAMS: seq<string> := ["name", "email", "purpose", "datetime", "location"]
  const MISSING_PARAMS_PREFIX: string := "Please provide the following information to schedule your meeting: "
  const SCHEDULE_ROUTE: string := "3"
  const UNKNOWN_NUMBER: string := "Unknown"
  const BOOKING_APOLOGY: string := "I'm sorry, I couldn't schedule the meeting at this time."
  const IMPLEMENTATION_ERROR: string := "implementation-error"
  const SCHEDULE_ERROR_MESSAGE: string := "An error occurred while scheduling your meeting."
  const SUMMARY_TRANSITION: string := "Before we conclude our call, let me summarize what we've discussed and next steps."
  const HANG_UP_ACK: string := "Call ended successfully"
  const CALL_COMPLETED: string := "completed"
  const CALL_SID_LENGTH: nat := 34
  const CALL_SID_PREFIX: string := "CA"

  /** `parameters.get(key, '')`. */
  function Get(p: map<string, string>, key: string): string {
    if key in p then p[key] else ""
  }

  /** `parameters.get(key)` is truthy: present and not empty. */
  predicate Truthy(p: map<string, string>, key: string) {
    Get(p, key) != ""
  }

  // ---------------------------------------------------------------- verify

  /** The identity check: confirmed exactly when both the full name and the
      phone number are given and not empty. */
  function VerifyResult(p: Params): (r: string)
    ensures r == CONFIRMED <==> Truthy(p, "full_name") && Truthy(p, "phone_number")
    ensures r == CONFIRMED || r == NOT_CONFIRMED
  {
    if Get(p, "full_name") != "" && Get(p, "phone_number") != "" then CONFIRMED else NOT_CONFIRMED
  }

  /** No parameter other than the full name and the phone number is consulted. */
  lemma VerifyReadsOnlyNameAndPhone(p: Params, q: Params)
    requires Truthy(p, "full_name") == Truthy(q, "full_name")
    requires Truthy(p, "phone_number") == Truthy(q, "phone_number")
    ensures VerifyResult(p) == VerifyResult(q)
  {
  }

  /** A date of birth and a policy number do not stand in for a phone number. */
  lemma VerifyWithoutPhoneNotConfirmed(p: Params)
    requires p == map["full_name" := "Jane Doe", "date_of_birth" := "1990-01-01", "policy_number" := "P123"]
    ensures VerifyResult(p) == NOT_CONFIRMED
  {
    assert "phone_number" !in p;
  }

  // ------------------------------------------------------ schedule_meeting

  /** The names among `names` whose parameter is missing or empty, in the order
      of `names`. */
  function MissingAmong(names: seq<string>, p: Params): (m: seq<string>)
    ensures forall x :: x in m <==> x in names && !Truthy(p, x)
    ensures IsSubsequence(m, names)
  {
    if names == [] then []
    else if !Truthy(p, names[0]) then [names[0]] + MissingAmong(names[1..], p)
    else
      var rest := MissingAmong(names[1..], p);
      SubsequenceOfTail(rest, names);
      rest
  }

  /** Each name is listed as often as it occurs in `names` when its parameter
      is missing or empty, and not at all otherwise. */
  lemma {:induction false} MissingAmongCounts(names: seq<string>, p: Params)
    ensures forall x ::
      multiset(MissingAmong(names, p))[x] == (if Truthy(p, x) then 0 else multiset(names)[x])
  {
    if names != [] {
      assert names == [names[0]] + names[1..];
      MissingAmongCounts(names[1..], p);
    }
  }

  /** The required meeting fields that are missing, in the order name, email,
      purpose, datetime, location. */
  function MissingParams(p: Params): (m: seq<string>)
    ensures forall x :: x in m <==> x in REQUIRED_MEETING_PARAMS && !Truthy(p, x)
    ensures IsSubsequence(m, REQUIRED_MEETING_PARAMS)
    ensures m == [] <==> forall x :: x in REQUIRED_MEETING_PARAMS ==> Truthy(p, x)
  {
    var m := MissingAmong(REQUIRED_MEETING_PARAMS, p);
    assert m != [] ==> m[0] in m;
    m
  }

  /** The clarifying prompt that names the missing fields. */
  function MissingParamsMessage(missing: seq<string>): (m: string)
    ensures |m| > |MISSING_PARAMS_PREFIX|
    ensures m[..|MISSING_PARAMS_PREFIX|] == MISSING_PARAMS_PREFIX && m[|m| - 1] == '.'
    ensures m[|MISSING_PARAMS_PREFIX|..|m| - 1] == Join(missing, ", ")
  {
    MISSING_PARAMS_PREFIX + Join(missing, ", ") + "."
  }

  /** Two missing fields are named in order, separated by a comma. */
  lemma MessageForTwo(first: string, second: string)
    ensures MissingParamsMessage([first, second]) == MISSING_PARAMS_PREFIX + first + ", " + second + "."
  {
    assert [first, second][1..] == [second];
    assert Join([first, second], ", ") == first + ", " + second;
    assert MISSING_PARAMS_PREFIX + (first + ", " + second) + "." == MISSING_PARAMS_PREFIX + first + ", " + second + ".";
  }

  /** Of five fields where the second and the last are missing, those two are
      reported, in order. */
  lemma SecondAndLastMissing(a: string, b: string, c: string, d: string, e: string, p: Params)
    requires Truthy(p, a) && Truthy(p, c) && Truthy(p, d) && !Truthy(p, b) && !Truthy(p, e)
    ensures MissingAmong([a, b, c, d, e], p) == [b, e]
  {
    var names := [a, b, c, d, e];
    assert names[1..][1..][1..][1..][1..] == [];
    assert MissingAmong(names[1..][1..][1..][1..], p) == [e];
    assert MissingAmong(names[1..][1..], p) == [e];
  }

  /** Without an email and a location, the prompt names exactly those two. */
  lemma MissingEmailAndLocation(p: Params)
    requires Truthy(p, "name") && Truthy(p, "purpose") && Truthy(p, "datetime")
    requires !Truthy(p, "email") && !Truthy(p, "location")
    ensures MissingParams(p) == ["email", "location"]
    ensures MissingParamsMessage(MissingParams(p)) == MISSING_PARAMS_PREFIX + "email" + ", " + "location" + "."
  {
    SecondAndLastMissing("name", "email", "purpose", "datetime", "location", p);
    MessageForTwo("email", "location");
  }

  /** Nothing is missing exactly when all five fields are present and not empty. */
  lemma NoneMissingIff(p: Params)
    ensures MissingParams(p) == [] <==>
      Truthy(p, "name") && Truthy(p, "email") && Truthy(p, "purpose") && Truthy(p, "datetime") && Truthy(p, "location")
  {
    var names := REQUIRED_MEETING_PARAMS;
    assert names[0] == "name" && names[1] == "email" && names[2] == "purpose";
    assert names[3] == "datetime" && names[4] == "location";
  }

  /** Whether a session was passed to the scheduler, and its caller number. */
  datatype SessionView = NoSession | SessionWith(callerNumber: Option<string>)

  /** `handle_schedule_meeting`: the one message it sends and the webhook call
      it makes, if any. A missing field, a location without a calendar and a
      missing session each end in the error result before the webhook is
      called; a webhook that raises ends in the error result after it. */
  function ScheduleMeetingReply(session: SessionView, invocationId: string, p: Params,
                                calendars: map<string, string>, webhook: WebhookReply): (r: (Message, seq<Effect>))
    ensures r.0.invocationId == invocationId && !r.0.NewStage?
    ensures |r.1| <= 1
    ensures r.1 != [] <==>
      MissingParams(p) == [] && Truthy(calendars, Get(p, "location")) && session.SessionWith?
    ensures r.1 != [] ==>
      r.1[0] == WebhookCall(SCHEDULE_ROUTE, session.callerNumber.GetOr(UNKNOWN_NUMBER),
                            MeetingData(Get(p, "name"), Get(p, "email"), Get(p, "purpose"), Get(p, "datetime"),
                                        Get(calendars, Get(p, "location"))))
    ensures r.0.ToolResponse? <==> r.1 != [] && webhook.WebhookJson?
    ensures r.0.ToolResponse? ==> r.0.result == webhook.message.GetOr(BOOKING_APOLOGY)
    ensures r.0.ErrorResult? ==> r.0 == ErrorResult(invocationId, IMPLEMENTATION_ERROR, SCHEDULE_ERROR_MESSAGE)
  {
    NoneMissingIff(p);
    var failure := ErrorResult(invocationId, IMPLEMENTATION_ERROR, SCHEDULE_ERROR_MESSAGE);
    if !(Truthy(p, "name") && Truthy(p, "email") && Truthy(p, "purpose") && Truthy(p, "datetime") && Truthy(p, "location")) then
      (failure, [])
    else if !Truthy(calendars, Get(p, "location")) then
      (failure, [])
    else if session.NoSession? then
      (failure, [])
    else
      var data := MeetingData(Get(p, "name"), Get(p, "email"), Get(p, "purpose"), Get(p, "datetime"),
                              Get(calendars, Get(p, "location")));
      var call := WebhookCall(SCHEDULE_ROUTE, session.callerNumber.GetOr(UNKNOWN_NUMBER), data);
      match webhook
      case WebhookRaised => (failure, [call])
      case WebhookJson(message) => (ToolResponse(invocationId, message.GetOr(BOOKING_APOLOGY)), [call])
  }

  // ---------------------------------------------------------- stage moves

  /** `opening`, then ", " and the name when one is given, then `rest`. */
  function Personalised(opening: string, name: string, rest: string): string {
    opening + (if name != "" then ", " + name else "") + rest
  }

  /** The anonymous text and the personalised one differ exactly when a name
      is given, and then by ", " and the name inserted after the opening. */
  lemma PersonalisedInsertsName(opening: string, name: string, rest: string)
    ensures Personalised(opening, name, rest) == Personalised(opening, "", rest) <==> name == ""
    ensures var a := Personalised(opening, "", rest);
      |opening| <= |a| &&
      Personalised(opening, name, rest) == a[..|opening|] + (if name != "" then ", " + name else "") + a[|opening|..]
  {
    var a := Personalised(opening, "", rest);
    assert a == opening + rest;
    assert a[..|opening|] == opening && a[|opening|..] == rest;
    if name != "" {
      assert |Personalised(opening, name, rest)| > |a|;
    }
  }

  /** The greeting the main conversation stage would open with; the customer's
      name is added only when it is not empty. */
  function MainConvoGreeting(customerName: string, issueType: string): (g: string)
    ensures GREETING_OPENING <= g
  {
    Personalised(GREETING_OPENING, customerName, GREETING_CONCERN + issueType + GREETING_CLOSING)
  }

  const GREETING_OPENING: string :=
    "You're now speaking with Alex, the Senior main_convo at SecureLife Insurance. I've been briefed on your situation"
  const GREETING_CONCERN: string := ". You're concerned about "
  const GREETING_CLOSING: string := ". How can I help you today?"

  /** The greeting is personalised exactly when a name is given, and then by
      ", " and the name, inserted right after the opening sentence. */
  lemma GreetingNamesCustomer(customerName: string, issueType: string)
    ensures MainConvoGreeting(customerName, issueType) == MainConvoGreeting("", issueType) <==> customerName == ""
    ensures var a := MainConvoGreeting("", issueType);
      customerName != "" ==>
        |GREETING_OPENING| <= |a| &&
        MainConvoGreeting(customerName, issueType) ==
          a[..|GREETING_OPENING|] + ", " + customerName + a[|GREETING_OPENING|..]
  {
    PersonalisedInsertsName(GREETING_OPENING, customerName, GREETING_CONCERN + issueType + GREETING_CLOSING);
  }

  // ------------------------------------------------------------------ hangUp

  /** The call SID clean-up: a SID longer than 34 characters that contains "CA"
      is cut to the 34 characters starting at its first "CA", provided that
      many remain; any other SID is left as it is. */
  function SanitizeCallSid(sid: string): (r: string)
    ensures r == sid || (|sid| > CALL_SID_LENGTH && |r| == CALL_SID_LENGTH && r[..2] == CALL_SID_PREFIX)
    ensures |sid| <= CALL_SID_LENGTH ==> r == sid
    ensures (forall j :: !OccursAt(sid, CALL_SID_PREFIX, j)) ==> r == sid
    // a long SID with 34 characters available from its first "CA" is cut
    ensures |sid| > CALL_SID_LENGTH && IndexOf(sid, CALL_SID_PREFIX).Some? &&
            IndexOf(sid, CALL_SID_PREFIX).value + CALL_SID_LENGTH <= |sid| ==>
      r == sid[IndexOf(sid, CALL_SID_PREFIX).value .. IndexOf(sid, CALL_SID_PREFIX).value + CALL_SID_LENGTH]
    ensures r != sid ==>
      IndexOf(sid, CALL_SID_PREFIX).Some? &&
      (var start := IndexOf(sid, CALL_SID_PREFIX).value;
       start + CALL_SID_LENGTH <= |sid| && r == sid[start..start + CALL_SID_LENGTH])
  {
    var first := IndexOf(sid, CALL_SID_PREFIX);
    if |sid| > CALL_SID_LENGTH && first.Some? then
      var start := first.value;
      var stop := if start + CALL_SID_LENGTH <= |sid| then start + CALL_SID_LENGTH else |sid|;
      var extracted := sid[start..stop];
      if |extracted| == CALL_SID_LENGTH then extracted else sid
    else
      sid
  }

  /** Cleaning a SID twice is cleaning it once. */
  lemma {:induction false} SanitizeCallSidIdempotent(sid: string)
    ensures SanitizeCallSid(SanitizeCallSid(sid)) == SanitizeCallSid(sid)
  {
    var r := SanitizeCallSid(sid);
    if r != sid {
      assert |r| == CALL_SID_LENGTH;
    }
  }

  /** The latches of a session that hangUp reads. */
  datatype SessionFlags = SessionFlags(ultravoxWsActive: Option<bool>, transcriptSent: bool)

  /** What hangUp does, decided from the session found (its key and flags) and
      the environment: whether the acknowledgement goes out, whether the
      active flag is cleared, whether the transcript is exported, and the
      collaborator calls in order. */
  datatype HangUpPlan = HangUpPlan(ackSent: bool, clearActive: bool, exported: bool, effects: seq<Effect>)

  /** The provider steps for the session stored under `key`: fetch the call,
      then (if that went through) mark it completed, then (if that went
      through and the transcript was not sent yet) export the transcript. */
  function ProviderCalls(key: string, transcriptSent: bool, env: Environment): (calls: seq<Effect>)
    ensures 1 <= |calls| <= 3 && calls[0] == TwilioFetch(SanitizeCallSid(key))
    ensures TwilioUpdate(SanitizeCallSid(key), CALL_COMPLETED) in calls <==> env.twilioFetchOk
    ensures TranscriptExport(key) in calls <==> env.twilioFetchOk && env.twilioUpdateOk && !transcriptSent
    ensures forall e :: e in calls ==> !e.CloseWs? && !e.WebhookCall?
  {
    var sid := SanitizeCallSid(key);
    [TwilioFetch(sid)]
    + if env.twilioFetchOk then
        [TwilioUpdate(sid, CALL_COMPLETED)]
        + if env.twilioUpdateOk && !transcriptSent then [TranscriptExport(key)] else []
      else []
  }

  function PlanHangUp(ws: SocketId, found: Option<(string, SessionFlags)>, env: Environment): (plan: HangUpPlan)
    // closing the engine socket is always attempted, once, as the last step
    ensures |plan.effects| >= 1 && plan.effects[|plan.effects| - 1] == CloseWs(ws)
    ensures forall i :: 0 <= i < |plan.effects| - 1 ==> !plan.effects[i].CloseWs?
  {
    var active := if found.Some? then found.value.1.ultravoxWsActive.GetOr(true) else true;
    var ackSent := active && env.engineSocketOpen && !env.ackSendRaises;
    var clearActive := ackSent && found.Some? && found.value.1.ultravoxWsActive.Some?;
    if found.Some? && found.value.0 != "" then
      var exported := env.twilioFetchOk && env.twilioUpdateOk && !found.value.1.transcriptSent;
      HangUpPlan(ackSent, clearActive, exported, ProviderCalls(found.value.0, found.value.1.transcriptSent, env) + [CloseWs(ws)])
    else
      HangUpPlan(ackSent, clearActive, false, [CloseWs(ws)])
  }

  /** What the plan promises: the acknowledgement and flag rules, the socket
      closed last and once, the provider contacted only for a non-empty SID,
      and the transcript exported at most once. */
  lemma PlanHangUpSound(ws: SocketId, found: Option<(string, SessionFlags)>, env: Environment, plan: HangUpPlan)
    requires plan == PlanHangUp(ws, found, env)
    // the acknowledgement goes out only when the session (if any) is not marked
    // inactive and the socket is open; a missing session or flag counts as active
    ensures plan.ackSent <==>
      (found.None? || found.value.1.ultravoxWsActive.GetOr(true)) && env.engineSocketOpen && !env.ackSendRaises
    // the flag is cleared only after the acknowledgement, and only if it exists
    ensures plan.clearActive <==> plan.ackSent && found.Some? && found.value.1.ultravoxWsActive.Some?
    // the provider is contacted only for a session whose key is a non-empty SID
    ensures found.None? || found.value.0 == "" ==> plan.effects == [CloseWs(ws)]
    ensures found.Some? && found.value.0 != "" ==>
      plan.effects[0] == TwilioFetch(SanitizeCallSid(found.value.0)) &&
      (TwilioUpdate(SanitizeCallSid(found.value.0), CALL_COMPLETED) in plan.effects <==> env.twilioFetchOk)
    // the transcript is exported only if it was not sent yet and ending the
    // call went through
    ensures plan.exported <==>
      found.Some? && found.value.0 != "" && env.twilioFetchOk && env.twilioUpdateOk && !found.value.1.transcriptSent
  {
  }

  /** The four possible sequences of collaborator calls of a plan. */
  lemma PlanEffectsShape(ws: SocketId, found: Option<(string, SessionFlags)>, env: Environment, plan: HangUpPlan)
    requires plan == PlanHangUp(ws, found, env)
    ensures found.None? || found.value.0 == "" ==> plan.effects == [CloseWs(ws)]
    ensures found.Some? && found.value.0 != "" ==>
      var key := found.value.0;
      var sid := SanitizeCallSid(key);
      plan.effects ==
        if !env.twilioFetchOk then [TwilioFetch(sid), CloseWs(ws)]
        else if plan.exported then [TwilioFetch(sid), TwilioUpdate(sid, CALL_COMPLETED), TranscriptExport(key), CloseWs(ws)]
        else [TwilioFetch(sid), TwilioUpdate(sid, CALL_COMPLETED), CloseWs(ws)]
  {
  }

  /** The export step of the plan names the session found, appears exactly
      when the plan exports, and at most once. */
  lemma PlanHangUpExportsOnce(ws: SocketId, found: Option<(string, SessionFlags)>, env: Environment, plan: HangUpPlan)
    requires plan == PlanHangUp(ws, found, env)
    ensures forall i :: 0 <= i < |plan.effects| && plan.effects[i].TranscriptExport? ==>
      plan.exported && plan.effects[i] == TranscriptExport(found.value.0)
    ensures plan.exported ==> TranscriptExport(found.value.0) in plan.effects
    ensures forall i, j :: 0 <= i < j < |plan.effects| ==>
      !(plan.effects[i].TranscriptExport? && plan.effects[j].TranscriptExport?)
  {
    PlanEffectsShape(ws, found, env, plan);
  }

  /** The transcript is exported only after the call was marked completed. */
  lemma PlanHangUpExportAfterUpdate(ws: SocketId, found: Option<(string, SessionFlags)>, env: Environment, plan: HangUpPlan)
    requires plan == PlanHangUp(ws, found, env)
    ensures forall i, j ::
      (0 <= i < |plan.effects| && 0 <= j < |plan.effects| &&
       plan.effects[i].TwilioUpdate? && plan.effects[j].TranscriptExport?) ==> i < j
  {
    PlanEffectsShape(ws, found, env, plan);
  }

  /** The flags a session is left with after hangUp has followed `plan`:
      the active flag is cleared if the plan says so, and the transcript is
      marked sent if it was already or if the export marks it. */
  function FlagsAfter(flags: SessionFlags, plan: HangUpPlan, exportMarksSent: bool): SessionFlags {
    SessionFlags(if plan.clearActive then Some(false) else flags.ultravoxWsActive,
                 flags.transcriptSent || (plan.exported && exportMarksSent))
  }

  /** Hanging up the same session twice, whatever the second call meets: a
      transcript exported the first time is not exported again, an
      acknowledgement that cleared the active flag is not sent again, but the
      provider is contacted again, since hangUp does not look at the
      hanging_up latch. */
  lemma HangUpTwiceExportsOnce(ws: SocketId, sid: string, flags: SessionFlags, env1: Environment, env2: Environment)
    requires sid != "" && env1.exportMarksSent
    ensures var first := PlanHangUp(ws, Some((sid, flags)), env1);
            var second := PlanHangUp(ws, Some((sid, FlagsAfter(flags, first, env1.exportMarksSent))), env2);
            && (first.exported ==> !second.exported)
            && (first.clearActive ==> !second.ackSent)
            && second.effects[0] == first.effects[0] == TwilioFetch(SanitizeCallSid(sid))
  {
  }

  // ---------------------------------------------------------------- state

  /** One entry of the sessions table. The socket and the caller number are set
      when the media stream registers the call and are never written here. */
  class Session {
    const uvWs: Option<SocketId>
    const callerNumber: Option<string>
    var hangingUp: bool
    var ultravoxWsActive: Option<bool>   // None: the key is absent
    var transcriptSent: bool

    constructor (uvWs: Option<SocketId>, callerNumber: Option<string>, ultravoxWsActive: Option<bool>)
      ensures this.uvWs == uvWs && this.callerNumber == callerNumber
      ensures this.ultravoxWsActive == ultravoxWsActive
      ensures !hangingUp && !transcriptSent
    {
      this.uvWs := uvWs;
      this.callerNumber := callerNumber;
      this.ultravoxWsActive := ultravoxWsActive;
      hangingUp := false;
      transcriptSent := false;
    }

    function Flags(): SessionFlags
      reads this
    {
      SessionFlags(ultravoxWsActive, transcriptSent)
    }
  }

  /** The position of the first session, in table order, whose engine socket
      is `ws`. */
  function FirstMatch(table: seq<(string, Session)>, ws: SocketId): (k: Option<nat>)
    ensures k.Some? ==> k.value < |table| && table[k.value].1.uvWs == Some(ws)
    ensures k.Some? ==> forall j :: 0 <= j < k.value ==> table[j].1.uvWs != Some(ws)
    ensures k.None? ==> forall j :: 0 <= j < |table| ==> table[j].1.uvWs != Some(ws)
  {
    if table == [] then None
    else if table[0].1.uvWs == Some(ws) then Some(0)
    else
      match FirstMatch(table[1..], ws)
      case None => None
      case Some(i) => Some(i + 1)
  }

  function ViewOf(session: Session?): SessionView {
    if session == null then NoSession else SessionWith(session.callerNumber)
  }

  /** The process state the dispatcher touches: the shared sessions table (in
      insertion order), the messages written to the engine socket, and the
      collaborator calls made. */
  class Bridge {
    var sessions: seq<(string, Session)>
    var outbox: seq<Message>
    var effects: seq<Effect>

    constructor (sessions: seq<(string, Session)>)
      ensures this.sessions == sessions && outbox == [] && effects == []
    {
      this.sessions := sessions;
      outbox := [];
      effects := [];
    }

    function Objects(): set<Session>
      reads this
    {
      set i | 0 <= i < |sessions| :: sessions[i].1
    }

    /** The scan for the session whose engine socket is `ws`, stopping at the
        first match. */
    method FindSessionBySocket(ws: SocketId) returns (k: Option<nat>)
      ensures k == FirstMatch(sessions, ws)
    {
      k := None;
      var i := 0;
      while i < |sessions|
        invariant 0 <= i <= |sessions|
        invariant forall j :: 0 <= j < i ==> sessions[j].1.uvWs != Some(ws)
      {
        if sessions[i].1.uvWs == Some(ws) {
          k := Some(i);
          break;
        }
        i := i + 1;
      }
    }

    /** `handle_queryCorpus`: the question is left to the engine; nothing is
        sent and nothing is called. */
    method HandleQueryCorpus(invocationId: string, question: Option<string>)
      modifies this`outbox, this`effects
      ensures outbox == old(outbox) && effects == old(effects)
    {
    }

    /** `handle_schedule_meeting`, step by step. */
    method HandleScheduleMeeting(session: Session?, invocationId: string, p: Params, env: Environment)
      modifies this`outbox, this`effects
      ensures var reply := ScheduleMeetingReply(ViewOf(session), invocationId, p, env.calendars, env.webhook);
              outbox == old(outbox) + [reply.0] && effects == old(effects) + reply.1
    {
      var failure := ErrorResult(invocationId, IMPLEMENTATION_ERROR, SCHEDULE_ERROR_MESSAGE);
      var reply: Message;
      var name, email, purpose, datetime, location :=
        Get(p, "name"), Get(p, "email"), Get(p, "purpose"), Get(p, "datetime"), Get(p, "location");
      if name == "" || email == "" || purpose == "" || datetime == "" || location == "" {
        reply := failure;
      } else if Get(env.calendars, location) == "" {
        reply := failure;
      } else if session == null {
        // reading the caller number from a missing session raises
        reply := failure;
      } else {
        var data := MeetingData(name, email, purpose, datetime, Get(env.calendars, location));
        effects := effects + [WebhookCall(SCHEDULE_ROUTE, session.callerNumber.GetOr(UNKNOWN_NUMBER), data)];
        match env.webhook
        case WebhookRaised =>
          reply := failure;
        case WebhookJson(message) =>
          reply := ToolResponse(invocationId, message.GetOr(BOOKING_APOLOGY));
      }
      outbox := outbox + [reply];
    }

    /** The state after hangUp on socket `ws`, as decided by PlanHangUp: the
        session found is latched as hanging up, its flags follow the plan, and
        every other session is untouched. */
    twostate predicate HangUpDone(ws: SocketId, invocationId: string, env: Environment)
      reads this, Objects()
    {
      && sessions == old(sessions)
      && var k := FirstMatch(sessions, ws);
         var found := if k.Some? then Some((sessions[k.value].0, old(sessions[k.value].1.Flags()))) else None;
         var plan := PlanHangUp(ws, found, env);
         && outbox == old(outbox) + (if plan.ackSent then [ToolResponse(invocationId, HANG_UP_ACK)] else [])
         && effects == old(effects) + plan.effects
         && (k.Some? ==>
               var s := sessions[k.value].1;
               && s.hangingUp
               && s.Flags() == FlagsAfter(found.value.1, plan, env.exportMarksSent))
         && forall o :: o in Objects() && (k.None? || o != sessions[k.value].1) ==> unchanged(o)
    }

    /** The first try block of hangUp: send the acknowledgement if the session
        (when there is one) is not marked inactive and the engine socket is
        open, then clear the active flag if the session has one. */
    method SendHangUpAck(session: Session?, invocationId: string, env: Environment) returns (sent: bool)
      modifies this`outbox, session
      ensures sent == ((session == null || old(session.ultravoxWsActive).GetOr(true)) &&
                       env.engineSocketOpen && !env.ackSendRaises)
      ensures outbox == old(outbox) + (if sent then [ToolResponse(invocationId, HANG_UP_ACK)] else [])
      ensures session != null ==>
        && session.hangingUp == old(session.hangingUp)
        && session.transcriptSent == old(session.transcriptSent)
        && session.ultravoxWsActive ==
             (if sent && old(session.ultravoxWsActive).Some? then Some(false) else old(session.ultravoxWsActive))
    {
      sent := false;
      var active := if session != null then session.ultravoxWsActive.GetOr(true) else true;
      if active && env.engineSocketOpen && !env.ackSendRaises {
        outbox := outbox + [ToolResponse(invocationId, HANG_UP_ACK)];
        sent := true;
        // without a session the membership test raises, and the except swallows it
        if session != null && session.ultravoxWsActive.Some? {
          session.ultravoxWsActive := Some(false);
        }
      }
    }

    /** The second try block of hangUp, for a session stored under a non-empty
        SID: fetch the call, mark it completed, then export the transcript if it
        was not sent yet. A step that raises skips the ones after it. */
    method EndProviderCall(callSid: string, session: Session, env: Environment)
      requires callSid != ""
      modifies this`effects, session
      ensures effects == old(effects) + ProviderCalls(callSid, old(session.transcriptSent), env)
      ensures session.hangingUp == old(session.hangingUp)
      ensures session.ultravoxWsActive == old(session.ultravoxWsActive)
      ensures session.transcriptSent ==
        (old(session.transcriptSent) || (env.twilioFetchOk && env.twilioUpdateOk && env.exportMarksSent))
    {
      var sid := SanitizeCallSid(callSid);
      effects := effects + [TwilioFetch(sid)];
      if env.twilioFetchOk {
        effects := effects + [TwilioUpdate(sid, CALL_COMPLETED)];
        if env.twilioUpdateOk && !session.transcriptSent {
          effects := effects + [TranscriptExport(callSid)];
          if env.exportMarksSent {
            session.transcriptSent := true;
          }
        }
      }
    }

    /** The hangUp branch: find the session, latch it, acknowledge if the
        engine socket is usable, end the provider call, export the transcript
        once, and always close the engine socket. */
    method HangUp(ws: SocketId, invocationId: string, env: Environment)
      modifies this`outbox, this`effects, Objects()
      ensures HangUpDone(ws, invocationId, env)
      // the latches are never reset
      ensures forall o :: o in Objects() ==>
        (old(o.hangingUp) ==> o.hangingUp) && (old(o.transcriptSent) ==> o.transcriptSent)
    {
      var k := FindSessionBySocket(ws);
      if k.None? {
        var sent := SendHangUpAck(null, invocationId, env);
        effects := effects + [CloseWs(ws)];
      } else {
        HangUpSession(ws, invocationId, env, k.value);
      }
    }

    /** hangUp once the session stored at position `k` has been found. */
    method HangUpSession(ws: SocketId, invocationId: string, env: Environment, k: nat)
      requires FirstMatch(sessions, ws) == Some(k)
      modifies this`outbox, this`effects, sessions[k].1
      ensures HangUpDone(ws, invocationId, env)
    {
      FollowHangUpPlan(ws, invocationId, env, sessions[k].0, sessions[k].1);
    }

    /** The steps of hangUp for a session found under key `callSid`, in the
        order PlanHangUp lays them out. */
    method FollowHangUpPlan(ws: SocketId, invocationId: string, env: Environment, callSid: string, session: Session)
      modifies this`outbox, this`effects, session
      ensures var plan := PlanHangUp(ws, Some((callSid, old(session.Flags()))), env);
        && outbox == old(outbox) + (if plan.ackSent then [ToolResponse(invocationId, HANG_UP_ACK)] else [])
        && effects == old(effects) + plan.effects
        && session.hangingUp
        && session.Flags() == FlagsAfter(old(session.Flags()), plan, env.exportMarksSent)
    {
      ghost var plan := PlanHangUp(ws, Some((callSid, session.Flags())), env);
      ghost var effects0 := effects;

      session.hangingUp := true;
      var sent := SendHangUpAck(session, invocationId, env);
      assert sent == plan.ackSent;
      if callSid != "" {
        EndProviderCall(callSid, session, env);
      }
      effects := effects + [CloseWs(ws)];
      assert effects == effects0 + plan.effects;
    }

    /** The verify branch: one tool response with the identity check's result. */
    method Verify(invocationId: string, p: Params)
      modifies this`outbox
      ensures outbox == old(outbox) + [ToolResponse(invocationId, VerifyResult(p))]
    {
      outbox := outbox + [ToolResponse(invocationId, VerifyResult(p))];
    }

    /** The schedule_meeting branch: ask for the missing fields, or hand over
        to the scheduler, which the dispatcher gives no session. */
    method ScheduleMeeting(invocationId: string, p: Params, env: Environment)
      modifies this`outbox, this`effects
      ensures MissingParams(p) != [] ==>
        outbox == old(outbox) + [ToolResponse(invocationId, MissingParamsMessage(MissingParams(p)))] &&
        effects == old(effects)
      // the scheduler is handed no session, so it always ends in the error result
      ensures MissingParams(p) == [] ==>
        outbox == old(outbox) + [ErrorResult(invocationId, IMPLEMENTATION_ERROR, SCHEDULE_ERROR_MESSAGE)] &&
        effects == old(effects)
    {
      var missing := MissingParams(p);
      if missing != [] {
        outbox := outbox + [ToolResponse(invocationId, MissingParamsMessage(missing))];
      } else {
        HandleScheduleMeeting(null, invocationId, p, env);
      }
    }

    /** The move_to_main_convo branch: the prompt lookup for "main_convo"
        raises before the greeting is built or anything is sent. */
    method MoveToMainConvo(invocationId: string, p: Params, env: Environment) returns (outcome: Outcome)
      modifies this`outbox
      ensures outcome == Raised("Unknown stage type: " + "main_convo")
      ensures outbox == old(outbox)
    {
      var issueType := Get(p, "issue_type");
      var customerName := Get(p, "customer_name");
      Prompts.MainConvoHasNoPrompt(None, env.clockNow);
      // the lookup raises, so neither the voice nor the greeting is ever used
      var prompt := Prompts.GetStagePrompt("main_convo", None, env.clockNow);
      outcome := Raised(prompt.error);
    }

    /** The move_to_call_summary branch: one new-stage message with the summary
        prompt, the summary voice and the fixed transition sentence. */
    method MoveToCallSummary(invocationId: string, env: Environment)
      modifies this`outbox
      ensures outbox == old(outbox) +
        [NewStage(invocationId, StagePayload(Prompts.CALL_SUMMARY_STAGE_PROMPT, Prompts.DEFAULT_VOICE, SUMMARY_TRANSITION))]
    {
      Prompts.CallSummaryPrompt(None, env.clockNow);
      Prompts.CallSummaryVoice();
      var prompt := Prompts.GetStagePrompt("call_summary", None, env.clockNow);
      var voice := Prompts.GetStageVoice("call_summary");
      outbox := outbox + [NewStage(invocationId, StagePayload(prompt.value, voice, SUMMARY_TRANSITION))];
    }

    /** `handle_tool_invocation`: route on the exact tool name. */
    method HandleToolInvocation(ws: SocketId, toolName: string, invocationId: string, p: Params, env: Environment)
      returns (outcome: Outcome)
      modifies this`outbox, this`effects, Objects()
      ensures sessions == old(sessions)
      // only the main-conversation move raises, from the stage lookup, before sending
      ensures outcome.Raised? <==> toolName == MOVE_TO_MAIN_CONVO
      ensures outcome.Raised? ==> outcome.error == "Unknown stage type: " + "main_convo"
      // the latches are never reset
      ensures forall o :: o in Objects() ==>
        (old(o.hangingUp) ==> o.hangingUp) && (old(o.transcriptSent) ==> o.transcriptSent)
      ensures toolName != HANG_UP ==> forall o :: o in Objects() ==> unchanged(o)
      ensures toolName == VERIFY ==>
        outbox == old(outbox) + [ToolResponse(invocationId, VerifyResult(p))] && effects == old(effects)
      ensures toolName == SCHEDULE_MEETING && MissingParams(p) != [] ==>
        outbox == old(outbox) + [ToolResponse(invocationId, MissingParamsMessage(MissingParams(p)))] &&
        effects == old(effects)
      // the scheduler is handed no session, so it always ends in the error result
      ensures toolName == SCHEDULE_MEETING && MissingParams(p) == [] ==>
        outbox == old(outbox) + [ErrorResult(invocationId, IMPLEMENTATION_ERROR, SCHEDULE_ERROR_MESSAGE)] &&
        effects == old(effects)
      ensures toolName == MOVE_TO_MAIN_CONVO ==> outbox == old(outbox) && effects == old(effects)
      ensures toolName == MOVE_TO_CALL_SUMMARY ==>
        outbox == old(outbox) +
          [NewStage(invocationId, StagePayload(Prompts.CALL_SUMMARY_STAGE_PROMPT, Prompts.DEFAULT_VOICE, SUMMARY_TRANSITION))] &&
        effects == old(effects)
      ensures toolName == HANG_UP ==> HangUpDone(ws, invocationId, env)
      // queryCorpus and every name not listed: nothing is sent, nothing is called
      ensures toolName != VERIFY && toolName != SCHEDULE_MEETING && toolName != MOVE_TO_MAIN_CONVO &&
              toolName != MOVE_TO_CALL_SUMMARY && toolName != HANG_UP ==>
        outbox == old(outbox) && effects == old(effects)
    {
      outcome := Returned;
      if toolName == QUERY_CORPUS {
        var question := if "question" in p then Some(p["question"]) else None;
        HandleQueryCorpus(invocationId, question);
      } else if toolName == VERIFY {
        Verify(invocationId, p);
      } else if toolName == SCHEDULE_MEETING {
        ScheduleMeeting(invocationId, p, env);
      } else if toolName == MOVE_TO_MAIN_CONVO {
        outcome := MoveToMainConvo(invocationId, p, env);
      } else if toolName == MOVE_TO_CALL_SUMMARY {
        MoveToCallSummary(invocationId, env);
      } else if toolName == HANG_UP {
        HangUp(ws, invocationId, env);
      }
    }
  }
}
