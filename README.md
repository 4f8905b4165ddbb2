# Tool dispatcher and stage lookups of the VoxFlow voice bridge

VoxFlow relays a phone call between the telephony provider and an AI voice
engine. During the call the engine asks the bridge to run named tools. This
project models the dispatcher that answers those requests, and the two
lookups it uses to switch call stages:

- `handle_tool_invocation` in `app/services/tools_service.py`. It routes on the
  exact tool name:
  - `queryCorpus` does nothing;
  - `verify` runs the identity check;
  - `schedule_meeting` validates the meeting fields and hands over to the
    meeting scheduler (`handle_schedule_meeting`);
  - `move_to_main_convo` and `move_to_call_summary` are stage moves;
  - `hangUp` ends the call;
  - any other name is ignored.
- `get_stage_prompt` and `get_stage_voice` in `app/core/prompts.py`, with the
  `STAGE_VOICES` table.

Layout:

- `Wrappers.dfy`: `Option` and `Result`.
- `Strings.dfy`: the parts of Python's `str` that the code relies on: `lower`
  (ASCII), `find` and `in`, and `join`. It also defines an order-preserving
  subsequence predicate.
- `Prompts.dfy`: `str.format(now=...)` on a template, `GetStagePrompt`,
  `GetStageVoice` and `STAGE_VOICES`.
- `ToolsService.dfy`: the messages sent to the engine and the collaborator
  calls, as datatypes. It also holds:
  - the pure decisions of each branch, as functions: `VerifyResult`,
    `MissingParams`, `ScheduleMeetingReply`, `SanitizeCallSid`, `PlanHangUp`;
  - the mutable state, as classes:
    - `Session` is one entry of the shared sessions table, with the latches
      `hangingUp` and `transcriptSent` and the `ultravox_ws_active` flag.
    - `Bridge` holds the sessions table in insertion order, the messages
      written to the engine socket (`outbox`), and the collaborator calls made
      (`effects`).

  The imperative methods on `Bridge` are proved against the pure functions.
  The method `HandleToolInvocation` is the dispatcher.

Whatever the collaborators answer is an input, collected in
`ToolsService.Environment`. This covers:

- whether the engine socket is open;
- whether sending the hang-up acknowledgement raises;
- whether the provider's fetch and update succeed;
- whether the transcript export sets `transcript_sent`;
- the webhook's reply;
- the calendar table;
- the clock.

Behaviour worth knowing:

- The agent's own instructions (app/core/prompts.py:23-31) collect the full
  name, the date of birth and the policy number. But `verify`
  (app/services/tools_service.py:33-41) confirms exactly when `full_name` and
  `phone_number` are both given. So a name, a date of birth and a policy number
  without a phone number give "Not Confirmed"; see
  `VerifyWithoutPhoneNotConfirmed`.
- `hangUp` does not look at the `hanging_up` latch. Calling it twice contacts
  the provider twice. The transcript goes out only once, and only if the export
  sets `transcript_sent` (`HangUpTwiceExportsOnce`). Only the engine socket is
  closed, and the session is not removed from the table.
- `hangUp` may send no acknowledgement at all: when the session is marked
  inactive, the socket is not open, or the send raises.
- The dispatcher calls the meeting scheduler with no session. Reading the
  caller number from it raises, so a complete `schedule_meeting` request
  always ends in the scheduler's error result, and the webhook is never called.
- `move_to_main_convo` asks `get_stage_prompt` for "main_convo", which has no
  template. It raises `ValueError("Unknown stage type: main_convo")` out of the
  dispatcher before anything is sent.
- `get_stage_prompt` formats templates that were already filled in, with the
  time of import, by an f-string. The `current_time` argument therefore never
  appears in the result (`StagePromptIgnoresTime`).

## Model

| member | source | states |
|---|---|---|
| Strings.Lower | app/core/prompts.py:209-211 | `str.lower` on ASCII: same length, each letter A-Z mapped to its lower-case form, everything else kept |
| Strings.LowerIdempotent | app/core/prompts.py:233 | lowering an already lowered name changes nothing |
| Strings.IndexOf | app/services/tools_service.py:171-172 | `find`: the index of the first occurrence of the pattern, or none when it occurs nowhere (so `'CA' in s` holds exactly when it is found) |
| Strings.Join | app/services/tools_service.py:61 | `sep.join`: empty for no elements; otherwise it starts with the first element, and its length is the total length of the elements plus one separator between each two |
| Strings.JoinSnoc | app/services/tools_service.py:61 | joining one more element gives the earlier join, then the separator, then that element; so every element after the first follows a separator, in list order |
| Prompts.FormatBraceFree | app/core/prompts.py:210-212 | `format(now=...)` returns a template without braces unchanged, whatever the time |
| Prompts.FormatNow | app/core/prompts.py:210-212 | `format(now=...)` raises only on a template that has a brace |
| Prompts.ManagerTemplateBraceFree | app/core/prompts.py:82-146 | the manager template has no brace left once its f-string is evaluated |
| Prompts.SummaryTemplateBraceFree | app/core/prompts.py:149-192 | the call-summary template has no brace left once its f-string is evaluated |
| Prompts.GetStagePrompt | app/core/prompts.py:194-214 | a prompt is returned exactly when the lowered name is "manager" or "call_summary", and it is that stage's template; every other name raises "Unknown stage type: " followed by the name as given |
| Prompts.StagePromptIgnoresTime | app/core/prompts.py:207-212 | the answer is the same whatever time is passed or read from the clock |
| Prompts.MainConvoHasNoPrompt | app/core/prompts.py:209-214 | "main_convo" raises "Unknown stage type: main_convo" |
| Prompts.CallSummaryPrompt | app/core/prompts.py:211-212 | "call_summary" gets the call-summary template |
| Prompts.LowercasePromptLookup | app/core/prompts.py:209-214 | for a lower-case name: "manager" and "call_summary" get their templates, every other name (including "claim_handling") raises naming it |
| Prompts.GetStageVoice | app/core/prompts.py:217-233 | never raises; the voice is "Mark" exactly when the lowered name is "manager", otherwise "Tanya-English" |
| Prompts.GetStageVoiceCaseInsensitive | app/core/prompts.py:233 | the voice depends only on the lowered name |
| Prompts.LowercaseVoiceLookup | app/core/prompts.py:217-221 | for a lower-case name, "manager" gets "Mark" and every other name, in the table or not, gets "Tanya-English" |
| Prompts.CallSummaryVoice | app/core/prompts.py:217-221 | "call_summary" speaks with "Tanya-English" |
| Prompts.UpperCaseManagerVoice | app/core/prompts.py:233 | letter case is ignored: "MANAGER" gets "Mark" |
| ToolsService.VerifyResult | app/services/tools_service.py:33-41 | "Confirmed" exactly when `full_name` and `phone_number` are both present and non-empty, otherwise "Not Confirmed" |
| ToolsService.VerifyReadsOnlyNameAndPhone | app/services/tools_service.py:33-37 | two parameter maps that agree on whether name and phone are given get the same answer |
| ToolsService.VerifyWithoutPhoneNotConfirmed | app/services/tools_service.py:33-41 | name, date of birth and policy number without a phone number are not confirmed |
| ToolsService.MissingAmong | app/services/tools_service.py:55 | the names whose parameter is missing or empty, each of them and no other, in the order of the input list |
| ToolsService.MissingAmongCounts | app/services/tools_service.py:55 | a name whose parameter is missing or empty is listed exactly as many times as it occurs in the input list; a given name is not listed at all |
| ToolsService.MissingParams | app/services/tools_service.py:53-55 | the missing meeting fields are exactly the required ones not given, in the order name, email, purpose, datetime, location; none is missing exactly when all are given |
| ToolsService.MissingParamsMessage | app/services/tools_service.py:61 | the prompt is the fixed prefix, then the missing names joined by ", ", then "." |
| ToolsService.NoneMissingIff | app/services/tools_service.py:53-57 | nothing is missing exactly when all five fields are present and non-empty |
| ToolsService.MessageForTwo | app/services/tools_service.py:61 | two missing fields are listed joined by ", " between the fixed prefix and a final "." |
| ToolsService.SecondAndLastMissing | app/services/tools_service.py:55 | with the second and fifth of five fields missing, exactly those two are reported, in order |
| ToolsService.MissingEmailAndLocation | app/services/tools_service.py:53-61 | without email and location, the missing list is ["email", "location"] and the prompt names them in that order |
| ToolsService.ScheduleMeetingReply | app/services/tools_service.py:218-280 | exactly one message, for the same invocation and never a stage change; the webhook is called at most once, exactly when all fields are given, the location has a calendar and there is a session, and then with route "3", the caller number (or "Unknown") and the meeting data; a tool response comes exactly when the webhook was called and answered, with its message or the apology; every other outcome is the fixed implementation error |
| ToolsService.GreetingNamesCustomer | app/services/tools_service.py:84 | the greeting differs from the anonymous one exactly when a name is given, and then it is the anonymous greeting with ", " and the name inserted right after the opening sentence |
| ToolsService.MainConvoGreeting | app/services/tools_service.py:84 | the greeting always starts with the fixed opening sentence |
| ToolsService.PersonalisedInsertsName | app/services/tools_service.py:84 | for any opening and rest, the text with a name differs from the one without exactly when the name is not empty, and then by ", " and the name right after the opening |
| ToolsService.SanitizeCallSid | app/services/tools_service.py:170-175 | a SID longer than 34 characters with 34 characters available from its first "CA" is cut to exactly those 34 characters; any other SID is kept, and a changed SID is always that cut |
| ToolsService.SanitizeCallSidIdempotent | app/services/tools_service.py:170-175 | cleaning a SID twice is cleaning it once |
| ToolsService.PlanHangUpSound | app/services/tools_service.py:125-193 | the acknowledgement goes out exactly when the session is not marked inactive, the socket is open and the send does not raise; the active flag is cleared only after it and only if present; the provider is contacted only for a non-empty SID, fetch first with the cleaned SID, and the update happens exactly when the fetch succeeded; the plan exports exactly when the provider steps succeeded and the transcript was not sent yet |
| ToolsService.PlanHangUp | app/services/tools_service.py:139-193 | closing the engine socket is always attempted, once, as the last step |
| ToolsService.PlanHangUpExportsOnce | app/services/tools_service.py:183-186 | every export step names the session found and happens only when the plan exports; it is present when the plan exports, and never twice |
| ToolsService.PlanHangUpExportAfterUpdate | app/services/tools_service.py:178-186 | the transcript export comes after the call was marked completed |
| ToolsService.ProviderCalls | app/services/tools_service.py:164-190 | one to three calls, the first a fetch of the cleaned SID; an update exactly when the fetch succeeded; an export of the session exactly when fetch and update succeeded and the transcript was not sent; never a webhook call or a socket close |
| ToolsService.HangUpTwiceExportsOnce | app/services/tools_service.py:164-190 | hanging up the same session twice, whatever the second call meets: a transcript exported (and marked sent) the first time is not exported again, an acknowledgement that cleared the active flag is not sent again, and the provider is fetched again with the same cleaned SID |
| ToolsService.FirstMatch | app/services/tools_service.py:131-136 | the position of the first session, in table order, whose engine socket is the caller's, or none if no session has it |
| ToolsService.Bridge.FindSessionBySocket | app/services/tools_service.py:131-136 | the loop over the table stops at the first session whose engine socket matches, which is FirstMatch |
| ToolsService.Bridge.HandleQueryCorpus | app/services/tools_service.py:198-215 | nothing is sent and nothing is called |
| ToolsService.Bridge.HandleScheduleMeeting | app/services/tools_service.py:218-280 | the one message sent and the webhook call made are those of ScheduleMeetingReply |
| ToolsService.Bridge.SendHangUpAck | app/services/tools_service.py:145-162 | the acknowledgement is sent exactly when the session is not marked inactive, the socket is open and the send does not raise; then an existing active flag is set to false; the latches are untouched |
| ToolsService.Bridge.EndProviderCall | app/services/tools_service.py:164-190 | the calls made are fetch, then update if the fetch succeeded, then export if the update succeeded and the transcript was not sent; the transcript is marked sent only when the export does it |
| ToolsService.Bridge.HangUp | app/services/tools_service.py:125-193 | the new state is the one PlanHangUp decides for the first matching session (HangUpDone), whose flags become `FlagsAfter` of the old ones, the same update `HangUpTwiceExportsOnce` applies between its two calls; no latch is ever reset |
| ToolsService.Bridge.HangUpSession | app/services/tools_service.py:139-193 | with the session found at position k, the new state is the planned one and no other session changes |
| ToolsService.Bridge.FollowHangUpPlan | app/services/tools_service.py:139-193 | the messages, calls and session flags follow PlanHangUp for that session, and the hanging-up latch is set |
| ToolsService.Bridge.Verify | app/services/tools_service.py:30-49 | one tool response carrying VerifyResult |
| ToolsService.Bridge.ScheduleMeeting | app/services/tools_service.py:51-70 | with fields missing, one tool response naming them and no call; with none missing, the fixed implementation error and no webhook call, because no session is passed |
| ToolsService.Bridge.MoveToMainConvo | app/services/tools_service.py:72-99 | raises "Unknown stage type: main_convo" and sends nothing |
| ToolsService.Bridge.MoveToCallSummary | app/services/tools_service.py:101-123 | one new-stage message with the call-summary template, the "Tanya-English" voice and the fixed transition sentence |
| ToolsService.Bridge.HandleToolInvocation | app/services/tools_service.py:19-195 | routing on the exact name: only move_to_main_convo raises; only hangUp touches a session, and no latch is reset; each branch sends and calls what its handler states; queryCorpus and unknown names send and call nothing; the sessions table is never changed |

## Left out

- Socket I/O and JSON serialisation are abstracted. A message written to the engine socket is a `Message` value appended to `outbox`, and the JSON text is not modelled.
- Only the hang-up acknowledgement is modelled as a send that can fail. The other sends are assumed to succeed; a failing one would propagate out of the dispatcher.
- The webhook, the provider's REST client, the transcript export and `safe_close_websocket` are not modelled. Each call is recorded as an `Effect`, and its outcome is an input in `Environment`. A failure to build the provider client counts as a failed fetch.
- What `send_transcript_to_n8n` does to the session is given only by `Environment.exportMarksSent`; that function is not part of this model.
- The clock read by `get_stage_prompt` is the input `clockNow`.
- The prompt templates are business copy. They are replaced by distinct stand-in strings that, like the evaluated f-strings, contain no brace.
- `Strings.Lower` maps only ASCII letters. Python's Unicode case mapping is not modelled.
- `Prompts.FormatNow` covers the part of `str.format` these templates can reach: `{{`, `}}`, `{now}`, and an error for any other brace.
- Tool parameters are modelled as a map from names to strings. Non-string JSON values and their truthiness are not modelled.
- `issue_details` is read by the main-conversation branch but never used, so it is not modelled.
- Concurrency is not modelled: other tasks touching the same session between awaits. The dispatcher runs as one atomic step.
- Logging, `print` and `traceback` output are not modelled.
- The engine-session setup in `app/services/ultravox_service.py` and the entry points in `app/main.py` and `main.py` are not part of this model. Neither is the older copy under "Ultravox & Twillio Voice AI Agent Call Stages".
- ToolsService.Bridge.HandleToolInvocation: the `uv_ws` handle is assumed to be non-null.
