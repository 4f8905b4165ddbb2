/** The stage lookups of app/core/prompts.py: which system prompt and which
    voice the AI engine gets for a named call stage.

    The prompt templates are business copy. Here each one is an opaque stand-in
    string; what matters is that the templates are distinct and that, like the
    real ones once the module-level timestamp has been filled in at import
    time, they contain no brace. */
module Prompts {
  import opened Wrappers
  import opened Strings

  const MANAGER_STAGE_PROMPT: string := "<manager stage prompt>"
  const CALL_SUMMARY_STAGE_PROMPT: string := "<call summary stage prompt>"

  const DEFAULT_VOICE: string := "Tanya-English"

  /** Voice identifier per stage name. */
  const STAGE_VOICES: map<string, string> := map[
    "claim_handling" := "Tanya-English",
    "manager" := "Mark",
    "call_summary" := "Tanya-English"
  ]

  predicate BraceFree(t: string) {
    '{' !in t && '}' !in t
  }

  function Prepend(p: string, r: Result<string>): Result<string> {
    if r.Ok? then Ok(p + r.value) else r
  }

  /** `t.format(now=value)`: `{{` and `}}` stand for single braces, `{now}` is
      replaced by `value`, and any other brace makes Python raise. */
  function FormatNow(t: string, value: string): (r: Result<string>)
    ensures r.Err? ==> '{' in t || '}' in t
    decreases |t|
  {
    if t == [] then Ok("")
    else if |t| >= 2 && t[..2] == "{{" then Prepend("{", FormatNow(t[2..], value))
    else if |t| >= 2 && t[..2] == "}}" then Prepend("}", FormatNow(t[2..], value))
    else if |t| >= 5 && t[..5] == "{now}" then Prepend(value, FormatNow(t[5..], value))
    else if t[0] == '{' then Err("invalid replacement field in format string")
    else if t[0] == '}' then Err("Single '}' encountered in format string")
    else Prepend([t[0]], FormatNow(t[1..], value))
  }

  /** A template without braces comes back from `format` unchanged, whatever
      time is passed in. */
  lemma {:induction false} FormatBraceFree(t: string, value: string)
    requires BraceFree(t)
    ensures FormatNow(t, value) == Ok(t)
  {
    if t != [] {
      assert t[0] in t;
      assert |t| >= 2 ==> t[..2][0] == t[0];
      assert |t| >= 5 ==> t[..5][0] == t[0];
      assert BraceFree(t[1..]) by {
        assert forall c :: c in t[1..] ==> c in t;
      }
      FormatBraceFree(t[1..], value);
      assert [t[0]] + t[1..] == t;
    }
  }

  /** Neither template has a brace left in it. */
  lemma ManagerTemplateBraceFree()
    ensures BraceFree(MANAGER_STAGE_PROMPT)
  {
  }

  lemma SummaryTemplateBraceFree()
    ensures BraceFree(CALL_SUMMARY_STAGE_PROMPT)
  {
  }

  /** `get_stage_prompt(stage_type, current_time)`. A missing `current_time` is
      read from the clock, given here as `clockNow`. Only "manager" and
      "call_summary" (in any letter case) have a prompt; every other name,
      "claim_handling" and "main_convo" included, raises ValueError. The time
      never shows in the result. */
  function GetStagePrompt(stageType: string, currentTime: Option<string>, clockNow: string): (r: Result<string>)
    ensures r.Ok? <==> Lower(stageType) == "manager" || Lower(stageType) == "call_summary"
    ensures Lower(stageType) == "manager" ==> r == Ok(MANAGER_STAGE_PROMPT)
    ensures Lower(stageType) == "call_summary" ==> r == Ok(CALL_SUMMARY_STAGE_PROMPT)
    ensures r.Err? ==> r.error == "Unknown stage type: " + stageType
  {
    var now := currentTime.GetOr(clockNow);
    ManagerTemplateBraceFree();
    SummaryTemplateBraceFree();
    if Lower(stageType) == "manager" then
      FormatBraceFree(MANAGER_STAGE_PROMPT, now);
      FormatNow(MANAGER_STAGE_PROMPT, now)
    else if Lower(stageType) == "call_summary" then
      FormatBraceFree(CALL_SUMMARY_STAGE_PROMPT, now);
      FormatNow(CALL_SUMMARY_STAGE_PROMPT, now)
    else
      Err("Unknown stage type: " + stageType)
  }

  /** The time passed in, or read from the clock, never changes the answer:
      the templates were already filled in with the time of import. */
  lemma StagePromptIgnoresTime(stageType: string, t1: Option<string>, c1: string, t2: Option<string>, c2: string)
    ensures GetStagePrompt(stageType, t1, c1) == GetStagePrompt(stageType, t2, c2)
  {
  }

  lemma MainConvoIsLowercase()
    ensures Lower("main_convo") == "main_convo"
  {
    LowerNoUpper("main_convo");
  }

  lemma CallSummaryIsLowercase()
    ensures Lower("call_summary") == "call_summary"
  {
    LowerNoUpper("call_summary");
  }

  /** "main_convo" has no prompt: asking for it raises. */
  lemma MainConvoHasNoPrompt(currentTime: Option<string>, clockNow: string)
    ensures GetStagePrompt("main_convo", currentTime, clockNow) == Err("Unknown stage type: " + "main_convo")
  {
    MainConvoIsLowercase();
  }

  /** The call-summary stage has the summary template. */
  lemma CallSummaryPrompt(currentTime: Option<string>, clockNow: string)
    ensures GetStagePrompt("call_summary", currentTime, clockNow) == Ok(CALL_SUMMARY_STAGE_PROMPT)
  {
    CallSummaryIsLowercase();
  }

  /** The call-summary stage speaks with the default voice. */
  lemma CallSummaryVoice()
    ensures GetStageVoice("call_summary") == DEFAULT_VOICE
  {
    CallSummaryIsLowercase();
  }

  /** For a name already in lower case: the two names with a template, and an
      error naming the stage for every other one. */
  lemma LowercasePromptLookup(stageType: string, currentTime: Option<string>, clockNow: string)
    requires NoUpper(stageType)
    ensures GetStagePrompt(stageType, currentTime, clockNow) ==
      if stageType == "manager" then Ok(MANAGER_STAGE_PROMPT)
      else if stageType == "call_summary" then Ok(CALL_SUMMARY_STAGE_PROMPT)
      else Err("Unknown stage type: " + stageType)
  {
    LowerNoUpper(stageType);
  }

  /** `get_stage_voice(stage_type)`: never raises; "manager" in any letter case
      gets "Mark", every other name the default "Tanya-English". */
  function GetStageVoice(stageType: string): (v: string)
    ensures v == "Mark" || v == DEFAULT_VOICE
    ensures v == "Mark" <==> Lower(stageType) == "manager"
  {
    var key := Lower(stageType);
    if key in STAGE_VOICES then STAGE_VOICES[key] else DEFAULT_VOICE
  }

  /** The voice depends only on the lowered stage name. */
  lemma {:induction false} GetStageVoiceCaseInsensitive(stageType: string)
    ensures GetStageVoice(stageType) == GetStageVoice(Lower(stageType))
  {
    LowerIdempotent(stageType);
  }

  /** For a name already in lower case: "manager" gets "Mark", and every other
      name, whether "claim_handling", "call_summary" or one outside the table,
      gets "Tanya-English". */
  lemma LowercaseVoiceLookup(stageType: string)
    requires NoUpper(stageType)
    ensures GetStageVoice(stageType) == if stageType == "manager" then "Mark" else "Tanya-English"
  {
    LowerNoUpper(stageType);
  }

  /** Letter case does not matter: "MANAGER" is the manager's voice. */
  lemma UpperCaseManagerVoice()
    ensures GetStageVoice("MANAGER") == "Mark"
  {
    assert Lower("MANAGER") == "manager";
  }
}
