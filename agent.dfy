/**
 * The SLA evaluator of `backend/agent_langgraph.py`: the three-way
 * classification of one approval against its deadline, the two message
 * templates, and the text generator with its fallback to the template.
 *
 * Time is measured in integer microseconds. With `p` the elapsed microseconds
 * and `s` the SLA in hours, the source's `pending < 0.5 * sla` on fractional
 * hours is `2 * p < MicrosPerHour * s`, and `pending <= sla` is
 * `p <= MicrosPerHour * s`.
 */
module SlaAgent {
  import opened Wrappers
  import opened Records
  import Decimal

  /** The graph's three outcome nodes: no_action, send_reminder, escalate. */
  datatype Action = NoAction | SendReminder | Escalate

  /** What one evaluation returns: the action and, for the two active ones, the message. */
  datatype Outcome = Outcome(action: Action, message: Option<string>)

  const MicrosPerHour: int := 3_600_000_000

  /** The order of urgency: no_action < send_reminder < escalate. */
  function Severity(a: Action): nat {
    match a
    case NoAction => 0
    case SendReminder => 1
    case Escalate => 2
  }

  // ---------------------------------------------------------------------------
  // Text generator

  /** The characters Python's `str.strip()` removes (those for which `isspace()` holds). */
  predicate IsSpace(c: char) {
    var n := c as int;
    n == 0x20 || 0x09 <= n <= 0x0D || 0x1C <= n <= 0x1F || n == 0x85 || n == 0xA0 ||
    n == 0x1680 || 0x2000 <= n <= 0x200A || n == 0x2028 || n == 0x2029 ||
    n == 0x202F || n == 0x205F || n == 0x3000
  }

  /** `s` without its leading whitespace. */
  function TrimStart(s: string): (r: string)
    ensures |r| <= |s| && r == s[|s| - |r|..]
    ensures r != [] ==> !IsSpace(r[0])
    ensures forall i :: 0 <= i < |s| - |r| ==> IsSpace(s[i])
  {
    if s != [] && IsSpace(s[0]) then TrimStart(s[1..]) else s
  }

  /** `s` without its trailing whitespace. */
  function TrimEnd(s: string): (r: string)
    ensures |r| <= |s| && r == s[..|r|]
    ensures r != [] ==> !IsSpace(r[|r| - 1])
    ensures forall i :: |r| <= i < |s| ==> IsSpace(s[i])
  {
    if s != [] && IsSpace(s[|s| - 1]) then TrimEnd(s[..|s| - 1]) else s
  }

  /**
   * Python's `str.strip()`: the result is the slice of `s` that starts after
   * its leading whitespace, drops only whitespace at either end, and neither
   * starts nor ends with whitespace.
   */
  function Strip(s: string): (r: string)
    ensures r != [] ==> !IsSpace(r[0]) && !IsSpace(r[|r| - 1])
    ensures var k := |s| - |TrimStart(s)|;
      && k + |r| <= |s| && r == s[k..k + |r|]
      && (forall i :: 0 <= i < k ==> IsSpace(s[i]))
      && (forall i :: k + |r| <= i < |s| ==> IsSpace(s[i]))
  {
    TrimEnd(TrimStart(s))
  }

  /** `not api_key` in Python: a key counts only when it is set and not empty. */
  predicate KeyConfigured(apiKey: Option<string>) {
    apiKey.Some? && apiKey.value != ""
  }

  /**
   * The environment of one `generate_llm_text` call: the OPENAI_API_KEY
   * variable, and the completion text the service returned (None when the
   * request, its status check or the reading of `choices[0].text` raised).
   */
  datatype TextGen = TextGen(apiKey: Option<string>, reply: Option<string>)

  /**
   * `generate_llm_text`: the prompt itself when no key is configured or the
   * request fails; otherwise the stripped completion.
   */
  function GenerateText(prompt: string, gen: TextGen): (r: string)
    ensures !KeyConfigured(gen.apiKey) || gen.reply.None? ==> r == prompt
    ensures KeyConfigured(gen.apiKey) && gen.reply.Some? ==> r == Strip(gen.reply.value)
  {
    if !KeyConfigured(gen.apiKey) then prompt
    else
      match gen.reply
      case None => prompt
      case Some(text) => Strip(text)
  }

  // ---------------------------------------------------------------------------
  // Message templates

  const ReminderLead: string := "Reminder: Approval "
  const EscalationLead: string := "Escalation: Approval "

  /** `_build_prompt_for_reminder`: the id follows the fixed lead-in. */
  function ReminderPrompt(a: Approval): (r: string)
    ensures ReminderLead + a.id <= r
  {
    ReminderLead + a.id + " for vendor " + a.vendorName +
    " ($" + Decimal.FormatAmount(a.amountCents) + ") is approaching SLA (submitted " +
    a.submittedAt.iso + "). " + "Please review and approve if ready."
  }

  /** `_build_prompt_for_escalation`: the id follows the fixed lead-in. */
  function EscalationPrompt(a: Approval): (r: string)
    ensures EscalationLead + a.id <= r
  {
    EscalationLead + a.id + " for " + a.vendorName +
    " ($" + Decimal.FormatAmount(a.amountCents) + ") has breached SLA (submitted " +
    a.submittedAt.iso + "). " + "Please escalate to the next authority with necessary context."
  }

  /** No reminder template, whatever its approval, reads like an escalation template. */
  lemma TemplatesDiffer(a: Approval, b: Approval)
    ensures ReminderPrompt(a) != EscalationPrompt(b)
  {
    assert ReminderPrompt(a)[0] == (ReminderLead + a.id)[0] == 'R';
    assert EscalationPrompt(b)[0] == (EscalationLead + b.id)[0] == 'E';
  }

  // ---------------------------------------------------------------------------
  // Classification

  /** pending < 0.5 * sla */
  predicate BelowHalf(p: int, sla: int) { 2 * p < MicrosPerHour * sla }

  /** 0.5 * sla <= pending <= sla */
  predicate ReminderBand(p: int, sla: int) { MicrosPerHour * sla <= 2 * p && p <= MicrosPerHour * sla }

  /** pending > sla */
  predicate Breached(p: int, sla: int) { p > MicrosPerHour * sla }

  /** For a non-negative SLA the three ranges are disjoint and cover every elapsed time. */
  lemma BandsPartition(p: int, sla: int)
    requires sla >= 0
    ensures BelowHalf(p, sla) || ReminderBand(p, sla) || Breached(p, sla)
    ensures !(BelowHalf(p, sla) && ReminderBand(p, sla))
    ensures !(BelowHalf(p, sla) && Breached(p, sla))
    ensures !(ReminderBand(p, sla) && Breached(p, sla))
  {
  }

  /** The graph state `run_once` builds: pending time, SLA, level, and the raw approval. */
  datatype State = State(
    approvalId: string,
    pendingMicros: int,
    slaHours: int,
    escalationLevel: int,
    approval: Approval)

  /** The state for one approval evaluated at `now`: pending time is `now - submitted_at`. */
  function StateOf(a: Approval, now: Instant): (st: State)
    ensures st.pendingMicros + a.submittedAt.micros == now.micros
    ensures st.slaHours == a.slaHours && st.approval == a && st.approvalId == a.id
  {
    State(a.id, now.micros - a.submittedAt.micros, a.slaHours, a.escalationLevel, a)
  }

  /**
   * `SimpleLangGraph.run`: the conditions are tried in order and the first
   * that holds decides; the final default is never reached, because
   * no_action is chosen exactly when the elapsed time is below half the SLA.
   */
  function Run(st: State, gen: TextGen): (r: Outcome)
    ensures var p, s := st.pendingMicros, st.slaHours;
      && (r.action == NoAction <==> BelowHalf(p, s))
      && (r.action == SendReminder <==> !BelowHalf(p, s) && ReminderBand(p, s))
      && (r.action == Escalate <==> !BelowHalf(p, s) && Breached(p, s))
    ensures r.action == NoAction ==> r.message == None
    ensures r.action == SendReminder ==> r.message == Some(GenerateText(ReminderPrompt(st.approval), gen))
    ensures r.action == Escalate ==> r.message == Some(GenerateText(EscalationPrompt(st.approval), gen))
  {
    var pending, sla := st.pendingMicros, st.slaHours;
    if 2 * pending < MicrosPerHour * sla then
      Outcome(NoAction, None)
    else if MicrosPerHour * sla <= 2 * pending && pending <= MicrosPerHour * sla then
      Outcome(SendReminder, Some(GenerateText(ReminderPrompt(st.approval), gen)))
    else if pending > MicrosPerHour * sla then
      Outcome(Escalate, Some(GenerateText(EscalationPrompt(st.approval), gen)))
    else
      Outcome(NoAction, None)
  }

  /** `check_sla_fn`, the transition function of the graph path: the first matching range picks the node. */
  function CheckSla(pending: int, sla: int): (r: Action)
    ensures r == NoAction <==> BelowHalf(pending, sla)
    ensures r == SendReminder <==> !BelowHalf(pending, sla) && ReminderBand(pending, sla)
    ensures r == Escalate <==> !BelowHalf(pending, sla) && !ReminderBand(pending, sla)
  {
    if 2 * pending < MicrosPerHour * sla then NoAction
    else if MicrosPerHour * sla <= 2 * pending && pending <= MicrosPerHour * sla then SendReminder
    else Escalate
  }

  /**
   * The graph path of `run_once`: choose a node with `check_sla_fn`, then
   * build its result; only the two active nodes carry a message.
   */
  function GraphRun(st: State, gen: TextGen): (r: Outcome)
    ensures r.action == CheckSla(st.pendingMicros, st.slaHours)
    ensures r.message.None? <==> r.action == NoAction
    ensures r.action == SendReminder ==> r.message == Some(GenerateText(ReminderPrompt(st.approval), gen))
    ensures r.action == Escalate ==> r.message == Some(GenerateText(EscalationPrompt(st.approval), gen))
  {
    var next := CheckSla(st.pendingMicros, st.slaHours);
    if next == NoAction then Outcome(NoAction, None)
    else if next == SendReminder then Outcome(SendReminder, Some(GenerateText(ReminderPrompt(st.approval), gen)))
    else Outcome(Escalate, Some(GenerateText(EscalationPrompt(st.approval), gen)))
  }

  /** The graph path and the fallback state machine agree on every state. */
  lemma GraphRunAgrees(st: State, gen: TextGen)
    ensures CheckSla(st.pendingMicros, st.slaHours) == Run(st, gen).action
    ensures GraphRun(st, gen) == Run(st, gen)
  {
  }

  /**
   * `run_once`: evaluate one approval at the instant `now`. The action is
   * decided by the time elapsed since submission against the approval's SLA.
   */
  function RunOnce(a: Approval, now: Instant, gen: TextGen): (r: Outcome)
    ensures var p := now.micros - a.submittedAt.micros;
      && (r.action == NoAction <==> BelowHalf(p, a.slaHours))
      && (r.action == SendReminder <==> !BelowHalf(p, a.slaHours) && ReminderBand(p, a.slaHours))
      && (r.action == Escalate <==> !BelowHalf(p, a.slaHours) && Breached(p, a.slaHours))
    ensures r.message.None? <==> r.action == NoAction
    ensures r.action == SendReminder ==> r.message == Some(GenerateText(ReminderPrompt(a), gen))
    ensures r.action == Escalate ==> r.message == Some(GenerateText(EscalationPrompt(a), gen))
  {
    Run(StateOf(a, now), gen)
  }

  // ---------------------------------------------------------------------------
  // Properties of one evaluation

  /**
   * Only the elapsed time and the SLA decide the action: two approvals with
   * the same SLA evaluated after the same elapsed time get the same action,
   * whatever their escalation level or other fields, and whatever the text
   * generator does.
   */
  lemma ActionDependsOnElapsedAndSla(a: Approval, now: Instant, g: TextGen, b: Approval, later: Instant, h: TextGen)
    requires a.slaHours == b.slaHours
    requires now.micros - a.submittedAt.micros == later.micros - b.submittedAt.micros
    ensures RunOnce(a, now, g).action == RunOnce(b, later, h).action
  {
  }

  /** The escalation level has no influence on the outcome, message included. */
  lemma LevelIrrelevant(a: Approval, level: int, now: Instant, gen: TextGen)
    ensures RunOnce(a.(escalationLevel := level), now, gen) == RunOnce(a, now, gen)
  {
  }

  /** A later evaluation of the same approval is never less urgent, for any SLA. */
  lemma SeverityMonotoneInTime(a: Approval, now: Instant, later: Instant, g: TextGen, h: TextGen)
    requires now.micros <= later.micros
    ensures Severity(RunOnce(a, now, g).action) <= Severity(RunOnce(a, later, h).action)
  {
  }

  /** Without an API key, or when the request fails, the message is the template itself. */
  lemma FallbackIsTemplate(a: Approval, now: Instant, gen: TextGen)
    requires !KeyConfigured(gen.apiKey) || gen.reply.None?
    ensures var r := RunOnce(a, now, gen);
      && (r.action == SendReminder ==> r.message == Some(ReminderPrompt(a)))
      && (r.action == Escalate ==> r.message == Some(EscalationPrompt(a)))
  {
  }

  /** Boundaries: exactly half the SLA and exactly the SLA both give a reminder. */
  lemma BoundariesAreReminders(a: Approval, now: Instant, gen: TextGen)
    requires a.slaHours >= 0
    requires 2 * (now.micros - a.submittedAt.micros) == MicrosPerHour * a.slaHours
          || now.micros - a.submittedAt.micros == MicrosPerHour * a.slaHours
    ensures RunOnce(a, now, gen).action == SendReminder
  {
  }

  /** Hours to microseconds, for the examples below. */
  function Hours(h: int): int { h * MicrosPerHour }

  /** 30 hours into a 24-hour SLA: escalate; 30 into 48: remind; 10 into 72: nothing. */
  lemma Examples(a: Approval, now: Instant, gen: TextGen)
    ensures now.micros - a.submittedAt.micros == Hours(30) && a.slaHours == 24 ==> RunOnce(a, now, gen).action == Escalate
    ensures now.micros - a.submittedAt.micros == Hours(30) && a.slaHours == 48 ==> RunOnce(a, now, gen).action == SendReminder
    ensures now.micros - a.submittedAt.micros == Hours(10) && a.slaHours == 72 ==> RunOnce(a, now, gen).action == NoAction
  {
  }
}
