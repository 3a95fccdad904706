# Purchase approval tracker: SLA agent and approval workflow

The tracker stores purchase approval requests. Each request has a vendor, an
amount, a list of approvers, a status (PENDING, APPROVED or ESCALATED), a
submission time, an SLA in hours, the time of its last reminder and an
escalation level from 0 to 2. Every change is recorded in an append-only
audit log.

An "agent run" takes one reading of the clock and walks all stored approvals.
It skips any that are not PENDING and asks an SLA evaluator about the rest:

- under half the SLA elapsed: nothing happens;
- from half the SLA up to the SLA, both inclusive: a reminder entry is
  logged and `last_reminder_at` is set;
- past the SLA: an escalation, with the level raised (capped at 2) and the
  status set to ESCALATED.

The reminder and escalation messages come from fixed templates. A language
model service may rewrite them. Without an API key, or when the request
fails, the template itself is used. Users can mark an approval APPROVED, and
demo approvals can be created.

The project has five modules:

- `Wrappers` (`wrappers.dfy`) holds the optional value.
- `Records` (`records.dfy`) holds the stored rows: approvals, audit entries, actors and their labels, and the well-formedness of a stored record.
- `Decimal` (`decimal.dfy`) prints integers and two-decimal amounts the way Python's `str` does for the amounts the tracker creates. It also parses the printed amount back.
- `SlaAgent` (`agent.dfy`) is the evaluator of `backend/agent_langgraph.py`. It is pure functions over an `Action` datatype, with time in integer microseconds.
- `Backend` (`backend.dfy`) is `backend/main.py`. A `Service` object holds the approvals table as `map<string, Approval>` and the audit table as `seq<AuditEntry>`. Its methods are the endpoints. The agent run is a loop proved against the specification function `TakenOf`. The functions and lemmas beside it state the run's properties.

Time is kept as integer microseconds, the resolution of Python's `datetime`.
With `p` the elapsed microseconds and `s` the SLA in hours:

- the source's `pending < 0.5 * sla` on fractional hours is `2 * p < 3_600_000_000 * s`;
- its `pending <= sla` is `p <= 3_600_000_000 * s`.

Each element of the `actions` list a run returns is
`{"id": …, "action": "reminder" | "escalation"}` (backend/main.py:117, 131).

For a negative `sla_hours` the three ranges overlap. The chain of conditions then picks `no_action` whenever the elapsed time is below half the SLA. `SlaAgent.Run` states the choice for every SLA. The partition lemma is stated for `sla_hours >= 0`, which covers every SLA the tracker creates.

## Model

| member | source | states |
|---|---|---|
| SlaAgent.Run | backend/agent_langgraph.py:78-99 | no_action exactly when elapsed is below half the SLA (message None); send_reminder exactly when it is not below half and at most the SLA (message: generated from the reminder template); escalate exactly when it is not below half and past the SLA (message: generated from the escalation template); so the trailing default is never taken |
| SlaAgent.BandsPartition | backend/agent_langgraph.py:83-98 | for a non-negative SLA the three ranges are pairwise disjoint and cover every elapsed time |
| SlaAgent.BoundariesAreReminders | backend/agent_langgraph.py:86 | elapsed exactly half the SLA, or exactly the SLA, gives send_reminder (both bounds inclusive) |
| SlaAgent.GraphRunAgrees | backend/agent_langgraph.py:127-145 | `check_sla_fn` chooses the same node as `SimpleLangGraph.run`, and the graph path returns the same action and message for every state |
| SlaAgent.StateOf | backend/agent_langgraph.py:105-113 | defines the graph state: pending time `now - submitted_at`, with the approval's SLA, id and record |
| SlaAgent.RunOnce | backend/agent_langgraph.py:103-152 | with `p = now - submitted_at`: no_action exactly when `p` is below half the SLA, send_reminder exactly when it is not below half and at most the SLA, escalate exactly when it is not below half and past the SLA; only the two active actions carry a message, generated from their template |
| SlaAgent.CheckSla | backend/agent_langgraph.py:127-134 | no_action exactly below half the SLA; send_reminder exactly when not below half and at most the SLA; escalate in every other case |
| SlaAgent.GraphRun | backend/agent_langgraph.py:136-145 | the action is the node `check_sla_fn` chooses; there is a message exactly for the two active nodes, generated from their template |
| SlaAgent.ActionDependsOnElapsedAndSla | backend/agent_langgraph.py:105-113 | two evaluations with the same SLA and the same elapsed time choose the same action, whatever the other fields and the text generator |
| SlaAgent.LevelIrrelevant | backend/agent_langgraph.py:111 | changing the escalation level changes neither the action nor the message |
| SlaAgent.SeverityMonotoneInTime | backend/agent_langgraph.py:83-98 | evaluating the same approval later never yields a less severe action (no_action < reminder < escalate), for every SLA |
| SlaAgent.Examples | backend/agent_langgraph.py:83-98 | 30 elapsed hours on a 24-hour SLA escalate, on a 48-hour SLA remind; 10 hours on a 72-hour SLA do nothing |
| SlaAgent.GenerateText | backend/agent_langgraph.py:30-49 | the prompt itself when the key is unset or empty or the request fails; otherwise the stripped completion |
| SlaAgent.FallbackIsTemplate | backend/agent_langgraph.py:35-49 | without a key or with a failed request, a reminder's or escalation's message is exactly its template |
| SlaAgent.Strip | backend/agent_langgraph.py:47 | `str.strip()`: the result is a slice of the input that drops only whitespace at either end and neither starts nor ends with whitespace |
| SlaAgent.TrimStart | backend/agent_langgraph.py:47 | a suffix of the input, preceded only by whitespace and not starting with whitespace |
| SlaAgent.TrimEnd | backend/agent_langgraph.py:47 | a prefix of the input, followed only by whitespace and not ending with whitespace |
| SlaAgent.ReminderPrompt | backend/agent_langgraph.py:52-57 | the reminder text opens with "Reminder: Approval " followed by the approval's id |
| SlaAgent.EscalationPrompt | backend/agent_langgraph.py:60-65 | the escalation text opens with "Escalation: Approval " followed by the approval's id |
| SlaAgent.TemplatesDiffer | backend/agent_langgraph.py:52-65 | no reminder text equals any escalation text |
| Decimal.FormatAmount | backend/main.py:59 | the whole part's digits, a dot, then one or two fraction digits, the second of which is never a trailing zero |
| Decimal.NatToString | backend/main.py:59 | decimal digits, at least one, with no leading zero |
| Decimal.AmountRoundTrip | backend/main.py:59 | the printed amount parses back to the same number of cents |
| Decimal.FormatAmountInjective | backend/main.py:59 | two different amounts never print the same |
| Records.AuditLabelsDistinct | backend/main.py:54-131 | the four audit actions are written under four different labels |
| Backend.Handle | backend/main.py:99-131 | acts exactly on a PENDING approval whose evaluation is not no_action; a reminder saves the record with only `last_reminder_at` set to the run's `now`; an escalation saves it with the level `min(2, level + 1)` and status ESCALATED, and the entry's meta carries the new level; the entry is the agent's, stamped `now`, with the evaluation's message; a well-formed record stays well formed and changes only as `Progressed` allows (level never down) |
| Backend.Evaluations | backend/main.py:102 | defines the outcomes: one `run_once` outcome per listed approval, all at the same `now` |
| Backend.TakenOf | backend/main.py:99-131 | a run contributes no more elements than the listing has approvals |
| Backend.EntriesOf | backend/main.py:110-130 | one audit entry per acted-on approval (pointwise in `ProjectionsAt`) |
| Backend.ActionsOf | backend/main.py:117-131 | one reported action per acted-on approval (pointwise in `ProjectionsAt`) |
| Backend.Commit | backend/data.py:85-104 | after saving a sequence of records by id, the table holds the last saved record for that id |
| Backend.Snoc | backend/data.py:85-104 | saving one more record replaces the entry under its id; the log and the actions each grow by exactly that step's entry and action |
| Backend.CommitLast | backend/main.py:99-131 | the last listed approval's step saves its record over the rest of the run's table, or leaves it as it was when it takes no action |
| Backend.ProjectionsAt | backend/main.py:109-131 | the j-th audit entry and the j-th reported action both come from the j-th acted-on approval |
| Backend.RunUsesOneNow | backend/main.py:97-116 | every entry a run logs is stamped with the run's single `now` and written by the agent; every reminder records that `now`; entry, saved record and action name the same approval |
| Backend.CommitElsewhere | backend/main.py:99-131 | an approval not in the listing is neither added, removed nor changed |
| Backend.CommitKeys | backend/main.py:109-122 | saving by id never adds or removes a stored approval |
| Backend.StoreAfterAt | backend/main.py:99-131 | after a run, each listed approval holds the record its step saved, or its old record when it was skipped or needed no action |
| Backend.RunProgress | backend/main.py:118-122 | a run keeps the table well formed (levels in [0, 2], ESCALATED only with a level of at least 1), keeps its keys, and changes each approval only as `Progressed` allows |
| Backend.ActionsExactlyActed | backend/main.py:98-131 | an action is in `actions` exactly when some listed approval was acted on with it |
| Backend.RunInListingOrder | backend/main.py:99-131 | what the first k listed approvals contribute opens, unchanged and in order, what the whole run contributes |
| Backend.ActionsInListingOrder | backend/main.py:98-131 | the actions for the first k listed approvals open the run's `actions` list, in order |
| Backend.ActedOnPending | backend/main.py:100-101 | a run reports actions only for listed PENDING approvals |
| Backend.EscalationSaved | backend/main.py:118-122 | an approval a run escalates is stored ESCALATED afterwards |
| Backend.EscalatedNotRevisited | backend/main.py:100-121 | after a run escalates an approval, a later run over any listing of the resulting table takes no action on it |
| Backend.Service.constructor | backend/main.py:23 | an empty, well-formed store with an empty audit log |
| Backend.Service.CreateDummyApproval | backend/main.py:31-61 | saves a PENDING record with level 0, no reminder, no requester, the default approvers, the chosen vendor, amount and an SLA in {24, 48, 72}; logs one "created" entry by the system with the vendor and printed amount; keeps the store well formed |
| Backend.Service.MarkApproved | backend/main.py:70-83 | not found exactly for an unknown id, and then nothing changes; otherwise the status becomes APPROVED from any status, the requester is cleared, nothing else in the table changes, and one "approved" entry by the user is appended; keeps the store well formed |
| Backend.Service.ApplyOutcome | backend/main.py:103-131 | on a PENDING, well-formed approval: no change and no action on no_action; otherwise saves exactly the record, appends exactly the entry and returns exactly the action that `Handle` gives; keeps the store well formed |
| Backend.Service.Visit | backend/main.py:100-131 | one pass of the loop body: nothing for an approval that is not PENDING; otherwise exactly the save, entry and action `Handle` gives for its `run_once` outcome; keeps the store well formed |
| Backend.Service.Sweep | backend/main.py:98-131 | over a listing of stored records, the table, the audit log and the returned `actions` after the loop are those `TakenOf` gives for the listing, with the outcomes `Evaluations` gives; keeps the store well formed |
| Backend.Service.RunAgent | backend/main.py:87-132 | as `Sweep` over a listing of the whole table, and in addition the table stays well formed, keeps its keys, and each approval changes only as `Progressed` allows |

## Left out

- SQLite persistence (`backend/data.py`): the tables are the `Service` fields. A failed write is not modelled.
- `list_approvals` ordering by `submitted_at` descending: the listing is an input. The model requires only that it holds each stored approval once.
- The HTTP request to the language model service: its outcome is a parameter, one reply per listed approval.
- `generate_llm_text`'s 10-second timeout is not modelled; a request that raises is a `None` reply.
- The `langgraph` import: whether the library is importable picks the graph path or the state machine. The model has both and proves them equal, so the choice is no parameter.
- Floating point: the source divides `total_seconds()` by 3600.0 and compares floats. The model compares exact integer microseconds, so rounding near a boundary is not modelled.
- ISO-8601 parsing and formatting: an `Instant` carries both the stored text and the instant it denotes.
- Randomness and uuid in `create_dummy_approval`: the id, vendor, amount and SLA are parameters. The requires clause holds them to the choices the source draws from.
- The two clock reads in `create_dummy_approval` are two parameters, `submittedAt` and `loggedAt`.
- Amounts are whole cents. The printed amount is Python's shortest repr of a two-decimal value (for example `1234.5`).
- Decimal.FormatAmount: matches Python's printing only below 10^16 (Python switches to exponent form there) and while `round(x, 2)` keeps two exact decimals (below about 2^53 cents); `amountCents` is unbounded, but every amount the tracker creates is at most 50000.00.
- Backend.Service.MarkApproved: the record is re-read without its `requester` column, so saving it back clears that column; the model does this as written.
- Notifications (`backend/notifications.py`): nothing in the modelled code calls them.
- The users table and its seed rows are not modelled.
- The listing and audit read endpoints are not modelled.
- The frontend (`frontend/src`) is not part of this model.
- `backdate_pending.py` is not part of this model.
- FastAPI and CORS wiring are not modelled.
- Two runs executing at the same time: runs are modelled as sequential.
