/**
 * The approval workflow of `backend/main.py`: creating an approval, marking it
 * approved, and the agent run that reminds or escalates every PENDING
 * approval. The database of `backend/data.py` is the state of a `Service`
 * object: the approvals table as a map from id to record, and the audit table
 * as an append-only sequence.
 */
module Backend {
  import opened Wrappers
  import opened Records
  import SlaAgent
  import Decimal

  /**
   * One element of the `actions` list a run returns: `{"id": ..., "action": ...}`
   * with the action `Reminder` or `Escalation`, written under its label.
   */
  datatype ActionRecord = ActionRecord(id: string, action: AuditAction)

  /** What one acted-on approval contributes to a run: its saved record, its audit entry, its action. */
  datatype Taken = Taken(record: Approval, entry: AuditEntry, action: ActionRecord)

  function Min(a: int, b: int): int { if a <= b then a else b }

  /**
   * How an automated run may change an approval: the payload and the SLA
   * clock stay, the level never goes down, and the status either stays or
   * goes from PENDING to ESCALATED.
   */
  predicate Progressed(a: Approval, b: Approval) {
    && b.id == a.id && b.vendorName == a.vendorName && b.amountCents == a.amountCents
    && b.approvers == a.approvers && b.submittedAt == a.submittedAt
    && b.slaHours == a.slaHours && b.requester == a.requester
    && a.escalationLevel <= b.escalationLevel
    && (b.status == a.status || (a.status == Pending && b.status == Escalated))
  }

  /**
   * The body of `run_agent`'s loop for one listed approval, given what the
   * evaluator returned for it: skipped unless PENDING, nothing on no_action,
   * otherwise the record to save, the audit entry to append and the action to
   * report.
   */
  function Handle(a: Approval, now: Instant, res: SlaAgent.Outcome): (r: Option<Taken>)
    ensures r.Some? <==> a.status == Pending && res.action != SlaAgent.NoAction
    ensures r.Some? ==>
      var t := r.value;
      && t.record.id == a.id && t.entry.approvalId == a.id && t.action.id == a.id
      && t.entry.timestamp == now && t.entry.actor == Agent
      && t.entry.message == res.message && t.entry.action == t.action.action
    ensures r.Some? && res.action == SlaAgent.SendReminder ==>
      && r.value.record == a.(lastReminderAt := Some(now))
      && r.value.action.action == Reminder && r.value.entry.metaLevel == None
    ensures r.Some? && res.action == SlaAgent.Escalate ==>
      && r.value.record == a.(escalationLevel := Min(MaxEscalationLevel, a.escalationLevel + 1), status := Escalated)
      && r.value.action.action == Escalation
      && r.value.entry.metaLevel == Some(r.value.record.escalationLevel)
    ensures r.Some? && RecordOk(a) ==> RecordOk(r.value.record) && Progressed(a, r.value.record)
  {
    if a.status != Pending then None
    else
      match res.action
      case NoAction => None
      case SendReminder =>
        var saved := a.(lastReminderAt := Some(now));
        Some(Taken(saved, AuditEntry(now, a.id, Agent, Reminder, res.message, None),
                   ActionRecord(a.id, Reminder)))
      case Escalate =>
        var level := Min(MaxEscalationLevel, a.escalationLevel + 1);
        var saved := a.(escalationLevel := level, status := Escalated);
        Some(Taken(saved, AuditEntry(now, a.id, Agent, Escalation, res.message, Some(level)),
                   ActionRecord(a.id, Escalation)))
  }

  /**
   * What `run_once` returns for each listed approval when a run evaluates it
   * at `now`; `replies[i]` is what the language model service answers for the
   * `i`-th one, should its evaluation ask.
   */
  function Evaluations(l: seq<Approval>, now: Instant, apiKey: Option<string>, replies: seq<Option<string>>)
    : (outs: seq<SlaAgent.Outcome>)
    requires |replies| == |l|
    ensures |outs| == |l|
    ensures forall i :: 0 <= i < |l| ==> outs[i] == SlaAgent.RunOnce(l[i], now, SlaAgent.TextGen(apiKey, replies[i]))
  {
    seq(|l|, i requires 0 <= i < |l| => SlaAgent.RunOnce(l[i], now, SlaAgent.TextGen(apiKey, replies[i])))
  }

  /** The outcome for the `i`-th listed approval (no_action when there is none). */
  function OutcomeAt(outs: seq<SlaAgent.Outcome>, i: nat): SlaAgent.Outcome {
    if i < |outs| then outs[i] else SlaAgent.Outcome(SlaAgent.NoAction, None)
  }

  /**
   * Everything a run over the listing `l` does, one element per acted-on
   * approval, in the order of the listing, when the evaluator returned
   * `outs[i]` for the `i`-th listed approval.
   */
  function TakenOf(l: seq<Approval>, now: Instant, outs: seq<SlaAgent.Outcome>): (r: seq<Taken>)
    ensures |r| <= |l|
    decreases |l|
  {
    if l == [] then []
    else
      var k := |l| - 1;
      TakenOf(l[..k], now, outs) +
        match Handle(l[k], now, OutcomeAt(outs, k))
        case None => []
        case Some(t) => [t]
  }

  /** One more listed approval adds what its handling takes, if anything. */
  lemma TakenOfStep(l: seq<Approval>, now: Instant, outs: seq<SlaAgent.Outcome>, k: nat)
    requires k < |l|
    ensures var h := Handle(l[k], now, OutcomeAt(outs, k));
      TakenOf(l[..k + 1], now, outs) == TakenOf(l[..k], now, outs) + (if h.Some? then [h.value] else [])
  {
    assert l[..k + 1][..k] == l[..k];
  }

  /** The audit entries a run appends. */
  function EntriesOf(ts: seq<Taken>): (r: seq<AuditEntry>)
    ensures |r| == |ts|
  {
    if ts == [] then [] else EntriesOf(ts[..|ts| - 1]) + [ts[|ts| - 1].entry]
  }

  /** The `actions` list a run returns. */
  function ActionsOf(ts: seq<Taken>): (r: seq<ActionRecord>)
    ensures |r| == |ts|
  {
    if ts == [] then [] else ActionsOf(ts[..|ts| - 1]) + [ts[|ts| - 1].action]
  }

  /** The `j`-th audit entry and the `j`-th reported action both come from the `j`-th taken approval. */
  lemma {:induction false} ProjectionsAt(ts: seq<Taken>, j: nat)
    requires j < |ts|
    ensures EntriesOf(ts)[j] == ts[j].entry && ActionsOf(ts)[j] == ts[j].action
    decreases |ts|
  {
    if j < |ts| - 1 {
      ProjectionsAt(ts[..|ts| - 1], j);
    }
  }

  /**
   * A single `now` serves the whole run: every entry a run logs is stamped
   * with it and written by the agent, every reminder records it, and each
   * entry, saved record and reported action name the same approval.
   */
  lemma {:induction false} RunUsesOneNow(l: seq<Approval>, now: Instant, outs: seq<SlaAgent.Outcome>, j: nat)
    requires j < |TakenOf(l, now, outs)|
    ensures var t := TakenOf(l, now, outs)[j];
      && t.entry.timestamp == now && t.entry.actor == Agent
      && t.record.id == t.entry.approvalId && t.action.id == t.record.id
      && (t.action.action == Reminder ==> t.record.lastReminderAt == Some(now))
    decreases |l|
  {
    var k := |l| - 1;
    var prefix := TakenOf(l[..k], now, outs);
    if j < |prefix| {
      RunUsesOneNow(l[..k], now, outs, j);
    }
  }

  /**
   * The approvals table after saving each taken record in turn (`REPLACE INTO`
   * by id): the last save of an id is what the table holds for it.
   */
  function Commit(m: map<string, Approval>, ts: seq<Taken>): (r: map<string, Approval>)
    ensures ts != [] ==> var t := ts[|ts| - 1]; t.record.id in r && r[t.record.id] == t.record
  {
    if ts == [] then m
    else
      var t := ts[|ts| - 1];
      Commit(m, ts[..|ts| - 1])[t.record.id := t.record]
  }

  /** Appending one taken approval saves its record and adds its entry and its action. */
  lemma Snoc(m: map<string, Approval>, log: seq<AuditEntry>, ts: seq<Taken>, t: Taken)
    ensures Commit(m, ts + [t]) == Commit(m, ts)[t.record.id := t.record]
    ensures log + EntriesOf(ts + [t]) == log + EntriesOf(ts) + [t.entry]
    ensures ActionsOf(ts + [t]) == ActionsOf(ts) + [t.action]
  {
    assert (ts + [t])[..|ts|] == ts;
  }

  predicate DistinctIds(l: seq<Approval>) {
    forall i, j :: 0 <= i < j < |l| ==> l[i].id != l[j].id
  }

  /** Every listed record is the stored one. */
  predicate AgreesWith(m: map<string, Approval>, l: seq<Approval>) {
    forall i :: 0 <= i < |l| ==> l[i].id in m && m[l[i].id] == l[i]
  }

  /** Every stored record is listed. */
  predicate Covers(m: map<string, Approval>, l: seq<Approval>) {
    forall id :: id in m ==> exists i :: 0 <= i < |l| && l[i].id == id
  }

  /** `list_approvals()`: every stored approval once, in some order. */
  predicate IsListing(m: map<string, Approval>, l: seq<Approval>) {
    DistinctIds(l) && AgreesWith(m, l) && Covers(m, l)
  }

  // ---------------------------------------------------------------------------
  // Properties of a run

  /** Approvals the first `k` listed ones do not name are untouched by their part of the run. */
  lemma {:induction false} CommitElsewhere(m: map<string, Approval>, l: seq<Approval>, now: Instant,
                                           outs: seq<SlaAgent.Outcome>, id: string)
    requires forall i :: 0 <= i < |l| ==> l[i].id != id
    ensures var after := Commit(m, TakenOf(l, now, outs));
      (id in after <==> id in m) && (id in m ==> after[id] == m[id])
    decreases |l|
  {
    if l != [] {
      var k := |l| - 1;
      CommitElsewhere(m, l[..k], now, outs, id);
      var prefix := TakenOf(l[..k], now, outs);
      var ts := TakenOf(l, now, outs);
      match Handle(l[k], now, OutcomeAt(outs, k))
      case None =>
        assert ts == prefix;
      case Some(t) =>
        assert ts == prefix + [t];
        assert ts[..|ts| - 1] == prefix;
    }
  }

  /** The saved ids are listed ids, so a run never adds or removes a stored approval. */
  lemma {:induction false} CommitKeys(m: map<string, Approval>, l: seq<Approval>, now: Instant,
                                      outs: seq<SlaAgent.Outcome>)
    requires AgreesWith(m, l)
    ensures Commit(m, TakenOf(l, now, outs)).Keys == m.Keys
    decreases |l|
  {
    if l != [] {
      var k := |l| - 1;
      assert AgreesWith(m, l[..k]);
      CommitKeys(m, l[..k], now, outs);
      var prefix := TakenOf(l[..k], now, outs);
      var ts := TakenOf(l, now, outs);
      match Handle(l[k], now, OutcomeAt(outs, k))
      case None =>
        assert ts == prefix;
      case Some(t) =>
        assert ts == prefix + [t];
        assert ts[..|ts| - 1] == prefix;
    }
  }

  /**
   * After a run, a listed approval holds the record its step saved, or, when
   * it was skipped or needed no action, the record it had before.
   */
  lemma {:induction false} StoreAfterAt(m: map<string, Approval>, l: seq<Approval>, now: Instant,
                                        outs: seq<SlaAgent.Outcome>, i: nat)
    requires DistinctIds(l) && AgreesWith(m, l) && i < |l|
    ensures var after := Commit(m, TakenOf(l, now, outs));
      && l[i].id in after
      && after[l[i].id] == match Handle(l[i], now, OutcomeAt(outs, i))
                           case Some(t) => t.record
                           case None => l[i]
    decreases |l|
  {
    var k := |l| - 1;
    assert DistinctIds(l[..k]) && AgreesWith(m, l[..k]);
    CommitLast(m, l, now, outs);
    if i < k {
      StoreAfterAt(m, l[..k], now, outs, i);
      assert l[..k][i] == l[i];
    } else {
      CommitElsewhere(m, l[..k], now, outs, l[k].id);
    }
  }

  /** The last listed approval's step saves its record, if any, over the rest of the run. */
  lemma CommitLast(m: map<string, Approval>, l: seq<Approval>, now: Instant, outs: seq<SlaAgent.Outcome>)
    requires l != []
    ensures var k := |l| - 1;
      var before, h := Commit(m, TakenOf(l[..k], now, outs)), Handle(l[k], now, OutcomeAt(outs, k));
      Commit(m, TakenOf(l, now, outs)) == if h.Some? then before[h.value.record.id := h.value.record] else before
  {
    var k := |l| - 1;
    var prefix := TakenOf(l[..k], now, outs);
    var ts := TakenOf(l, now, outs);
    var h := Handle(l[k], now, OutcomeAt(outs, k));
    TakenOfStep(l, now, outs, k);
    assert l[..k + 1] == l;
    if h.Some? {
      assert ts == prefix + [h.value];
      Snoc(m, [], prefix, h.value);
    } else {
      assert ts == prefix + [];
      assert prefix + [] == prefix;
    }
  }

  /**
   * A run over a listing of a well-formed store keeps it well formed, keeps
   * its keys, and changes each approval only as `Progressed` allows.
   */
  lemma RunProgress(m: map<string, Approval>, l: seq<Approval>, now: Instant,
                    outs: seq<SlaAgent.Outcome>)
    requires StoreOk(m) && IsListing(m, l)
    ensures var after := Commit(m, TakenOf(l, now, outs));
      && after.Keys == m.Keys && StoreOk(after)
      && forall id :: id in m ==> Progressed(m[id], after[id])
  {
    var after := Commit(m, TakenOf(l, now, outs));
    CommitKeys(m, l, now, outs);
    forall id | id in m
      ensures after[id].id == id && RecordOk(after[id]) && Progressed(m[id], after[id])
    {
      var i :| 0 <= i < |l| && l[i].id == id;
      StoreAfterAt(m, l, now, outs, i);
    }
  }

  /** The action of the `i`-th listed approval, if it was acted on. */
  function ActionAt(l: seq<Approval>, now: Instant, outs: seq<SlaAgent.Outcome>, i: nat): Option<ActionRecord>
    requires i < |l|
  {
    match Handle(l[i], now, OutcomeAt(outs, i))
    case None => None
    case Some(t) => Some(t.action)
  }

  /** `actions` holds exactly the actions of the listed approvals that were acted on. */
  lemma {:induction false} ActionsExactlyActed(l: seq<Approval>, now: Instant, outs: seq<SlaAgent.Outcome>,
                                               x: ActionRecord)
    ensures x in ActionsOf(TakenOf(l, now, outs)) <==>
            exists i :: 0 <= i < |l| && ActionAt(l, now, outs, i) == Some(x)
    decreases |l|
  {
    if l != [] {
      var k := |l| - 1;
      ActionsExactlyActed(l[..k], now, outs, x);
      var prefix := TakenOf(l[..k], now, outs);
      var ts := TakenOf(l, now, outs);
      forall i | 0 <= i < k ensures ActionAt(l[..k], now, outs, i) == ActionAt(l, now, outs, i) {
        assert l[..k][i] == l[i];
      }
      match Handle(l[k], now, OutcomeAt(outs, k))
      case None =>
        assert ts == prefix;
        if x in ActionsOf(ts) {
          var i :| 0 <= i < k && ActionAt(l[..k], now, outs, i) == Some(x);
          assert ActionAt(l, now, outs, i) == Some(x);
        }
      case Some(t) =>
        assert ts == prefix + [t];
        assert ActionsOf(ts) == ActionsOf(prefix) + [t.action];
        if x in ActionsOf(prefix) {
          var i :| 0 <= i < k && ActionAt(l[..k], now, outs, i) == Some(x);
          assert ActionAt(l, now, outs, i) == Some(x);
        }
        if x == t.action {
          assert ActionAt(l, now, outs, k) == Some(x);
        }
    }
  }

  /**
   * Processing order: what the first `k` listed approvals contribute comes
   * first, unchanged, in what the whole run contributes.
   */
  lemma {:induction false} RunInListingOrder(l: seq<Approval>, now: Instant, outs: seq<SlaAgent.Outcome>, k: nat)
    requires k <= |l|
    ensures var a, b := TakenOf(l[..k], now, outs), TakenOf(l, now, outs);
      |a| <= |b| && forall j :: 0 <= j < |a| ==> a[j] == b[j]
    decreases |l|
  {
    if k < |l| {
      var n := |l| - 1;
      RunInListingOrder(l[..n], now, outs, k);
      assert l[..n][..k] == l[..k];
      var prefix := TakenOf(l[..n], now, outs);
      var ts := TakenOf(l, now, outs);
      match Handle(l[n], now, OutcomeAt(outs, n))
      case None =>
        assert ts == prefix;
      case Some(t) =>
        assert ts == prefix + [t];
    } else {
      assert l[..k] == l;
    }
  }

  /** The actions reported for the first `k` listed approvals open the run's `actions` list, in order. */
  lemma ActionsInListingOrder(l: seq<Approval>, now: Instant, outs: seq<SlaAgent.Outcome>, k: nat)
    requires k <= |l|
    ensures var a, b := ActionsOf(TakenOf(l[..k], now, outs)), ActionsOf(TakenOf(l, now, outs));
      |a| <= |b| && forall j :: 0 <= j < |a| ==> a[j] == b[j]
  {
    var a, b := TakenOf(l[..k], now, outs), TakenOf(l, now, outs);
    RunInListingOrder(l, now, outs, k);
    forall j | 0 <= j < |a| ensures ActionsOf(a)[j] == ActionsOf(b)[j] {
      ProjectionsAt(a, j);
      ProjectionsAt(b, j);
    }
  }

  /** A run acts only on listed PENDING approvals. */
  lemma ActedOnPending(l: seq<Approval>, now: Instant, outs: seq<SlaAgent.Outcome>, y: ActionRecord)
    requires y in ActionsOf(TakenOf(l, now, outs))
    ensures exists j :: 0 <= j < |l| && l[j].id == y.id && l[j].status == Pending
  {
    ActionsExactlyActed(l, now, outs, y);
    var j :| 0 <= j < |l| && ActionAt(l, now, outs, j) == Some(y);
    assert l[j].id == y.id && l[j].status == Pending;
  }

  /** An approval a run escalates is saved ESCALATED. */
  lemma EscalationSaved(m: map<string, Approval>, l: seq<Approval>, now: Instant,
                        outs: seq<SlaAgent.Outcome>, x: ActionRecord)
    requires DistinctIds(l) && AgreesWith(m, l)
    requires x in ActionsOf(TakenOf(l, now, outs)) && x.action == Escalation
    ensures var after := Commit(m, TakenOf(l, now, outs));
      x.id in after && after[x.id].status == Escalated
  {
    ActionsExactlyActed(l, now, outs, x);
    var i :| 0 <= i < |l| && ActionAt(l, now, outs, i) == Some(x);
    StoreAfterAt(m, l, now, outs, i);
  }

  /**
   * Escalation is idempotent across runs: an approval escalated by one run
   * is ESCALATED in the store, so a later run over any listing of that store
   * takes no action on it.
   */
  lemma EscalatedNotRevisited(m: map<string, Approval>, l1: seq<Approval>, now1: Instant,
                              outs1: seq<SlaAgent.Outcome>,
                              l2: seq<Approval>, now2: Instant, outs2: seq<SlaAgent.Outcome>,
                              x: ActionRecord, y: ActionRecord)
    requires IsListing(m, l1)
    requires AgreesWith(Commit(m, TakenOf(l1, now1, outs1)), l2)
    requires x in ActionsOf(TakenOf(l1, now1, outs1)) && x.action == Escalation
    requires y in ActionsOf(TakenOf(l2, now2, outs2))
    ensures y.id != x.id
  {
    EscalationSaved(m, l1, now1, outs1, x);
    ActedOnPending(l2, now2, outs2, y);
  }

  // ---------------------------------------------------------------------------
  // The service

  /** The vendors `create_dummy_approval` picks from. */
  const Vendors: seq<string> := ["Acme Supplies", "Global Widgets", "NorthTech", "Zenith Services"]

  /** The SLAs, in hours, `create_dummy_approval` picks from. */
  const SlaChoices: set<int> := {24, 48, 72}

  /** `round(random.uniform(500, 50000), 2)` in cents. */
  const MinAmountCents: nat := 50000
  const MaxAmountCents: nat := 5000000

  const DefaultApprovers: seq<Approver> := [Approver("Alice", "Reviewer", 1), Approver("Bob", "Chair", 2)]

  class Service {
    /** The approvals table, by id. */
    var approvals: map<string, Approval>
    /** The audit table, oldest entry first. */
    var audit: seq<AuditEntry>

    ghost predicate Valid()
      reads this
    {
      StoreOk(approvals)
    }

    /** `init_db` on an empty database. */
    constructor ()
      ensures Valid() && approvals == map[] && audit == []
    {
      approvals := map[];
      audit := [];
    }

    /**
     * `create_dummy_approval`: save a new PENDING approval with the given
     * (randomly chosen) vendor, amount and SLA, and log its creation. The
     * id stands for the fresh uuid4; `submittedAt` and `loggedAt` are the two
     * readings of the clock.
     */
    method CreateDummyApproval(id: string, vendor: string, amountCents: nat, sla: int,
                               submittedAt: Instant, loggedAt: Instant) returns (obj: Approval)
      requires Valid()
      requires vendor in Vendors && sla in SlaChoices && MinAmountCents <= amountCents <= MaxAmountCents
      modifies this
      ensures Valid()
      ensures obj.id == id && obj.vendorName == vendor && obj.amountCents == amountCents
      ensures obj.status == Pending && obj.escalationLevel == 0 && obj.lastReminderAt == None
      ensures obj.slaHours in SlaChoices && obj.submittedAt == submittedAt
      ensures obj.approvers == DefaultApprovers && obj.requester == None
      ensures approvals == old(approvals)[id := obj]
      ensures audit == old(audit) + [AuditEntry(loggedAt, id, System, Created,
        Some("Dummy approval created for " + vendor + " $" + Decimal.FormatAmount(amountCents)), None)]
    {
      obj := Approval(id, vendor, amountCents, DefaultApprovers, Pending, submittedAt, sla, None, 0, None);
      approvals := approvals[id := obj];
      audit := audit + [AuditEntry(loggedAt, id, System, Created,
        Some("Dummy approval created for " + vendor + " $" + Decimal.FormatAmount(amountCents)), None)];
    }

    /**
     * `mark_approved`: not found (HTTP 404) for an unknown id, with nothing
     * changed; otherwise the status becomes APPROVED from any status and one
     * "approved" entry is logged. The record is re-read without its
     * requester, so saving it back clears that column.
     */
    method MarkApproved(id: string, now: Instant) returns (found: bool)
      requires Valid()
      modifies this
      ensures Valid()
      ensures found <==> id in old(approvals)
      ensures !found ==> approvals == old(approvals) && audit == old(audit)
      ensures found ==>
        && approvals == old(approvals)[id := old(approvals)[id].(status := Approved, requester := None)]
        && audit == old(audit) + [AuditEntry(now, id, User, ApprovedByUser, Some("Marked approved via API"), None)]
    {
      if id !in approvals {
        return false;
      }
      var a := approvals[id].(requester := None);
      a := a.(status := Approved);
      approvals := approvals[id := a];
      audit := audit + [AuditEntry(now, id, User, ApprovedByUser, Some("Marked approved via API"), None)];
      found := true;
    }

    /**
     * The part of `run_agent`'s loop after `run_once` has evaluated a PENDING
     * approval: nothing on no_action; for a reminder, stamp
     * `last_reminder_at`; for an escalation, raise the level (capped) and set
     * ESCALATED; then save the record, log the entry, and report the action.
     */
    method ApplyOutcome(a: Approval, now: Instant, res: SlaAgent.Outcome) returns (act: Option<ActionRecord>)
      requires Valid() && RecordOk(a) && a.status == Pending
      modifies this
      ensures Valid()
      ensures var h := Handle(a, now, res);
        && (h.None? ==> approvals == old(approvals) && audit == old(audit) && act == None)
        && (h.Some? ==> && approvals == old(approvals)[h.value.record.id := h.value.record]
                        && audit == old(audit) + [h.value.entry]
                        && act == Some(h.value.action))
    {
      act := None;
      if res.action == SlaAgent.NoAction {
        return;
      }
      var saved := a;
      if res.action == SlaAgent.SendReminder {
        saved := saved.(lastReminderAt := Some(now));
        approvals := approvals[a.id := saved];
        audit := audit + [AuditEntry(now, a.id, Agent, Reminder, res.message, None)];
        act := Some(ActionRecord(a.id, Reminder));
      }
      if res.action == SlaAgent.Escalate {
        saved := saved.(escalationLevel := Min(MaxEscalationLevel, saved.escalationLevel + 1));
        saved := saved.(status := Escalated);
        approvals := approvals[a.id := saved];
        audit := audit + [AuditEntry(now, a.id, Agent, Escalation, res.message, Some(saved.escalationLevel))];
        act := Some(ActionRecord(a.id, Escalation));
      }
    }

    /**
     * One pass of `run_agent`'s loop body: skip an approval that is not
     * PENDING; otherwise evaluate it with `run_once` and apply the outcome.
     */
    method Visit(a: Approval, now: Instant, gen: SlaAgent.TextGen) returns (act: Option<ActionRecord>)
      requires Valid() && RecordOk(a)
      modifies this
      ensures Valid()
      ensures var h := Handle(a, now, SlaAgent.RunOnce(a, now, gen));
        && (h.None? ==> approvals == old(approvals) && audit == old(audit) && act == None)
        && (h.Some? ==> && approvals == old(approvals)[h.value.record.id := h.value.record]
                        && audit == old(audit) + [h.value.entry]
                        && act == Some(h.value.action))
    {
      if a.status != Pending {
        return None;
      }
      var res := SlaAgent.RunOnce(a, now, gen);
      act := ApplyOutcome(a, now, res);
    }

    /**
     * `run_agent`: walk the listing with one `now`, skip what is not PENDING,
     * evaluate the rest, and collect the actions taken in order.
     * `replies[i]` is what the language model service answers for the `i`-th
     * listed approval, should its evaluation ask.
     */
    method RunAgent(listing: seq<Approval>, now: Instant, apiKey: Option<string>, replies: seq<Option<string>>)
      returns (actions: seq<ActionRecord>)
      requires Valid() && IsListing(approvals, listing) && |replies| == |listing|
      modifies this
      ensures Valid()
      ensures var taken := TakenOf(listing, now, Evaluations(listing, now, apiKey, replies));
        && approvals == Commit(old(approvals), taken)
        && audit == old(audit) + EntriesOf(taken)
        && actions == ActionsOf(taken)
      ensures approvals.Keys == old(approvals).Keys
      ensures forall id :: id in old(approvals) ==> Progressed(old(approvals)[id], approvals[id])
    {
      actions := Sweep(listing, now, apiKey, replies);
      RunProgress(old(approvals), listing, now, Evaluations(listing, now, apiKey, replies));
    }

    /** The loop of `run_agent`, over a listing whose records are the stored ones. */
    method Sweep(listing: seq<Approval>, now: Instant, apiKey: Option<string>, replies: seq<Option<string>>)
      returns (actions: seq<ActionRecord>)
      requires Valid() && AgreesWith(approvals, listing) && |replies| == |listing|
      modifies this
      ensures Valid()
      ensures var taken := TakenOf(listing, now, Evaluations(listing, now, apiKey, replies));
        && approvals == Commit(old(approvals), taken)
        && audit == old(audit) + EntriesOf(taken)
        && actions == ActionsOf(taken)
    {
      ghost var outs := Evaluations(listing, now, apiKey, replies);
      actions := [];
      ghost var taken: seq<Taken> := [];
      for i := 0 to |listing|
        invariant taken == TakenOf(listing[..i], now, outs)
        invariant approvals == Commit(old(approvals), taken)
        invariant audit == old(audit) + EntriesOf(taken)
        invariant actions == ActionsOf(taken)
        invariant Valid()
      {
        var a := listing[i];
        TakenOfStep(listing, now, outs, i);
        assert RecordOk(old(approvals)[a.id]);
        var act := Visit(a, now, SlaAgent.TextGen(apiKey, replies[i]));
        ghost var h := Handle(a, now, OutcomeAt(outs, i));
        if act.Some? {
          Snoc(old(approvals), old(audit), taken, h.value);
          actions := actions + [act.value];
          taken := taken + [h.value];
        }
      }
      assert listing[..|listing|] == listing;
    }
  }
}
