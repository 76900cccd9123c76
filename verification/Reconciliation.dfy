/** Reconciling a run: crash convergence, and what an unsuccessful delivery leaves. */
module Reconciliation {
  import opened Wrappers
  import opened Text
  import opened Handoff
  import opened StatusWrites
  import opened Acceptance
  import opened Delivery
  import opened QaWrites
  import opened Store
  import opened Workflow
  import opened Rounds

  // ---- Status text ------------------------------------------------------------

  lemma StatusesAreValid()
    ensures ValidStatus(READY_FOR_QA) && ValidStatus(READY_FOR_EXECUTION) && ValidStatus(CHANGES_REQUESTED)
    ensures READY_FOR_EXECUTION != READY_FOR_QA && READY_FOR_EXECUTION != APPROVED
    ensures CHANGES_REQUESTED != READY_FOR_QA && CHANGES_REQUESTED != APPROVED
  {
    assert READY_FOR_EXECUTION[10] == 'E' && READY_FOR_QA[10] == 'Q';
    assert CHANGES_REQUESTED[0] == 'C' && READY_FOR_QA[0] == 'R' && APPROVED[0] == 'A' && READY_FOR_EXECUTION[0] == 'R';
  }

  /** Writing a Status twice is writing it once. */
  lemma ReplaceTwice(text: string, s: string)
    requires ValidStatus(s)
    ensures ReplaceStatus(ReplaceStatus(text, s), s) == ReplaceStatus(text, s)
  {
    var lines := Split(text);
    var r, i := ReplaceStatusLines(lines, s), FindStatus(lines);
    LinesOfReplace(text, s);
    FirstStatusStays(lines, s);
    if i < |lines| {
      TailKept(lines[i], s);
      assert r[i := StatusWith(s, r[i])] == r;
    }
  }

  /** HANDOFF.md has a Status line. */
  predicate HasStatus(text: string) { FindStatus(Split(text)) < |Split(text)| }

  /** A file read as text holds no `\r`; its Status reads back once written. */
  lemma TextReadsBack(text: string, s: string)
    requires '\r' !in text && ValidStatus(s)
    ensures ReadStatus(ReplaceStatus(text, s)) == s <==> HasStatus(text)
    ensures !HasStatus(text) ==> ReplaceStatus(text, s) == text && ReadStatus(text) == ""
  {
    var lines := Split(text);
    var i := FindStatus(lines);
    ReadBack(text, s);
    JoinOfSplit(text);
    if i < |lines| {
      LinesOfText(text, '\r', i);
      assert '\r' !in StatusRest(lines[i]);
      assert KeptTail(lines[i]) == "";
    }
  }

  // ---- crash convergence ---------------------------------------------------------

  /** Submitted statuses are the ones dispatch accepts. */
  predicate SubmittedEligible(d: Disk) { forall e | e in d.records :: Eligible(d.records[e].status) }

  /** The disk but for the note on a discarded Status. */
  function WithoutNote(d: Disk): Disk {
    if d.workflow.Some? && d.workflow.value.lastOutcome.Some?
    then d.(workflow := Some(d.workflow.value.(lastOutcome := Some(d.workflow.value.lastOutcome.value.(discarded := None)))))
    else d
  }

  /** The same reconciliation once more, if a run is still outstanding. */
  function Again(d: Disk, v: View): Disk { Apply(d, ReconcileWrites(d, v)) }

  function Interrupted(d: Disk, v: View, k: nat): Disk { Apply(d, Prefix(ReconcileWrites(d, v), k)) }

  lemma FinalStatusValid(d: Disk, v: View)
    requires SubmittedEligible(d) && d.outstanding.Some?
    ensures var s := FinalStatus(d, d.outstanding.value, v); s != "" ==> ValidStatus(s)
  {
    StatusesAreValid();
  }

  /** The five steps of a settling reconciliation, as one record. */
  function Settled(d: Disk, o: Outstanding, w: Receipt, v: View, text: string, discarded: Option<string>): Disk {
    d.(workflow := Some(Settle(Held(Charged(w, o.execution, v), v), o.execution, v, discarded)),
       handoff := text, outstanding := None)
  }

  lemma SettledWhole(d: Disk, v: View, text: string, discarded: Option<string>)
    requires d.outstanding.Some? && d.workflow.Some?
    requires OutcomeOf(v) != RunRejected && Settles(d.outstanding.value, v)
    ensures var o, w := d.outstanding.value, d.workflow.value;
            Apply(d, ReconciledWrites(w, o, v, text, discarded)) == Settled(d, o, w, v, text, discarded)
  {
    SettledDisks(d, v, text, discarded, 5);
  }

  /** Charging, holding and settling again changes nothing but the note. */
  lemma ReceiptStable(w: Receipt, e: Id, v: View, n: Option<string>, n': Option<string>)
    ensures var charged := Charged(w, e, v);
            var held := Held(charged, v);
            var settled := Settle(held, e, v, n);
            && Charged(charged, e, v) == charged
            && Held(Charged(held, e, v), v) == held
            && Settle(Held(Charged(settled, e, v), v), e, v, n') == settled.(lastOutcome := Some(LastOutcome(e, OutcomeOf(v), n')))
  {
  }

  lemma TextStable(d: Disk, d': Disk, o: Outstanding, v: View)
    requires SubmittedEligible(d) && d.outstanding == Some(o) && d'.records == d.records
    requires d'.handoff == SettledText(d, o, v)
    ensures SettledText(d', o, v) == SettledText(d, o, v)
  {
    if Rewrites(d, o, v) {
      FinalStatusValid(d, v);
      ReplaceTwice(d.handoff, FinalStatus(d, o, v));
    }
  }

  lemma SettledAgain(d: Disk, v: View, k: nat)
    requires d.outstanding.Some? && d.workflow.Some? && SubmittedEligible(d)
    requires OutcomeOf(v) != RunRejected && Settles(d.outstanding.value, v)
    ensures var o, w := d.outstanding.value, d.workflow.value;
            var cut := Interrupted(d, v, k);
            Again(cut, v) == Settled(d, o, w, v, SettledText(d, o, v), if k == 3 || k == 4 then Discarded(cut, o, v)
                                                                     else Discarded(d, o, v))
  {
    var o, w := d.outstanding.value, d.workflow.value;
    var text, note := SettledText(d, o, v), Discarded(d, o, v);
    var cut := Interrupted(d, v, k);
    if k == 0 {
      assert cut == d;
      SettledWhole(d, v, text, note);
    } else {
      SettledDisks(d, v, text, note, k);
      if k < 5 {
        ReceiptStable(w, o.execution, v, note, Discarded(cut, o, v));
        if k >= 3 {
          TextStable(d, cut, o, v);
        }
        SettledWhole(cut, v, SettledText(cut, o, v), Discarded(cut, o, v));
      } else {
        assert cut.outstanding.None?;
      }
    }
  }

  lemma TwoWrites(d: Disk, a: Write, b: Write, k: nat)
    ensures Apply(d, Prefix([a, b], k)) == if k == 0 then d else if k == 1 then Do(d, a) else Do(Do(d, a), b)
  {
    Apply2(d, a, b);
    PrefixAt(d, [a, b], 0);
    PrefixAt(d, [a, b], 1);
    assert k >= 2 ==> Prefix([a, b], k) == [a, b];
  }

  lemma RejectedAgain(d: Disk, v: View, k: nat)
    requires d.outstanding.Some? && d.workflow.Some? && OutcomeOf(v) == RunRejected
    ensures Again(Interrupted(d, v, k), v)
            == d.(workflow := Some(Released(d.workflow.value, d.outstanding.value.execution)), outstanding := None)
  {
    var released := Released(d.workflow.value, d.outstanding.value.execution);
    assert ReconcileWrites(d, v) == [SaveWorkflow(released), ClearOutstanding];
    TwoWrites(d, SaveWorkflow(released), ClearOutstanding, k);
    TwoWrites(Interrupted(d, v, k), SaveWorkflow(released), ClearOutstanding, 2);
  }

  lemma OpenAgain(d: Disk, v: View, k: nat)
    requires d.outstanding.Some? && d.workflow.Some?
    requires OutcomeOf(v) != RunRejected && !Settles(d.outstanding.value, v)
    ensures Again(Interrupted(d, v, k), v)
            == d.(workflow := Some(Held(Charged(d.workflow.value, d.outstanding.value.execution, v), v)))
  {
    var o, w := d.outstanding.value, d.workflow.value;
    var charged := Charged(w, o.execution, v);
    var cut := Interrupted(d, v, k);
    ReceiptStable(w, o.execution, v, None, None);
    TwoWrites(d, SaveWorkflow(charged), SaveWorkflow(Held(charged, v)), k);
    var again := Charged(cut.workflow.value, o.execution, v);
    TwoWrites(cut, SaveWorkflow(again), SaveWorkflow(Held(again, v)), 2);
  }

  /** Crash convergence: cut a reconciliation after any of its writes, run it again
    * with the same terminal task, and the receipt, Status text and outstanding
    * pointer are those of one uninterrupted run, but for the note that names a
    * discarded Status. */
  lemma ReconcileConverges(d: Disk, v: View, k: nat)
    requires d.outstanding.Some? && d.workflow.Some? && SubmittedEligible(d)
    ensures WithoutNote(Again(Interrupted(d, v, k), v)) == WithoutNote(Again(d, v))
  {
    var o, w := d.outstanding.value, d.workflow.value;
    assert Prefix(ReconcileWrites(d, v), 0) == [];
    assert Interrupted(d, v, 0) == d;
    if OutcomeOf(v) == RunRejected {
      RejectedAgain(d, v, k);
      RejectedAgain(d, v, 0);
    } else if Settles(o, v) {
      SettledAgain(d, v, k);
      SettledAgain(d, v, 0);
    } else {
      OpenAgain(d, v, k);
      OpenAgain(d, v, 0);
    }
  }

  // ---- convergence when the world has moved on ------------------------------------

  /** A later look at the same run: the task and its result are as before, and a stop
    * once confirmed stays confirmed.  Lifecycle marks, the lock directory and the
    * code may have changed. */
  predicate Later(v: View, v': View) {
    && v'.state == v.state && v'.recovery == v.recovery && v'.lifeStarted == v.lifeStarted && v'.result == v.result
    && (StopConfirmed(v) ==> StopConfirmed(v'))
  }

  lemma LaterOutcome(v: View, v': View)
    requires Later(v, v')
    ensures OutcomeOf(v) != RunUnresolved ==> OutcomeOf(v') == OutcomeOf(v)
    ensures OutcomeOf(v') == RunRejected ==> OutcomeOf(v) == RunRejected
    ensures Started(v') == Started(v) && (Charges(v) ==> Charges(v')) && (Holds(v) ==> Holds(v'))
  {
  }

  lemma SameText(d: Disk, o: Outstanding, v: View, v': View)
    requires Later(v, v') && OutcomeOf(v') == OutcomeOf(v)
    ensures SettledText(d, o, v') == SettledText(d, o, v) && Settles(o, v') == Settles(o, v)
  {
  }

  /** Charging and holding for `v` leaves no trace once `v'` has charged and held. */
  lemma ReceiptLater(w: Receipt, e: Id, v: View, v': View)
    requires (Charges(v) ==> Charges(v')) && (Holds(v) ==> Holds(v'))
    ensures var charged := Charged(w, e, v);
            var end := Held(Charged(w, e, v'), v');
            Held(Charged(charged, e, v'), v') == end && Held(Charged(Held(charged, v), e, v'), v') == end
  {
  }

  /** Charging and holding do not look at the outcome and the baseline. */
  lemma ReceiptOfSettled(w: Receipt, e: Id, v: View, v': View, n: Option<string>)
    ensures var settled := Settle(w, e, v, n);
            Held(Charged(settled, e, v'), v')
            == Held(Charged(w, e, v'), v').(lastOutcome := settled.lastOutcome, postRun := settled.postRun)
  {
  }

  /** A reconciliation overwrites the receipt it found. */
  lemma SameEnd(d: Disk, w': Receipt, v: View)
    requires d.outstanding.Some? && d.workflow.Some? && OutcomeOf(v) != RunRejected
    requires var e := d.outstanding.value.execution;
             Held(Charged(w', e, v), v) == Held(Charged(d.workflow.value, e, v), v)
    ensures Again(d.(workflow := Some(w')), v) == Again(d, v)
  {
    var o, w, d' := d.outstanding.value, d.workflow.value, d.(workflow := Some(w'));
    var e := o.execution;
    if Settles(o, v) {
      SettledWhole(d, v, SettledText(d, o, v), Discarded(d, o, v));
      SettledWhole(d', v, SettledText(d', o, v), Discarded(d', o, v));
    } else {
      TwoWrites(d, SaveWorkflow(Charged(w, e, v)), SaveWorkflow(Held(Charged(w, e, v), v)), 2);
      TwoWrites(d', SaveWorkflow(Charged(w', e, v)), SaveWorkflow(Held(Charged(w', e, v), v)), 2);
    }
  }

  /** The disk but for the baseline and the note on a discarded Status. */
  function Essential(d: Disk): Disk {
    var d' := WithoutNote(d);
    if d'.workflow.Some? then d'.(workflow := Some(d'.workflow.value.(postRun := None))) else d'
  }

  lemma RejectedLater(d: Disk, v: View, v': View, k: nat)
    requires d.outstanding.Some? && d.workflow.Some? && OutcomeOf(v) == RunRejected && OutcomeOf(v') == RunRejected
    ensures Again(Interrupted(d, v, k), v') == Again(d, v')
  {
    var e := d.outstanding.value.execution;
    var released := Released(d.workflow.value, e);
    TwoWrites(d, SaveWorkflow(released), ClearOutstanding, k);
    TwoWrites(d, SaveWorkflow(released), ClearOutstanding, 2);
    if k < 2 {
      TwoWrites(Interrupted(d, v, k), SaveWorkflow(Released(Interrupted(d, v, k).workflow.value, e)), ClearOutstanding, 2);
    }
  }

  lemma OpenLater(d: Disk, v: View, v': View, k: nat)
    requires d.outstanding.Some? && d.workflow.Some? && Later(v, v')
    requires OutcomeOf(v) != RunRejected && !Settles(d.outstanding.value, v)
    ensures Again(Interrupted(d, v, k), v') == Again(d, v')
  {
    var e, w := d.outstanding.value.execution, d.workflow.value;
    var charged := Charged(w, e, v);
    LaterOutcome(v, v');
    ReceiptLater(w, e, v, v');
    TwoWrites(d, SaveWorkflow(charged), SaveWorkflow(Held(charged, v)), k);
    SameEnd(d, charged, v');
    SameEnd(d, Held(charged, v), v');
  }

  /** Cut before the Status text is settled. */
  lemma ChargedLater(d: Disk, v: View, v': View, k: nat)
    requires d.outstanding.Some? && d.workflow.Some? && Later(v, v') && 0 < k <= 2
    requires OutcomeOf(v) != RunRejected && Settles(d.outstanding.value, v) && OutcomeOf(v') == OutcomeOf(v)
    ensures Again(Interrupted(d, v, k), v') == Again(d, v')
  {
    var o, w := d.outstanding.value, d.workflow.value;
    LaterOutcome(v, v');
    ReceiptLater(w, o.execution, v, v');
    SettledDisks(d, v, SettledText(d, o, v), Discarded(d, o, v), k);
    SameEnd(d, Interrupted(d, v, k).workflow.value, v');
  }

  /** Cut with the text settled and the run still outstanding. */
  lemma TextLater(d: Disk, v: View, v': View, k: nat)
    requires d.outstanding.Some? && d.workflow.Some? && SubmittedEligible(d) && Later(v, v') && 3 <= k <= 4
    requires OutcomeOf(v) != RunRejected && Settles(d.outstanding.value, v) && OutcomeOf(v') == OutcomeOf(v)
    ensures var o, cut := d.outstanding.value, Interrupted(d, v, k);
            && cut.workflow.Some? && SettledText(cut, o, v') == SettledText(d, o, v')
            && Again(cut, v') == Settled(cut, o, cut.workflow.value, v', SettledText(d, o, v'), Discarded(cut, o, v'))
            && cut == d.(workflow := cut.workflow, handoff := cut.handoff)
            && var held := Held(Charged(d.workflow.value, o.execution, v), v);
               cut.workflow.value == if k == 3 then held else Settle(held, o.execution, v, Discarded(d, o, v))
  {
    var o := d.outstanding.value;
    var cut := Interrupted(d, v, k);
    SameText(d, o, v, v');
    SettledDisks(d, v, SettledText(d, o, v), Discarded(d, o, v), k);
    TextStable(d, cut, o, v);
    SameText(cut, o, v, v');
    SettledWhole(cut, v', SettledText(cut, o, v'), Discarded(cut, o, v'));
  }

  /** Settling does not look at the outcome noted before, nor at the old text. */
  lemma SameSettled(d: Disk, cut: Disk, o: Outstanding, w: Receipt, w': Receipt, v: View, text: string, n: Option<string>, n': Option<string>)
    requires cut == d.(workflow := cut.workflow, handoff := cut.handoff)
    requires var end, end' := Held(Charged(w, o.execution, v), v), Held(Charged(w', o.execution, v), v);
             end' == end.(lastOutcome := end'.lastOutcome, postRun := end'.postRun)
    ensures var whole, after := Settled(d, o, w, v, text, n), Settled(cut, o, w', v, text, n');
            && Essential(after) == Essential(whole)
            && (w'.postRun == w.postRun ==> WithoutNote(after) == WithoutNote(whole))
  {
  }

  lemma SettledLater(d: Disk, v: View, v': View, k: nat)
    requires d.outstanding.Some? && d.workflow.Some? && SubmittedEligible(d) && Later(v, v') && 3 <= k <= 4
    requires OutcomeOf(v) != RunRejected && Settles(d.outstanding.value, v) && OutcomeOf(v') == OutcomeOf(v)
    ensures var after, whole := Again(Interrupted(d, v, k), v'), Again(d, v');
            && Essential(after) == Essential(whole)
            && (k < 4 ==> WithoutNote(after) == WithoutNote(whole))
  {
    var o, w := d.outstanding.value, d.workflow.value;
    var cut := Interrupted(d, v, k);
    LaterOutcome(v, v');
    SettlesToo(o, v, v');
    SettledWhole(d, v', SettledText(d, o, v'), Discarded(d, o, v'));
    ReceiptLater(w, o.execution, v, v');
    ReceiptOfSettled(Held(Charged(w, o.execution, v), v), o.execution, v, v', Discarded(d, o, v));
    TextLater(d, v, v', k);
    SameSettled(d, cut, o, w, cut.workflow.value, v', SettledText(d, o, v'), Discarded(d, o, v'), Discarded(cut, o, v'));
  }

  lemma SettlesToo(o: Outstanding, v: View, v': View)
    requires Later(v, v') && OutcomeOf(v') == OutcomeOf(v)
    ensures Settles(o, v') == Settles(o, v)
  {
  }

  lemma FinishedLater(d: Disk, v: View, v': View, k: nat)
    requires d.outstanding.Some? && d.workflow.Some? && SubmittedEligible(d) && Later(v, v') && k >= 5
    requires OutcomeOf(v) != RunRejected && Settles(d.outstanding.value, v) && OutcomeOf(v') == OutcomeOf(v)
    ensures Essential(Again(Interrupted(d, v, k), v')) == Essential(Again(d, v'))
  {
    var o := d.outstanding.value;
    LaterOutcome(v, v');
    SameText(d, o, v, v');
    SettledWhole(d, v', SettledText(d, o, v'), Discarded(d, o, v'));
    SettledDisks(d, v, SettledText(d, o, v), Discarded(d, o, v), k);
  }

  /** Crash convergence when the second look finds a changed tree, a released lock or
    * new lifecycle marks: the receipt's rounds, reservation and hold, the Status text
    * and the outstanding pointer are those of one uninterrupted run of the second
    * look; the baseline is too, unless the first one had already saved its own. */
  lemma ReconcileConvergesLater(d: Disk, v: View, v': View, k: nat)
    requires d.outstanding.Some? && d.workflow.Some? && SubmittedEligible(d) && Later(v, v')
    ensures var after, whole := Again(Interrupted(d, v, k), v'), Again(d, v');
            && Essential(after) == Essential(whole)
            && (k < 4 || !Settles(d.outstanding.value, v) ==> WithoutNote(after) == WithoutNote(whole))
  {
    assert Prefix(ReconcileWrites(d, v), 0) == [];
    LaterOutcome(v, v');
    if k == 0 {
      assert Interrupted(d, v, 0) == d;
    } else if OutcomeOf(v) == RunRejected {
      RejectedLater(d, v, v', k);
    } else if Settles(d.outstanding.value, v) && k <= 2 {
      ChargedLater(d, v, v', k);
    } else if Settles(d.outstanding.value, v) && k <= 4 {
      SettledLater(d, v, v', k);
    } else if Settles(d.outstanding.value, v) {
      FinishedLater(d, v, v', k);
    } else {
      OpenLater(d, v, v', k);
    }
  }

  /** The note is lost exactly when the crash comes after the Status was restored
    * and before the outstanding pointer went, for an unsuccessful run whose worker
    * had changed a Status that is there to change. */
  lemma NoteLostExactly(d: Disk, v: View, k: nat)
    requires d.outstanding.Some? && d.workflow.Some? && SubmittedEligible(d) && '\r' !in d.handoff
    requires Settles(d.outstanding.value, v) && Unsuccessful(OutcomeOf(v))
    ensures Again(Interrupted(d, v, k), v) == Again(d, v)
            <==> !((k == 3 || k == 4) && Rewrites(d, d.outstanding.value, v) && HasStatus(d.handoff))
  {
    var o, w := d.outstanding.value, d.workflow.value;
    assert Prefix(ReconcileWrites(d, v), 0) == [];
    assert Interrupted(d, v, 0) == d;
    SettledAgain(d, v, k);
    SettledAgain(d, v, 0);
    if k == 3 || k == 4 {
      SettledDisks(d, v, SettledText(d, o, v), Discarded(d, o, v), k);
      if Rewrites(d, o, v) {
        FinalStatusValid(d, v);
        TextReadsBack(d.handoff, FinalStatus(d, o, v));
      }
    }
  }

  /** Preflight passes exactly if nothing is outstanding, an open receipt approves the
    * plan of the file, Status is READY FOR EXECUTION or CHANGES REQUESTED, a round is
    * left, and the code is the receipt's baseline, or clean where it has none.  Then the
    * run is outstanding, with the Status and the code it was read with, unless an old
    * reservation stops it half-way; otherwise nothing is written. */
  lemma DispatchesExactly(d: Disk, e: Id, runId: Id, code: Code, sent: Fingerprint)
    ensures var after := Apply(d, DispatchWrites(d, e, runId, code, sent));
            var passes := && d.outstanding.None? && d.workflow.Some? && d.workflow.value.disposition == Open
                          && (ReadStatus(d.handoff) == READY_FOR_EXECUTION || ReadStatus(d.handoff) == CHANGES_REQUESTED)
                          && CurrentTask(d.handoff) == Ok(d.workflow.value.plan)
                          && d.workflow.value.roundsUsed + (if d.workflow.value.reserved.Some? then 1 else 0)
                             < (if d.workflow.value.maxRounds == 0 then 3 else d.workflow.value.maxRounds)
                          && (if d.workflow.value.postRun.Some? then d.workflow.value.postRun == Some(code.fingerprint) else code.clean);
            && (passes ==>
                  var w := d.workflow.value.(hold := false);
                  var records := d.records[e := RunRecord(ReadStatus(d.handoff), runId, sent)];
                  after == if w.reserved.Some? then d.(workflow := Some(w), records := records)
                           else d.(workflow := Some(w.(reserved := Some(e))), records := records,
                                   outstanding := Some(Outstanding(e, w.id, runId))))
            && (!passes ==> after == d)
  {
    if Ready(d, code) {
      var run := RunRecord(ReadStatus(d.handoff), runId, sent);
      DispatchedDisk(d, e, run);
      var ws := PreparedWrites(d.workflow.value, e, run);
      assert Prefix(ws, 4) == ws;
    }
  }

  lemma ApprovedPlan(d: Disk, newId: Id, maxRounds: nat, code: Code)
    ensures var r := ApprovedReceipt(d, newId, maxRounds, code);
            r.Some? ==> r.value.disposition == Open && CurrentTask(d.handoff) == Ok(r.value.plan)
  {
  }

  lemma NothingToApprove(d: Disk, newId: Id, maxRounds: nat, code: Code)
    requires Active(d).Some? && CurrentTask(d.handoff) == Ok(Active(d).value.plan)
    ensures ApprovedReceipt(d, newId, maxRounds, code).None?
  {
  }

  /** Approval does not converge: cut after the receipt is saved, a second approval
    * has nothing to do, and Status stays as it was. */
  lemma ApprovalCutIsFinal(d: Disk, newId: Id, maxRounds: nat, code: Code, again: Id, maxRounds': nat, code': Code)
    requires ApprovedReceipt(d, newId, maxRounds, code).Some?
    ensures var cut := d.(workflow := ApprovedReceipt(d, newId, maxRounds, code));
            ApproveWrites(cut, again, maxRounds', code') == []
  {
    ApprovedPlan(d, newId, maxRounds, code);
    NothingToApprove(d.(workflow := ApprovedReceipt(d, newId, maxRounds, code)), again, maxRounds', code');
  }

  lemma PlanAfterStatus(text: string, s: string)
    requires Plain(text) && ValidStatus(s) && CurrentTask(text).Ok?
    ensures CurrentTask(ReplaceStatus(text, s)) == CurrentTask(text) <==> !StatusSwallowsPlan(Split(text))
  {
    UnambiguousStays(text, s);
    LinesOfReplace(text, s);
    StatusWriteKeepsPlan(Split(text), s);
    PlanTexts(ReplaceStatus(text, s), text);
  }

  lemma StatusIsThere(text: string)
    requires ReadStatus(text) != ""
    ensures HasStatus(text)
  {
  }

  lemma ApprovedDisk(d: Disk, receipt: Receipt, text: string)
    ensures Apply(d, ApprovalWrites(Some(receipt), text)) == d.(workflow := Some(receipt), handoff := text)
  {
    Apply2(d, SaveWorkflow(receipt), WriteHandoff(text));
  }

  /** Closed receipt `i` is the last one that was superseded. */
  predicate LastSuperseded(closed: seq<Receipt>, i: nat) {
    && i < |closed| && closed[i].disposition == Superseded
    && forall j | i < j < |closed| :: closed[j].disposition != Superseded
  }

  lemma {:induction false} ParentIsLastSuperseded(closed: seq<Receipt>)
    ensures match LatestSuperseded(closed)
            case None => forall i | 0 <= i < |closed| :: closed[i].disposition != Superseded
            case Some(parent) => exists i: nat :: LastSuperseded(closed, i) && closed[i] == parent
    decreases |closed|
  {
    if closed != [] {
      var n := |closed| - 1;
      if closed[n].disposition == Superseded {
        assert LastSuperseded(closed, n);
      } else {
        ParentIsLastSuperseded(closed[..n]);
        if LatestSuperseded(closed[..n]).Some? {
          var i: nat :| LastSuperseded(closed[..n], i) && closed[..n][i] == LatestSuperseded(closed[..n]).value;
          assert LastSuperseded(closed, i);
        }
      }
    }
  }

  /** A first approval makes a receipt with nothing used, reserved or held; the receipt
    * superseded last, if there is one, is its parent and gives it its baseline. */
  lemma FirstApproval(d: Disk, newId: Id, maxRounds: nat, code: Code)
    requires ApprovedReceipt(d, newId, maxRounds, code).Some? && Active(d).None?
    ensures var r := ApprovedReceipt(d, newId, maxRounds, code).value;
            && r == Receipt(newId, r.parent, r.plan, maxRounds, 0, [], None, false, r.postRun, None, Open)
            && CurrentTask(d.handoff) == Ok(r.plan)
            && ((forall i | 0 <= i < |d.closed| :: d.closed[i].disposition != Superseded) ==> r.parent.None? && r.postRun.None?)
            && (forall i: nat | LastSuperseded(d.closed, i) :: r.parent == Some(d.closed[i].id) && r.postRun == d.closed[i].postRun)
  {
    ParentIsLastSuperseded(d.closed);
    if LatestSuperseded(d.closed).Some? {
      var i: nat :| LastSuperseded(d.closed, i) && d.closed[i] == LatestSuperseded(d.closed).value;
      assert forall j: nat | LastSuperseded(d.closed, j) :: j == i;
    }
  }

  /** An approval saves a receipt exactly if Status may be approved and the plan is
    * unambiguous, and, where a receipt is open, the plan is another one, nothing is
    * outstanding, and the tree is clean if a baseline would move. */
  lemma ApprovesExactly(d: Disk, newId: Id, maxRounds: nat, code: Code)
    ensures var status := ReadStatus(d.handoff);
            ApprovedReceipt(d, newId, maxRounds, code).Some?
            <==> && (status == DRAFT || status == READY_FOR_EXECUTION || status == CHANGES_REQUESTED) && Unambiguous(d.handoff)
                 && (d.workflow.Some? && d.workflow.value.disposition == Open ==>
                       && CurrentTask(d.handoff) != Ok(d.workflow.value.plan) && d.outstanding.None?
                       && (d.workflow.value.postRun.Some? && d.workflow.value.reserved.None? ==> code.clean))
  {
  }

  /** What an approval keeps: a re-approved receipt keeps its id, rounds, reservation
    * and hold, and its baseline changes to a clean tree only. */
  lemma ApprovalKeepsRounds(d: Disk, newId: Id, maxRounds: nat, code: Code)
    ensures var r := ApprovedReceipt(d, newId, maxRounds, code);
            r.Some? ==>
              && r.value.disposition == Open && CurrentTask(d.handoff) == Ok(r.value.plan) && ReadStatus(d.handoff) != ""
              && (Active(d).None? ==> r.value.id == newId && r.value.consumed == [] && r.value.reserved.None?)
              && (Active(d).Some? ==>
                    var w := Active(d).value;
                    && r.value == w.(plan := r.value.plan, postRun := r.value.postRun)
                    && d.outstanding.None? && r.value.plan != w.plan
                    && (r.value.postRun == w.postRun || (code.clean && r.value.postRun == Some(code.fingerprint)))
                    && (w.postRun.Some? && w.reserved.None? ==> r.value.postRun == Some(code.fingerprint)))
  {
    assert DRAFT != "" && READY_FOR_EXECUTION != "" && CHANGES_REQUESTED != "";
  }

  /** After an approval preflight passes exactly if the approved Status line had
    * swallowed no plan line, nothing is outstanding, a round is left, and the code
    * is the receipt's baseline, or clean where it has none. */
  lemma ApprovedIsReadyExactly(d: Disk, newId: Id, maxRounds: nat, code: Code, now: Code)
    requires ApprovedReceipt(d, newId, maxRounds, code).Some? && Plain(d.handoff) && '\r' !in d.handoff
    ensures var r := ApprovedReceipt(d, newId, maxRounds, code).value;
            Ready(Apply(d, ApproveWrites(d, newId, maxRounds, code)), now)
            <==> && !StatusSwallowsPlan(Split(d.handoff)) && d.outstanding.None? && RoundsAvailable(r) >= 1
                 && (if r.postRun.Some? then r.postRun == Some(now.fingerprint) else now.clean)
  {
    var r, text := ApprovedReceipt(d, newId, maxRounds, code).value, ReplaceStatus(d.handoff, READY_FOR_EXECUTION);
    StatusesAreValid();
    ApprovalKeepsRounds(d, newId, maxRounds, code);
    StatusIsThere(d.handoff);
    ApprovedDisk(d, r, text);
    TextReadsBack(d.handoff, READY_FOR_EXECUTION);
    PlanAfterStatus(d.handoff, READY_FOR_EXECUTION);
  }

  lemma ApprovalCut(d: Disk, receipt: Receipt, text: string, k: nat)
    ensures Apply(d, Prefix(ApprovalWrites(Some(receipt), text), k))
            == if k == 0 then d else if k == 1 then d.(workflow := Some(receipt)) else d.(workflow := Some(receipt), handoff := text)
  {
    TwoWrites(d, SaveWorkflow(receipt), WriteHandoff(text), k);
  }

  lemma SecondApproval(d: Disk, r: Receipt, newId: Id, maxRounds: nat, code: Code)
    requires Active(d) == Some(r) && Eligible(ReadStatus(d.handoff)) && CurrentTask(d.handoff).Ok?
    ensures var second := ApprovedReceipt(d, newId, maxRounds, code);
            && (second.Some? <==> CurrentTask(d.handoff) != Ok(r.plan) && d.outstanding.None? && (Rebaselines(r) ==> code.clean))
            && (second.Some? ==> second.value.plan != r.plan)
  {
  }

  lemma ApprovedText(text: string)
    requires Plain(text) && '\r' !in text && ReadStatus(text) != "" && CurrentTask(text).Ok?
    ensures var written := ReplaceStatus(text, READY_FOR_EXECUTION);
            && Eligible(ReadStatus(written)) && CurrentTask(written).Ok?
            && (CurrentTask(written) == CurrentTask(text) <==> !StatusSwallowsPlan(Split(text)))
  {
    StatusesAreValid();
    StatusIsThere(text);
    TextReadsBack(text, READY_FOR_EXECUTION);
    UnambiguousStays(text, READY_FOR_EXECUTION);
    PlanAfterStatus(text, READY_FOR_EXECUTION);
  }

  /** What a second approval finds to do after a whole one. */
  lemma ApprovedAgain(d: Disk, newId: Id, maxRounds: nat, code: Code, again: Id, maxRounds': nat, code': Code)
    requires ApprovedReceipt(d, newId, maxRounds, code).Some? && Plain(d.handoff) && '\r' !in d.handoff
    ensures var r := ApprovedReceipt(d, newId, maxRounds, code).value;
            var second := ApprovedReceipt(d.(workflow := Some(r), handoff := ReplaceStatus(d.handoff, READY_FOR_EXECUTION)),
                                          again, maxRounds', code');
            && (second.Some? <==> StatusSwallowsPlan(Split(d.handoff)) && d.outstanding.None? && (Rebaselines(r) ==> code'.clean))
            && (second.Some? ==> second.value.plan != r.plan)
  {
    var r := ApprovedReceipt(d, newId, maxRounds, code).value;
    ApprovalKeepsRounds(d, newId, maxRounds, code);
    ApprovedText(d.handoff);
    SecondApproval(d.(workflow := Some(r), handoff := ReplaceStatus(d.handoff, READY_FOR_EXECUTION)), r, again, maxRounds', code');
  }

  /** When approving again ends where one approval would have: cut before its Status
    * write, exactly if there is no Status to change; after it, exactly unless the old
    * Status line had swallowed plan text and a changed plan may be approved. */
  lemma ApprovalConvergesExactly(d: Disk, newId: Id, maxRounds: nat, code: Code, k: nat, again: Id, maxRounds': nat, code': Code)
    requires ApprovedReceipt(d, newId, maxRounds, code).Some? && Plain(d.handoff) && '\r' !in d.handoff && k > 0
    ensures var ws := ApproveWrites(d, newId, maxRounds, code);
            var cut := Apply(d, Prefix(ws, k));
            Apply(cut, ApproveWrites(cut, again, maxRounds', code')) == Apply(d, ws)
            <==> if k == 1 then ReplaceStatus(d.handoff, READY_FOR_EXECUTION) == d.handoff
                 else !(&& StatusSwallowsPlan(Split(d.handoff)) && d.outstanding.None?
                        && (Rebaselines(ApprovedReceipt(d, newId, maxRounds, code).value) ==> code'.clean))
  {
    var r, text := ApprovedReceipt(d, newId, maxRounds, code).value, ReplaceStatus(d.handoff, READY_FOR_EXECUTION);
    ApprovalCut(d, r, text, k);
    ApprovedDisk(d, r, text);
    if k == 1 {
      ApprovalCutIsFinal(d, newId, maxRounds, code, again, maxRounds', code');
    } else {
      var d' := d.(workflow := Some(r), handoff := text);
      ApprovedAgain(d, newId, maxRounds, code, again, maxRounds', code');
      if ApprovedReceipt(d', again, maxRounds', code').Some? {
        ApprovedDisk(d', ApprovedReceipt(d', again, maxRounds', code').value, ReplaceStatus(text, READY_FOR_EXECUTION));
      }
    }
  }

  // ---- every outcome, by what the task says ------------------------------------------

  /** Something says that the worker has stopped. */
  predicate SaidToHaveStopped(v: View) {
    v.lifeStopped || v.lifeUnlocked || (v.result.Some? && !v.result.value.launched) || !v.lockPresent
  }

  /** The task is over and needs no recovery. */
  predicate Over(v: View, state: TaskState) { v.state == Some(state) && !v.recovery }

  /** The result names this run and left the plan alone. */
  predicate ResultFits(o: Outstanding, v: View) {
    v.result.Some? && v.result.value == ResultView(o.execution, o.workflow, o.run, true, v.result.value.launched)
  }

  /** The round is charged and nothing else about the receipt's budget changes. */
  predicate ChargedOnce(w: Receipt, w': Receipt, e: Id) {
    && multiset(w'.consumed) == (if e in w.consumed then multiset(w.consumed) else multiset(w.consumed) + multiset{e})
    && w'.reserved == (if w.reserved == Some(e) then None else w.reserved)
    && w'.id == w.id && w'.plan == w.plan && w'.maxRounds == w.maxRounds && w'.disposition == w.disposition
  }

  lemma CompletedWrites(d: Disk, v: View)
    requires d.outstanding.Some? && d.workflow.Some? && Over(v, TaskCompleted) && SaidToHaveStopped(v)
    ensures var o, w := d.outstanding.value, d.workflow.value;
            OutcomeOf(v) == RunCompleted && !Holds(v) && Charges(v) && Discarded(d, o, v).None?
            && FinalStatus(d, o, v) == READY_FOR_QA && (Settles(o, v) <==> ResultFits(o, v))
  {
  }

  /** A completed run whose worker has stopped costs its round.  If its result names it
    * and left the plan alone, it is settled: nothing is outstanding, Status reads READY
    * FOR QA exactly if HANDOFF.md has a Status line, the outcome is noted, the code of
    * the delivery is the new baseline, and nothing can be dispatched.  Otherwise it stays
    * outstanding, and the text as it is. */
  lemma CompletedDelivery(d: Disk, v: View)
    requires d.outstanding.Some? && d.workflow.Some? && '\r' !in d.handoff
    requires Over(v, TaskCompleted) && SaidToHaveStopped(v)
    ensures var o, w, after := d.outstanding.value, d.workflow.value, Again(d, v);
            && after.workflow.Some? && ChargedOnce(w, after.workflow.value, o.execution) && after.workflow.value.hold == w.hold
            && (ResultFits(o, v) ==>
                  && after.outstanding.None?
                  && (ReadStatus(after.handoff) == READY_FOR_QA <==> HasStatus(d.handoff))
                  && (!HasStatus(d.handoff) ==> after.handoff == d.handoff)
                  && after.workflow.value.lastOutcome == Some(LastOutcome(o.execution, RunCompleted, None))
                  && after.workflow.value.postRun == (if v.fingerprint.Some? then v.fingerprint else w.postRun)
                  && forall code :: !Ready(after, code))
            && (!ResultFits(o, v) ==> after.outstanding == d.outstanding && after.handoff == d.handoff)
  {
    var o, w := d.outstanding.value, d.workflow.value;
    StatusesAreValid();
    CompletedWrites(d, v);
    TextReadsBack(d.handoff, READY_FOR_QA);
    assert READY_FOR_QA != "";
    if ResultFits(o, v) {
      SettledWhole(d, v, SettledText(d, o, v), Discarded(d, o, v));
    } else {
      TwoWrites(d, SaveWorkflow(Charged(w, o.execution, v)), SaveWorkflow(Held(Charged(w, o.execution, v), v)), 2);
    }
  }

  /** A failed or canceled run whose worker has stopped is settled as what its task says,
    * costs its round, and holds dispatch; a Status the worker wrote is noted. */
  lemma UnsuccessfulRun(d: Disk, v: View)
    requires d.outstanding.Some? && d.workflow.Some?
    requires (Over(v, TaskFailed) || Over(v, TaskCanceled)) && SaidToHaveStopped(v)
    ensures var o, w, after := d.outstanding.value, d.workflow.value, Again(d, v);
            && after.outstanding.None? && after.workflow.Some? && after.workflow.value.hold
            && ChargedOnce(w, after.workflow.value, o.execution)
            && after.workflow.value.postRun == (if v.fingerprint.Some? then v.fingerprint else w.postRun)
            && var noted := after.workflow.value.lastOutcome;
               && noted.Some? && noted.value.execution == o.execution
               && noted.value.outcome == (if v.state == Some(TaskCanceled) then RunCanceled else RunFailed)
               && noted.value.discarded
                  == (if o.execution in d.records && d.records[o.execution].status != ""
                         && ReadStatus(d.handoff) != d.records[o.execution].status
                      then Some(ReadStatus(d.handoff)) else None)
  {
    SettledWhole(d, v, SettledText(d, d.outstanding.value, v), Discarded(d, d.outstanding.value, v));
  }

  /** A rejected run gives its reservation back and costs nothing now. */
  lemma RejectedRun(d: Disk, v: View)
    requires d.outstanding.Some? && d.workflow.Some? && Over(v, TaskRejected)
    ensures var w, e := d.workflow.value, d.outstanding.value.execution;
            Again(d, v) == d.(outstanding := None,
                              workflow := Some(if w.reserved == Some(e) then w.(reserved := None) else w))
  {
    var released := Released(d.workflow.value, d.outstanding.value.execution);
    TwoWrites(d, SaveWorkflow(released), ClearOutstanding, 2);
  }

  /** A run that needs recovery, is not over, or is not said to have stopped stays
    * outstanding and the text as it is; it costs its round once its worker was seen
    * started, and dispatch is held exactly for recovery. */
  lemma UnfinishedRun(d: Disk, v: View)
    requires d.outstanding.Some? && d.workflow.Some?
    requires v.recovery || v.state.None? || !IsTerminalTask(v.state.value) || (!SaidToHaveStopped(v) && v.state != Some(TaskRejected))
    ensures var o, w, after := d.outstanding.value, d.workflow.value, Again(d, v);
            && after == d.(workflow := after.workflow) && after.workflow.Some?
            && after.workflow.value.hold == (w.hold || (v.recovery && v.state.Some?))
            && (if (v.result.Some? && v.result.value.launched) || v.lifeStarted then ChargedOnce(w, after.workflow.value, o.execution)
                else after.workflow.value == w.(hold := after.workflow.value.hold))
  {
    var e, w := d.outstanding.value.execution, d.workflow.value;
    TwoWrites(d, SaveWorkflow(Charged(w, e, v)), SaveWorkflow(Held(Charged(w, e, v), v)), 2);
  }

  /** What the client sees while the worker is alive: no sign that it stopped, a lock
    * directory, and no result of a run that never started.  The server's part of this
    * is that a live worker keeps the lock and its row. */
  predicate LiveWorkerSeen(v: View) {
    && !v.lifeStopped && !v.lifeUnlocked && v.lockPresent && v.state != Some(TaskRejected)
    && (v.result.Some? ==> v.result.value.launched)
  }

  /** However a reconciliation is cut, the outstanding pointer goes only when the worker
    * is dead and its task over. */
  lemma ClearedOnlyWhenDead(d: Disk, v: View, k: nat, alive: bool)
    requires d.outstanding.Some? && Interrupted(d, v, k).outstanding.None?
    requires alive ==> LiveWorkerSeen(v)
    ensures !alive && !v.recovery
    ensures v.state == Some(TaskCompleted) || v.state == Some(TaskFailed) || v.state == Some(TaskCanceled) || v.state == Some(TaskRejected)
  {
    ClearedOnlyWhenStopped(d, v, k);
  }

  // ---- an unsuccessful delivery -----------------------------------------------------

  /** The outstanding pointer is cleared only when the worker's stop is confirmed. */
  lemma ClearedOnlyWhenStopped(d: Disk, v: View, k: nat)
    requires d.outstanding.Some? && Interrupted(d, v, k).outstanding.None?
    ensures StopConfirmed(v)
  {
    var ws := ReconcileWrites(d, v);
    if !StopConfirmed(v) && d.workflow.Some? {
      var w := d.workflow.value;
      assert !Settles(d.outstanding.value, v);
      assert forall i | 0 <= i < |Prefix(ws, k)| :: Prefix(ws, k)[i] == ws[i];
      KeepsOutstanding(d, Prefix(ws, k));
    }
  }

  lemma {:induction false} KeepsOutstanding(d: Disk, ws: seq<Write>)
    requires forall i | 0 <= i < |ws| :: !ws[i].ClearOutstanding? && !ws[i].SaveOutstanding?
    ensures Apply(d, ws).outstanding == d.outstanding
    decreases |ws|
  {
    if ws != [] {
      KeepsOutstanding(Do(d, ws[0]), ws[1..]);
    }
  }

  /** After a failed or canceled delivery the run is settled, dispatch is held, and
    * Status is the submitted eligible one -- never READY FOR QA or APPROVED --
    * exactly when HANDOFF.md still has a Status line. */
  lemma UnsuccessfulDelivery(d: Disk, v: View)
    requires d.outstanding.Some? && d.workflow.Some? && '\r' !in d.handoff && Unsuccessful(OutcomeOf(v))
    requires d.outstanding.value.execution in d.records && Eligible(d.records[d.outstanding.value.execution].status)
    ensures var after := Again(d, v);
            && after.outstanding.None? && after.workflow.Some? && after.workflow.value.hold
            && (ReadStatus(after.handoff) == d.records[d.outstanding.value.execution].status <==> HasStatus(d.handoff))
            && ReadStatus(after.handoff) != READY_FOR_QA && ReadStatus(after.handoff) != APPROVED
  {
    var o := d.outstanding.value;
    var submitted := d.records[o.execution].status;
    StatusesAreValid();
    SettledWhole(d, v, SettledText(d, o, v), Discarded(d, o, v));
    TextReadsBack(d.handoff, submitted);
  }

  // ---- the submitted Status over runs ----------------------------------------------------

  /** Records of runs drawn before are not written again. */
  lemma {:induction false} RecordUntouched(d: Disk, ws: seq<Write>, e: Id)
    requires e in d.records && forall i | 0 <= i < |ws| :: ws[i].SaveRecord? ==> ws[i].execution != e
    ensures e in Apply(d, ws).records && Apply(d, ws).records[e] == d.records[e]
    decreases |ws|
  {
    if ws != [] {
      RecordUntouched(Do(d, ws[0]), ws[1..], e);
    }
  }

  lemma PrefixLeavesRecord(d: Disk, ws: seq<Write>, k: nat, e: Id)
    requires e in d.records && forall i | 0 <= i < |ws| :: ws[i].SaveRecord? ==> ws[i].execution != e
    ensures e in Apply(d, Prefix(ws, k)).records && Apply(d, Prefix(ws, k)).records[e] == d.records[e]
  {
    assert forall i | 0 <= i < |Prefix(ws, k)| :: Prefix(ws, k)[i] == ws[i];
    RecordUntouched(d, Prefix(ws, k), e);
  }

  /** The run record of `e` is the same on both disks. */
  predicate SameRecord(d: Disk, d': Disk, e: Id) { e in d.records && e in d'.records && d'.records[e] == d.records[e] }

  lemma ApprovalLeavesRecord(d: Disk, receipt: Option<Receipt>, text: string, k: nat, e: Id)
    requires e in d.records
    ensures SameRecord(d, Apply(d, Prefix(ApprovalWrites(receipt, text), k)), e)
  {
    PrefixLeavesRecord(d, ApprovalWrites(receipt, text), k, e);
  }

  lemma PreparedLeavesRecord(d: Disk, receipt: Receipt, e': Id, run: RunRecord, k: nat, e: Id)
    requires e in d.records && e' != e
    ensures SameRecord(d, Apply(d, Prefix(PreparedWrites(receipt, e', run), k)), e)
  {
    PrefixLeavesRecord(d, PreparedWrites(receipt, e', run), k, e);
  }

  lemma DispatchLeavesRecord(d: Disk, e': Id, runId: Id, code: Code, sent: Fingerprint, k: nat, e: Id)
    requires e in d.records && e' != e
    ensures SameRecord(d, Apply(d, Prefix(DispatchWrites(d, e', runId, code, sent), k)), e)
  {
    if Ready(d, code) {
      PreparedLeavesRecord(d, d.workflow.value, e', RunRecord(ReadStatus(d.handoff), runId, sent), k, e);
    } else {
      assert DispatchWrites(d, e', runId, code, sent) == [];
    }
  }

  lemma ReconcileLeavesRecord(s: State, v: View, text: string, discarded: Option<string>, k: nat, e: Id)
    requires e in s.disk.records
    ensures SameRecord(s.disk, CutReconcile(s, v, text, discarded, k).disk, e)
    ensures CutReconcile(s, v, text, discarded, k).h.used == s.h.used
  {
    if s.disk.outstanding.Some? && s.disk.workflow.Some? {
      PrefixLeavesRecord(s.disk, ReconciledWrites(s.disk.workflow.value, s.disk.outstanding.value, v, text, discarded), k, e);
    }
  }

  lemma ArchiveLeavesRecord(d: Disk, superseded: bool, header: string, extra: string, k: nat, e: Id)
    requires e in d.records
    ensures SameRecord(d, Apply(d, Prefix(ArchiveWrites(d, superseded, header, extra), k)), e)
  {
    if Archivable(d, superseded) {
      ClosingDisks(d, superseded, AppendArchive(header, extra, d.handoff), k);
    }
  }

  lemma RecordStays(s: State, c: Command, k: nat, e: Id)
    requires e in s.h.used && e in s.disk.records && Enabled(s, c)
    ensures e in Cut(s, c, k).h.used && SameRecord(s.disk, Cut(s, c, k).disk, e)
  {
    match c
    case Approve(newId, maxRounds, code) =>
      ApprovalLeavesRecord(s.disk, ApprovedReceipt(s.disk, newId, maxRounds, code), ReplaceStatus(s.disk.handoff, READY_FOR_EXECUTION), k, e);
    case Dispatch(e', runId, code, sent) => DispatchLeavesRecord(s.disk, e', runId, code, sent, k, e);
    case Reconcile(v) => ReconcileLeavesRecord(s, v, TextFor(s.disk, v), DiscardedFor(s.disk, v), k, e);
    case Archive(superseded, header, extra) => ArchiveLeavesRecord(s.disk, superseded, header, extra, k, e);
    case Edit(text) => EditedDisk(s.disk, text, k);
  }

  lemma {:induction false} RecordsStay(s: State, script: seq<Attempt>, e: Id)
    requires e in s.h.used && e in s.disk.records && CanRun(s, script)
    ensures var after := After(s, script); e in after.disk.records && after.disk.records[e] == s.disk.records[e]
    decreases |script|
  {
    if script != [] {
      RecordStays(s, script[0].command, script[0].cut, e);
      RecordsStay(Cut(s, script[0].command, script[0].cut), script[1..], e);
    }
  }

  lemma RunStarts(s: State, e: Id, runId: Id, code: Code, sent: Fingerprint)
    requires Inv(s) && e !in s.h.used && Ready(s.disk, code) && s.disk.workflow.value.reserved.None?
    ensures var s1 := Cut(s, Dispatch(e, runId, code, sent), 4);
            && Inv(s1) && e in s1.h.used && e in s1.disk.records
            && s1.disk.records[e].status == ReadStatus(s.disk.handoff) && Eligible(s1.disk.records[e].status)
  {
    PreparedDisks(s.disk, e, RunRecord(ReadStatus(s.disk.handoff), runId, sent), 4);
    CutInv(s, Dispatch(e, runId, code, sent), 4);
  }

  lemma RestoredAfter(s: State, script: seq<Attempt>, e: Id, v: View)
    requires Inv(s) && e in s.h.used && e in s.disk.records && Eligible(s.disk.records[e].status) && CanRun(s, script)
    requires var d := After(s, script).disk; d.outstanding.Some? && d.outstanding.value.execution == e && '\r' !in d.handoff
    requires (Over(v, TaskFailed) || Over(v, TaskCanceled)) && SaidToHaveStopped(v)
    ensures var d := After(s, script).disk;
            && Again(d, v).outstanding.None?
            && (ReadStatus(Again(d, v).handoff) == s.disk.records[e].status <==> HasStatus(d.handoff))
  {
    RunInv(s, script);
    RecordsStay(s, script, e);
    UnsuccessfulDelivery(After(s, script).disk, v);
  }

  /** Whatever commands run between the dispatch of a run and the reconciliation that
    * finds it failed or canceled, each cut anywhere, Status is then the one that was
    * dispatched, exactly if HANDOFF.md still has a Status line. */
  lemma SubmittedStatusRestored(s: State, e: Id, runId: Id, code: Code, sent: Fingerprint, script: seq<Attempt>, v: View)
    requires Inv(s) && e !in s.h.used && Ready(s.disk, code) && s.disk.workflow.value.reserved.None?
    requires CanRun(Cut(s, Dispatch(e, runId, code, sent), 4), script)
    requires var d := After(Cut(s, Dispatch(e, runId, code, sent), 4), script).disk;
             d.outstanding.Some? && d.outstanding.value.execution == e && '\r' !in d.handoff
    requires (Over(v, TaskFailed) || Over(v, TaskCanceled)) && SaidToHaveStopped(v)
    ensures var d := After(Cut(s, Dispatch(e, runId, code, sent), 4), script).disk;
            && Again(d, v).outstanding.None?
            && (ReadStatus(Again(d, v).handoff) == ReadStatus(s.disk.handoff) <==> HasStatus(d.handoff))
  {
    RunStarts(s, e, runId, code, sent);
    RestoredAfter(Cut(s, Dispatch(e, runId, code, sent), 4), script, e, v);
  }

  /** A failed or canceled run, from its reconciliation on: dispatch is held, Status is
    * not one the executor wrote, and no watch ticks, resumes, polls, cancels,
    * re-approvals, archives and edits put another run under its receipt
    * outstanding. */
  lemma FailedRunStaysHeld(s: State, v: View, acts: seq<Act>)
    requires Inv(s) && Enabled(s, Reconcile(v)) && s.disk.outstanding.Some? && s.disk.workflow.Some?
    requires SubmittedEligible(s.disk) && '\r' !in s.disk.handoff
    requires Unsuccessful(OutcomeOf(v)) && s.disk.outstanding.value.execution in s.disk.records
    requires CanAct(Cut(s, Reconcile(v), 5), acts) && Unasked(acts, s.disk.workflow.value.id)
    ensures var held := Cut(s, Reconcile(v), 5);
            && ReadStatus(held.disk.handoff) != READY_FOR_QA && ReadStatus(held.disk.handoff) != APPROVED
            && Stuck(held, s.disk.workflow.value.id, OnHold)
            && Stuck(AfterActs(held, acts), s.disk.workflow.value.id, OnHold)
  {
    var o, w := s.disk.outstanding.value, s.disk.workflow.value;
    UnsuccessfulDelivery(s.disk, v);
    SettledDisks(s.disk, v, SettledText(s.disk, o, v), Discarded(s.disk, o, v), 5);
    SettledWhole(s.disk, v, SettledText(s.disk, o, v), Discarded(s.disk, o, v));
    CutInv(s, Reconcile(v), 5);
    HeldUntilAsked(Cut(s, Reconcile(v), 5), acts, w.id);
  }

  /** Preflight does not look at the hold: a failed run with rounds left can be
    * dispatched again at once by a watcher that checked the hold too early. */
  lemma HeldRunIsReady(d: Disk, v: View, code: Code)
    requires d.outstanding.Some? && d.workflow.Some? && SubmittedEligible(d) && '\r' !in d.handoff
    requires Unsuccessful(OutcomeOf(v)) && d.outstanding.value.execution in d.records
    requires HasStatus(d.handoff) && d.workflow.value.disposition == Open
    ensures var after := Again(d, v);
            after.workflow.Some? && (Ready(after, code)
              <==> && CurrentTask(after.handoff) == Ok(d.workflow.value.plan)
                   && (if after.workflow.value.postRun.Some? then after.workflow.value.postRun == Some(code.fingerprint)
                       else code.clean)
                   && RoundsAvailable(after.workflow.value) >= 1)
  {
    UnsuccessfulDelivery(d, v);
    SettledWhole(d, v, SettledText(d, d.outstanding.value, v), Discarded(d, d.outstanding.value, v));
  }
}
