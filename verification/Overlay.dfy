/** The write-once overlay: adjudication runs over two files that, once there, never change. */
module Overlay {
  import opened Prelude
  import opened CaseRun
  import opened Ledger
  import opened Median
  import opened Summary
  import opened Adjudication

  /** `Foreign`: a file is there that does not hold a record of this kind. */
  datatype FileState<+T> = Absent | Foreign | Written(value: T)

  datatype Files = Files(record: FileState<Record>, summary: FileState<Adjudicated>)

  /** A file that can be written only once. */
  class OnceFile<T(==)> {
    var state: FileState<T>

    constructor ()
      ensures state == Absent
    {
      state := Absent;
    }

    /** Writes the payload to an absent file, accepts a file that already holds it, and refuses any other. */
    method WriteOnce(payload: T) returns (ok: bool)
      modifies this
      ensures ok <==> state == Written(payload)
      ensures state == if old(state).Absent? then Written(payload) else old(state)
    {
      if !state.Absent? { return state == Written(payload); }
      state := Written(payload);
      ok := true;
    }
  }

  function RecordOf(x: Inputs): Record
    requires x.decisions.Some? && x.ledger.File? && forall i :: 0 <= i < |x.ledger.lines| ==> x.ledger.lines[i].Entry?
  {
    var cases := CasesOf(Rows(x.ledger.lines), x.decisions.value.decisions);
    Record(x, |cases|, cases)
  }

  /** What one adjudication does to the overlay. It dies before its `crash`-th write, if at all. */
  ghost predicate OverlayStep(o: Files, n: Files, x: Inputs, crash: Option<nat>) {
    if !Accepts(x) || crash == Some(0) then n == o
    else
      var record := RecordOf(x);
      && n.record == (if o.record.Absent? then Written(record) else o.record)
      && if n.record != Written(record) || crash == Some(1) || !o.summary.Absent? then n.summary == o.summary
         else n.summary.Written? && IsAdjudicated(n.summary.value, x, record.cases)
  }

  lemma {:induction false} CasesScheduled(rows: seq<LedgerRow>, decisions: seq<Decision>, repetitions: nat)
    requires forall i :: 0 <= i < |rows| ==> 1 <= rows[i].repetition <= repetitions
    ensures forall i :: 0 <= i < |CasesOf(rows, decisions)| ==> 1 <= CasesOf(rows, decisions)[i].repetition <= repetitions
  {
    if rows != [] {
      CasesScheduled(rows[..|rows| - 1], decisions, repetitions);
      FindKey(decisions, KeyOf(rows[|rows| - 1]));
    }
  }

  lemma AcceptedScheduled(x: Inputs)
    requires Accepts(x)
    ensures forall i :: 0 <= i < |RecordOf(x).cases| ==>
              1 <= RecordOf(x).cases[i].repetition <= x.frozen.value.config.repetitions
  {
    hide CompleteMatrix, Matched, ArtifactsOk, CasesOf;
    var rows := Rows(x.ledger.lines);
    forall i | 0 <= i < |rows| ensures 1 <= rows[i].repetition <= x.frozen.value.config.repetitions {
      assert Scheduled(KeyOf(x.ledger.lines[i].row), x.frozen.value.config.repetitions, x.frozen.value.config.selected);
    }
    CasesScheduled(rows, x.decisions.value.decisions, x.frozen.value.config.repetitions);
  }

  /** An adjudicated summary is determined by what it was built from. */
  lemma AdjudicatedUnique(a: Adjudicated, b: Adjudicated, x: Inputs, cases: seq<CaseDecision>)
    requires x.frozen.Some? && x.raw.Some? && IsAdjudicated(a, x, cases) && IsAdjudicated(b, x, cases)
    ensures a == b
  {
    hide MedianOf, MinOf, MaxOf, ConfirmedValues, ConfirmedTotal, WithoutPending;
  }

  /** Both files are there and are the ones adjudicating `x` makes. */
  ghost predicate Holds(o: Files, x: Inputs)
    requires Accepts(x)
  {
    && o.record == Written(RecordOf(x)) && o.summary.Written?
    && IsAdjudicated(o.summary.value, x, RecordOf(x).cases)
  }

  lemma HoldsOnly(o: Files, x: Inputs, a: Adjudicated)
    requires Accepts(x) && IsAdjudicated(a, x, RecordOf(x).cases) && o.record == Written(RecordOf(x))
    ensures Holds(o, x) <==> o.summary == Written(a)
  {
    hide Accepts, IsAdjudicated, CasesOf;
    AcceptedParts(x);
    if Holds(o, x) { AdjudicatedUnique(o.summary.value, a, x, RecordOf(x).cases); }
  }

  class Adjudicator {
    const record: OnceFile<Record>
    const summary: OnceFile<Adjudicated>

    constructor ()
      ensures View() == Files(Absent, Absent) && fresh(record) && fresh(summary)
    {
      record := new OnceFile();
      summary := new OnceFile();
    }

    ghost function View(): Files reads this, record, summary { Files(record.state, summary.state) }

    method Adjudicate(x: Inputs, crash: Option<nat>) returns (ok: bool)
      modifies record, summary
      ensures OverlayStep(old(View()), View(), x, crash)
      ensures ok <==> crash != Some(0) && crash != Some(1) && Accepts(x) && Holds(View(), x)
    {
      hide Accepts, IsAdjudicated, CasesOf;
      var r := Validate(x);
      if r.Err? { return false; }
      if crash == Some(0) { return false; }
      AcceptedParts(x);
      AcceptedScheduled(x);
      var cases := r.value;
      assert RecordOf(x).cases == cases;
      ok := record.WriteOnce(Record(x, |cases|, cases));
      if !ok || crash == Some(1) { return false; }
      var a := BuildAdjudicated(x, cases);
      ok := summary.WriteOnce(a);
      HoldsOnly(View(), x, a);
    }
  }

  lemma AcceptedParts(x: Inputs)
    requires Accepts(x)
    ensures x.frozen.Some? && x.raw.Some? && x.decisions.Some? && x.ledger.File?
    ensures forall i :: 0 <= i < |x.ledger.lines| ==> x.ledger.lines[i].Entry?
  {
  }

  // ----- Any sequence of adjudications --------------------------------------------------

  ghost predicate Attempt(o: Files, n: Files) {
    exists x: Inputs, crash: Option<nat> :: OverlayStep(o, n, x, crash)
  }

  ghost predicate Overlays(os: seq<Files>) {
    && os != [] && os[0] == Files(Absent, Absent)
    && forall i :: 0 <= i < |os| - 1 ==> Attempt(os[i], os[i + 1])
  }

  /** The summary, once there, belongs to the record, and the record to inputs that were accepted. */
  ghost predicate Consistent(o: Files) {
    && !o.record.Foreign? && !o.summary.Foreign?
    && (o.record.Written? ==> Accepts(o.record.value.inputs) && o.record.value == RecordOf(o.record.value.inputs))
    && (o.summary.Written? ==>
          && o.record == Written(o.summary.value.record)
          && IsAdjudicated(o.summary.value, o.record.value.inputs, o.record.value.cases))
  }

  lemma StepConsistent(o: Files, n: Files, x: Inputs, crash: Option<nat>)
    requires OverlayStep(o, n, x, crash) && Consistent(o)
    ensures Consistent(n)
  {
    hide Accepts, CasesOf, MedianOf, MinOf, MaxOf, ConfirmedValues, ConfirmedTotal, WithoutPending, ConfirmedScores;
  }

  lemma StepWriteOnce(o: Files, n: Files)
    requires Attempt(o, n)
    ensures !o.record.Absent? ==> n.record == o.record
    ensures !o.summary.Absent? ==> n.summary == o.summary
  {
    hide Accepts, IsAdjudicated;
    var x: Inputs, crash: Option<nat> :| OverlayStep(o, n, x, crash);
    if Accepts(x) { AcceptedParts(x); }
  }

  /** Over any sequence of adjudications, interrupted or not and over any inputs, a written file
      never changes, and what is written is consistent. */
  lemma {:induction false} WriteOnceForever(os: seq<Files>, i: nat, j: nat)
    requires Overlays(os) && i <= j < |os|
    ensures !os[i].record.Absent? ==> os[j].record == os[i].record
    ensures !os[i].summary.Absent? ==> os[j].summary == os[i].summary
    ensures Consistent(os[j])
    decreases j
  {
    hide Consistent, OverlayStep, Attempt;
    if j == 0 {
      EmptyConsistent();
    } else {
      assert Attempt(os[j - 1], os[j - 1 + 1]);
      WriteOnceForever(os, if i < j then i else j - 1, j - 1);
      StepWriteOnce(os[j - 1], os[j]);
      AttemptConsistent(os[j - 1], os[j]);
    }
  }

  lemma EmptyConsistent()
    ensures Consistent(Files(Absent, Absent))
  {
  }

  lemma AttemptConsistent(o: Files, n: Files)
    requires Attempt(o, n) && Consistent(o)
    ensures Consistent(n)
  {
    hide Consistent, OverlayStep;
    var x: Inputs, crash: Option<nat> :| OverlayStep(o, n, x, crash);
    StepConsistent(o, n, x, crash);
  }

  /** An adjudication that died between its two files is completed by a run over the same
      inputs, and by no other: any other inputs leave the overlay as it is. */
  lemma CompletedOnlyBySame(o: Files, n: Files, x: Inputs, crash: Option<nat>)
    requires Consistent(o) && o.record.Written? && o.summary.Absent? && OverlayStep(o, n, x, crash)
    ensures n.summary.Written? <==> x == o.record.value.inputs && crash != Some(0) && crash != Some(1)
    ensures !n.summary.Written? ==> n == o
  {
    hide Accepts, IsAdjudicated, CasesOf;
    if Accepts(x) { AcceptedParts(x); }
    AcceptedParts(o.record.value.inputs);
  }
}
