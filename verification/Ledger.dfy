/** The crash-resumable ledger: what a reader accepts. */
module Ledger {
  import opened Prelude
  import opened Harness
  import opened Differential
  import opened CaseRun

  type Key = (nat, string)

  /** A line as a reader finds it, and the artifacts its row points to: a run directory whose
      tree digest is still the recorded one, and the evidence file now at its path. */
  datatype Line = Blank | NotJson | OtherSchema | Entry(row: LedgerRow, runIntact: bool, evidence: Option<Evidence>)

  /** `torn`: the file does not end in a newline. */
  datatype LedgerFile = Missing | File(lines: seq<Line>, torn: bool)

  datatype LedgerError =
    | Torn | BlankLine | InvalidLine | UnknownSchema | OutsideSchedule | Duplicate | SourceMismatch | BadArtifacts

  function KeyOf(row: LedgerRow): Key { (row.repetition, row.caseId) }

  /** The scheduled pairs. */
  predicate Scheduled(key: Key, repetitions: nat, cases: seq<string>) {
    1 <= key.0 <= repetitions && key.1 in cases
  }

  /** The artifacts a row points to are there and are the ones it recorded. */
  predicate ArtifactsOk(line: Line)
    requires line.Entry?
  {
    var row := line.row;
    if row.status == ModelError then row.evidenceDigest.None?
    else
      && line.runIntact
      && if !row.testGenerated then row.evidenceDigest.None?
         else
           && line.evidence.Some?
           && row.evidenceDigest == Some(DigestOf(line.evidence.value))
           && line.evidence.value.caseId == row.caseId
           && row.testHash == Some(line.evidence.value.testHash)
           && line.evidence.value.caseKill == row.candidateKill
  }

  /** One line on its own: readable, in the schedule, from the frozen sources, intact. */
  predicate LineOk(line: Line, repetitions: nat, cases: seq<string>, sources: map<string, string>) {
    && line.Entry?
    && Scheduled(KeyOf(line.row), repetitions, cases)
    && line.row.caseId in sources && sources[line.row.caseId] == line.row.sourceHash
    && ArtifactsOk(line)
  }

  ghost predicate DistinctKeys(rows: seq<LedgerRow>) {
    forall i, j :: 0 <= i < j < |rows| ==> KeyOf(rows[i]) != KeyOf(rows[j])
  }

  function KeySet(rows: seq<LedgerRow>): set<Key> { set i | 0 <= i < |rows| :: KeyOf(rows[i]) }

  lemma KeySetGrows(rows: seq<LedgerRow>, row: LedgerRow)
    ensures KeySet(rows + [row]) == KeySet(rows) + {KeyOf(row)}
  {
    var longer := rows + [row];
    forall key | key in KeySet(rows) ensures key in KeySet(longer) {
      var i :| 0 <= i < |rows| && KeyOf(rows[i]) == key;
      assert KeyOf(longer[i]) == key;
    }
    assert KeyOf(longer[|rows|]) in KeySet(longer);
  }

  function Rows(lines: seq<Line>): seq<LedgerRow>
    requires forall i :: 0 <= i < |lines| ==> lines[i].Entry?
  {
    seq(|lines|, i requires 0 <= i < |lines| => lines[i].row)
  }

  ghost predicate Readable(file: LedgerFile, repetitions: nat, cases: seq<string>, sources: map<string, string>) {
    file.File? ==>
      && !file.torn
      && (forall i :: 0 <= i < |file.lines| ==> LineOk(file.lines[i], repetitions, cases, sources))
      && DistinctKeys(Rows(file.lines))
  }

  lemma RepeatUnreadable(file: LedgerFile, repetitions: nat, cases: seq<string>, sources: map<string, string>, i: nat, k: nat)
    requires file.File? && i < k < |file.lines| && file.lines[i].Entry? && file.lines[k].Entry?
    requires KeyOf(file.lines[i].row) == KeyOf(file.lines[k].row)
    ensures !Readable(file, repetitions, cases, sources)
  {
    if forall j :: 0 <= j < |file.lines| ==> LineOk(file.lines[j], repetitions, cases, sources) {
      var rows := Rows(file.lines);
      assert KeyOf(rows[i]) == KeyOf(rows[k]);
    }
  }

  /** Reads the ledger line by line. It accepts exactly the readable files, and then returns
      their rows in order. */
  method ReadProgress(file: LedgerFile, repetitions: nat, cases: seq<string>, sources: map<string, string>)
    returns (r: Result<seq<LedgerRow>, LedgerError>)
    requires forall c :: c in cases ==> c in sources
    ensures r.Ok? <==> Readable(file, repetitions, cases, sources)
    ensures r.Ok? ==> r.value == if file.Missing? then [] else Rows(file.lines)
    ensures file.File? && file.torn ==> r == Err(Torn)
  {
    if file.Missing? { return Ok([]); }
    if file.torn { return Err(Torn); }
    var seen: set<Key> := {};
    var rows: seq<LedgerRow> := [];
    for k := 0 to |file.lines|
      invariant forall i :: 0 <= i < k ==> LineOk(file.lines[i], repetitions, cases, sources)
      invariant |rows| == k && forall i :: 0 <= i < k ==> rows[i] == file.lines[i].row
      invariant DistinctKeys(rows) && seen == KeySet(rows)
    {
      var line := file.lines[k];
      match line {
        case Blank => return Err(BlankLine);
        case NotJson => return Err(InvalidLine);
        case OtherSchema => return Err(UnknownSchema);
        case Entry(row, _, _) =>
          var key := KeyOf(row);
          if !Scheduled(key, repetitions, cases) { return Err(OutsideSchedule); }
          if key in seen {
            ghost var i :| 0 <= i < k && KeyOf(rows[i]) == key;
            RepeatUnreadable(file, repetitions, cases, sources, i, k);
            return Err(Duplicate);
          }
          if sources[key.1] != row.sourceHash { return Err(SourceMismatch); }
          if !ArtifactsOk(line) { return Err(BadArtifacts); }
          KeySetGrows(rows, row);
          seen := seen + {key};
          rows := rows + [row];
      }
    }
    assert rows == Rows(file.lines);
    return Ok(rows);
  }
}
