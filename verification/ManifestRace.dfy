/**
 Concurrent archive writers (app/archive.py:86-137, 387-436) on PostgreSQL at READ
 COMMITTED: each statement is one step and sees what is committed by then plus its own
 writes; ON CONFLICT DO NOTHING waits for a writer that holds the key uncommitted;
 sequence numbers are never reused; any writer may fail at any point and is undone.
 */
module ManifestRace {
  import opened Common

  type Content = int

  /** What an idempotency key says: the content, and the rest as a number. */
  datatype Key = Key(content: Content, rest: int)

  datatype Row = Row(key: Key, manifest: Option<int>)

  /** Which statement a writer comes to next. */
  datatype Phase =
    | InsertBlob | InsertRow | FindRow | FindManifest | InsertManifest | FindAgain | WriteDeltas | SetLabel | Finish

  datatype Writer = Writer(
    key: Key,
    wantsParquet: bool,
    phase: Phase,
    ownBlob: bool,            // uncommitted inserts of its own
    ownRow: bool,
    ownManifest: bool,
    row: Option<int>,         // ids it has found or inserted
    manifest: Option<int>,
    labels: bool)             // it has set the row's label, uncommitted

  datatype State = State(
    blobs: set<Content>,
    rows: map<int, Row>,
    manifests: map<int, Content>,
    writers: map<int, Writer>,
    nextRow: int,
    nextManifest: int)

  datatype Step =
    | Begin(key: Key, wantsParquet: bool)
    | DoBlob
    | DoRow
    | RowFound(id: int) | RowMissing
    | ManifestFound(id: int) | ManifestMissing
    | DoManifest
    | AgainFound(id: int) | AgainMissing
    | DoDeltas
    | DoLabel
    | Commit
    | Fail

  // ------------------------------------------------------------------ the steps

  ghost predicate HasRow(s: State, key: Key) {
    exists i :: i in s.rows && s.rows[i].key == key
  }

  ghost predicate HasManifest(s: State, c: Content) {
    exists m :: m in s.manifests && s.manifests[m] == c
  }

  /** Another writer holds the key, so this one waits. */
  ghost predicate BlobHeld(s: State, t: int, c: Content) {
    exists u :: u in s.writers && u != t && s.writers[u].ownBlob && s.writers[u].key.content == c
  }

  ghost predicate RowHeld(s: State, t: int, key: Key) {
    exists u :: u in s.writers && u != t && s.writers[u].ownRow && s.writers[u].key == key
  }

  ghost predicate ManifestHeld(s: State, t: int, c: Content) {
    exists u :: u in s.writers && u != t && s.writers[u].ownManifest && s.writers[u].key.content == c
  }

  ghost predicate LabelHeld(s: State, t: int, row: Option<int>) {
    exists u :: u in s.writers && u != t && s.writers[u].labels && s.writers[u].row == row
  }

  /** Where a writer goes once it has its row. */
  function AfterRow(w: Writer): Phase {
    if w.wantsParquet then FindManifest else Finish
  }

  function Committed(s: State, w: Writer): State {
    var rows1 := if w.ownRow && w.row.Some? then s.rows[w.row.value := Row(w.key, None)] else s.rows;
    var rows2 := if w.labels && w.row.Some? && w.row.value in rows1
                 then rows1[w.row.value := rows1[w.row.value].(manifest := w.manifest)] else rows1;
    s.(blobs := if w.ownBlob then s.blobs + {w.key.content} else s.blobs,
       rows := rows2,
       manifests := if w.ownManifest && w.manifest.Some? then s.manifests[w.manifest.value := w.key.content]
                    else s.manifests)
  }

  /** Writer t makes one step. */
  ghost predicate Next(s: State, t: int, step: Step, s': State) {
    if step.Begin? then
      && t !in s.writers
      && s' == s.(writers := s.writers[t := Writer(step.key, step.wantsParquet, InsertBlob,
                                                   false, false, false, None, None, false)])
    else
      && t in s.writers
      && var w := s.writers[t];
         match step
         case DoBlob =>
           && w.phase == InsertBlob && !BlobHeld(s, t, w.key.content)
           && s' == s.(writers := s.writers[t := w.(phase := InsertRow, ownBlob := w.key.content !in s.blobs)])
         case DoRow =>
           && w.phase == InsertRow && !RowHeld(s, t, w.key)
           && (if HasRow(s, w.key) then s' == s.(writers := s.writers[t := w.(phase := FindRow)])
               else s' == s.(writers := s.writers[t := w.(phase := AfterRow(w), ownRow := true,
                                                          row := Some(s.nextRow))],
                             nextRow := s.nextRow + 1))
         case RowFound(id) =>
           && w.phase == FindRow && id in s.rows && s.rows[id].key == w.key
           && s' == s.(writers := s.writers[t := w.(phase := AfterRow(w), row := Some(id))])
         case RowMissing =>
           && w.phase == FindRow && !HasRow(s, w.key)
           && s' == s.(writers := s.writers[t := w.(phase := Finish)])
         case ManifestFound(id) =>
           && w.phase == FindManifest && id in s.manifests && s.manifests[id] == w.key.content
           && s' == s.(writers := s.writers[t := w.(phase := WriteDeltas, manifest := Some(id))])
         case ManifestMissing =>
           && w.phase == FindManifest && !HasManifest(s, w.key.content)
           && s' == s.(writers := s.writers[t := w.(phase := InsertManifest)])
         case DoManifest =>
           && w.phase == InsertManifest && !ManifestHeld(s, t, w.key.content)
           && (if HasManifest(s, w.key.content) then s' == s.(writers := s.writers[t := w.(phase := FindAgain)])
               else s' == s.(writers := s.writers[t := w.(phase := WriteDeltas, ownManifest := true,
                                                          manifest := Some(s.nextManifest))],
                             nextManifest := s.nextManifest + 1))
         case AgainFound(id) =>
           && w.phase == FindAgain && id in s.manifests && s.manifests[id] == w.key.content
           && s' == s.(writers := s.writers[t := w.(phase := WriteDeltas, manifest := Some(id))])
         case AgainMissing =>
           && w.phase == FindAgain && !HasManifest(s, w.key.content)
           && s' == s.(writers := s.writers[t := w.(phase := WriteDeltas)])
         case DoDeltas =>
           && w.phase == WriteDeltas
           && s' == s.(writers := s.writers[t := w.(phase := if w.manifest.Some? then SetLabel else Finish)])
         case DoLabel =>
           && w.phase == SetLabel && !LabelHeld(s, t, w.row)
           && s' == s.(writers := s.writers[t := w.(phase := Finish, labels := true)])
         case Commit =>
           && w.phase == Finish
           && s' == Committed(s, w).(writers := s.writers - {t})
         case Fail =>
           s' == s.(writers := s.writers - {t})
  }

  predicate Init(s: State) {
    s.blobs == {} && s.rows == map[] && s.manifests == map[] && s.writers == map[]
  }

  // -------------------------------------------------------------- the invariant

  /** The storage label invariant, and a blob for every row. */
  ghost predicate RowSound(s: State, row: Row) {
    && row.key.content in s.blobs
    && (row.manifest.Some? ==> row.manifest.value in s.manifests && s.manifests[row.manifest.value] == row.key.content)
  }

  ghost predicate RowsSound(s: State) {
    forall i :: i in s.rows ==> RowSound(s, s.rows[i])
  }

  /** The uniqueness constraints, and sequences ahead of what they gave out. */
  ghost predicate RowsUnique(s: State) {
    && (forall i :: i in s.rows ==> i < s.nextRow)
    && (forall i, j :: i in s.rows && j in s.rows && s.rows[i].key == s.rows[j].key ==> i == j)
  }

  ghost predicate ManifestsUnique(s: State) {
    && (forall m :: m in s.manifests ==> m < s.nextManifest)
    && (forall m, n :: m in s.manifests && n in s.manifests && s.manifests[m] == s.manifests[n] ==> m == n)
  }

  ghost predicate BlobReady(s: State, w: Writer) {
    w.phase != InsertBlob ==> w.ownBlob || w.key.content in s.blobs
  }

  ghost predicate RowReady(s: State, w: Writer) {
    && (w.ownRow ==> w.row.Some? && w.row.value !in s.rows && w.row.value < s.nextRow && !HasRow(s, w.key))
    && (!w.ownRow && w.row.Some? ==> w.row.value in s.rows && s.rows[w.row.value].key == w.key)
    && (w.phase == FindRow ==> HasRow(s, w.key))
    && (w.phase in {InsertBlob, InsertRow, FindRow} ==> w.row == None)
    && (w.phase !in {InsertBlob, InsertRow, FindRow} ==> w.row.Some?)
  }

  ghost predicate ManifestReady(s: State, w: Writer) {
    && (w.ownManifest ==> w.manifest.Some? && w.manifest.value !in s.manifests && w.manifest.value < s.nextManifest
                          && !HasManifest(s, w.key.content))
    && (!w.ownManifest && w.manifest.Some? ==>
          w.manifest.value in s.manifests && s.manifests[w.manifest.value] == w.key.content)
    && (w.phase == FindAgain ==> HasManifest(s, w.key.content))
    && (w.phase in {WriteDeltas, SetLabel} ==> w.manifest.Some?)
    && (w.labels ==> w.manifest.Some?)
    && (w.phase == Finish && w.wantsParquet ==> w.labels)
    && (w.phase in {InsertBlob, InsertRow, FindRow, FindManifest, InsertManifest, FindAgain} ==> w.manifest == None)
  }

  ghost predicate WritersReady(s: State) {
    forall t :: t in s.writers ==>
      BlobReady(s, s.writers[t]) && RowReady(s, s.writers[t]) && ManifestReady(s, s.writers[t])
  }

  /** Two uncommitted rows, or manifests, are never under one key, nor under one id. */
  ghost predicate Apart(v: Writer, w: Writer) {
    && (v.ownRow && w.ownRow ==> v.key != w.key && v.row != w.row)
    && (v.ownManifest && w.ownManifest ==> v.key.content != w.key.content && v.manifest != w.manifest)
  }

  ghost predicate WritersApart(s: State) {
    forall t, u :: t in s.writers && u in s.writers && t != u ==> Apart(s.writers[t], s.writers[u])
  }

  ghost predicate Inv(s: State) {
    RowsSound(s) && RowsUnique(s) && ManifestsUnique(s) && WritersReady(s) && WritersApart(s)
  }

  // ---------------------------------------------------------------- preservation

  lemma StepKeepsRowsSound(s: State, t: int, step: Step, s': State)
    requires Inv(s) && Next(s, t, step, s')
    ensures RowsSound(s')
  {
    if step.Commit? {
      var w := s.writers[t];
      forall i | i in s'.rows ensures RowSound(s', s'.rows[i]) {
        if i in s.rows {
          assert RowSound(s, s.rows[i]);
        }
      }
    } else {
      forall i | i in s'.rows ensures RowSound(s', s'.rows[i]) {
        assert RowSound(s, s.rows[i]);
      }
    }
  }

  lemma StepKeepsRowsUnique(s: State, t: int, step: Step, s': State)
    requires Inv(s) && Next(s, t, step, s')
    ensures RowsUnique(s')
  {
  }

  lemma StepKeepsManifestsUnique(s: State, t: int, step: Step, s': State)
    requires Inv(s) && Next(s, t, step, s')
    ensures ManifestsUnique(s')
  {
  }

  lemma StepKeepsWritersApart(s: State, t: int, step: Step, s': State)
    requires Inv(s) && Next(s, t, step, s')
    ensures WritersApart(s')
  {
  }

  /** The writer that moves stays ready for its next statement. */
  lemma OwnStepReady(s: State, t: int, step: Step, s': State)
    requires Inv(s) && Next(s, t, step, s') && t in s'.writers
    ensures BlobReady(s', s'.writers[t]) && RowReady(s', s'.writers[t]) && ManifestReady(s', s'.writers[t])
  {
    assert !step.Commit?;
    assert s'.rows == s.rows && s'.manifests == s.manifests && s'.blobs == s.blobs;
    if !step.Begin? {
      assert BlobReady(s, s.writers[t]) && RowReady(s, s.writers[t]) && ManifestReady(s, s.writers[t]);
    }
  }

  /** Another writer's step, even its commit, takes nothing away. */
  lemma OtherStepRowReady(s: State, t: int, step: Step, s': State, u: int)
    requires Inv(s) && Next(s, t, step, s') && u in s'.writers && u != t
    ensures u in s.writers && s'.writers[u] == s.writers[u]
    ensures BlobReady(s', s'.writers[u]) && RowReady(s', s'.writers[u])
  {
    var v := s.writers[u];
    assert BlobReady(s, v) && RowReady(s, v);
    if step.Commit? {
      assert Apart(s.writers[t], v);
      if HasRow(s, v.key) {
        var i :| i in s.rows && s.rows[i].key == v.key;
        assert i in s'.rows && s'.rows[i].key == v.key;
      }
    }
  }

  lemma OtherStepManifestReady(s: State, t: int, step: Step, s': State, u: int)
    requires Inv(s) && Next(s, t, step, s') && u in s'.writers && u != t
    ensures u in s.writers && s'.writers[u] == s.writers[u] && ManifestReady(s', s'.writers[u])
  {
    var v := s.writers[u];
    assert ManifestReady(s, v);
    if step.Commit? {
      assert Apart(s.writers[t], v);
      if HasManifest(s, v.key.content) {
        var m :| m in s.manifests && s.manifests[m] == v.key.content;
        assert m in s'.manifests && s'.manifests[m] == v.key.content;
      }
    }
  }

  lemma StepKeepsWritersReady(s: State, t: int, step: Step, s': State)
    requires Inv(s) && Next(s, t, step, s')
    ensures WritersReady(s')
  {
    forall u | u in s'.writers
      ensures BlobReady(s', s'.writers[u]) && RowReady(s', s'.writers[u]) && ManifestReady(s', s'.writers[u])
    {
      if u == t {
        OwnStepReady(s, t, step, s');
      } else {
        OtherStepRowReady(s, t, step, s', u);
        OtherStepManifestReady(s, t, step, s', u);
      }
    }
  }

  lemma StepKeepsInv(s: State, t: int, step: Step, s': State)
    requires Inv(s) && Next(s, t, step, s')
    ensures Inv(s')
  {
    StepKeepsRowsSound(s, t, step, s');
    StepKeepsRowsUnique(s, t, step, s');
    StepKeepsManifestsUnique(s, t, step, s');
    StepKeepsWritersReady(s, t, step, s');
    StepKeepsWritersApart(s, t, step, s');
  }

  // ----------------------------------------------------------------- main claims

  /** A run: at each moment, some writer makes a step. */
  ghost predicate Run(ss: seq<State>, ts: seq<int>, steps: seq<Step>) {
    && |ss| == |steps| + 1 && |ts| == |steps| && Init(ss[0])
    && forall n :: 0 <= n < |steps| ==> Next(ss[n], ts[n], steps[n], ss[n + 1])
  }

  lemma {:induction false} RunKeepsInv(ss: seq<State>, ts: seq<int>, steps: seq<Step>, n: nat)
    requires Run(ss, ts, steps) && n < |ss|
    ensures Inv(ss[n])
  {
    if n > 0 {
      RunKeepsInv(ss, ts, steps, n - 1);
      assert Next(ss[n - 1], ts[n - 1], steps[n - 1], ss[n]);
      StepKeepsInv(ss[n - 1], ts[n - 1], steps[n - 1], ss[n]);
    }
  }

  /**
   In every committed state, whoever raced and whoever failed: a labelled row names a
   manifest that exists and is of the row's content, every row has its blob, no key has
   two rows and no content two manifests.
   */
  lemma LabelsAlwaysSound(ss: seq<State>, ts: seq<int>, steps: seq<Step>, n: nat, i: int)
    requires Run(ss, ts, steps) && n < |ss| && i in ss[n].rows
    ensures ss[n].rows[i].key.content in ss[n].blobs
    ensures var m := ss[n].rows[i].manifest;
            m.Some? ==> m.value in ss[n].manifests && ss[n].manifests[m.value] == ss[n].rows[i].key.content
    ensures forall j :: j in ss[n].rows && ss[n].rows[j].key == ss[n].rows[i].key ==> i == j
    ensures forall m, m' :: m in ss[n].manifests && m' in ss[n].manifests ==>
              ss[n].manifests[m] == ss[n].manifests[m'] ==> m == m'
  {
    RunKeepsInv(ss, ts, steps, n);
    assert RowSound(ss[n], ss[n].rows[i]);
  }

  /** The select after a lost insert always finds the winner's row, so neither id is ever None. */
  lemma LostRaceFindsWinner(ss: seq<State>, ts: seq<int>, steps: seq<Step>, n: nat)
    requires Run(ss, ts, steps) && n < |steps|
    ensures steps[n] != RowMissing && steps[n] != AgainMissing
  {
    RunKeepsInv(ss, ts, steps, n);
    assert Next(ss[n], ts[n], steps[n], ss[n + 1]);
    if ts[n] in ss[n].writers {
      assert RowReady(ss[n], ss[n].writers[ts[n]]) && ManifestReady(ss[n], ss[n].writers[ts[n]]);
    }
  }

  /** Rows, labels, blobs and manifests once committed stay. */
  lemma CommittedStays(s: State, t: int, step: Step, s': State, i: int)
    requires Inv(s) && Next(s, t, step, s') && i in s.rows
    ensures i in s'.rows && s'.rows[i].key == s.rows[i].key
    ensures s.rows[i].manifest.Some? ==> s'.rows[i].manifest == s.rows[i].manifest
  {
    if step.Commit? {
      var w := s.writers[t];
      assert RowReady(s, w) && ManifestReady(s, w) && RowSound(s, s.rows[i]);
      if w.row == Some(i) && w.labels && s.rows[i].manifest.Some? {
        var m := s.rows[i].manifest.value;
        assert m in s.manifests && s.manifests[m] == w.key.content;
        assert HasManifest(s, w.key.content);
      }
    }
  }

  /** A writer that gets to its commit and wanted Parquet leaves its row labelled. */
  lemma CommitLabels(ss: seq<State>, ts: seq<int>, steps: seq<Step>, n: nat)
    requires Run(ss, ts, steps) && n < |steps| && steps[n] == Commit
    requires ts[n] in ss[n].writers && ss[n].writers[ts[n]].wantsParquet
    ensures var w := ss[n].writers[ts[n]];
            && w.row.Some? && w.row.value in ss[n + 1].rows && ss[n + 1].rows[w.row.value].key == w.key
            && ss[n + 1].rows[w.row.value].manifest == w.manifest && w.manifest.Some?
  {
    RunKeepsInv(ss, ts, steps, n);
    var w := ss[n].writers[ts[n]];
    assert Next(ss[n], ts[n], steps[n], ss[n + 1]);
    assert RowReady(ss[n], w) && ManifestReady(ss[n], w);
  }
}
