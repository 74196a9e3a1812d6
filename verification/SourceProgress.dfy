/** What the publisher and the collector of source versions do when nobody disturbs them. */
module SourceProgress {
  import opened Common
  import opened SourceState
  import Runs

  ghost predicate Leads(s: State, s': State) {
    Runs.Leads(Step, s, s')
  }

  lemma Then(s: State, m: State, a: Action, s': State)
    requires Leads(s, m) && Step(m, a, s')
    ensures Leads(s, s')
  {
    Runs.OneStep(Step, m, a, s');
    Runs.ThenLeads(Step, s, m, s');
  }

  lemma First(s: State, a: Action, s': State)
    requires Step(s, a, s')
    ensures Leads(s, s')
  {
    Runs.OneStep(Step, s, a, s');
  }

  // ---- the publisher ----

  /** The state in which publisher `i` stands at `p`. */
  function At(s: State, i: Pid, p: Publisher): State {
    s.(publishers := s.publishers[i := p])
  }

  /** The build the row was claimed for, and the source is enabled. */
  predicate IsCurrent(s: State, p: Publisher) {
    p.repo in s.rows && s.rows[p.repo].enabled && s.rows[p.repo].arn == Some(p.arn)
  }

  /** A graph of at most 32 MiB and a snapshot of at most 200 MiB, neither empty. */
  predicate IsComplete(p: Publisher) {
    && p.graph.File? && 1 <= p.graph.size <= 33_554_432
    && p.snapshot.File? && 1 <= p.snapshot.size <= 209_715_200
  }

  /** A publisher begins by giving up if its build is not the current one; then it clears the version
      of an incomplete build, and publishes any other. */
  lemma BeginsBy(s: State, i: Pid, s': State)
    requires i in s.publishers && s.publishers[i].pc == Starting
    ensures var p := s.publishers[i];
      StepRead(s, i, s') <==>
        s' == At(s, i, p.(pc := if !IsCurrent(s, p) then Done(Superseded) else if IsComplete(p) then PuttingGraph else Clearing))
  {
  }

  /** What the manifest of a build says. */
  function ManifestFor(p: Publisher): Blob
    requires p.graph.File? && p.snapshot.File?
  {
    ManifestBlob(Manifest(p.repo, p.arn, p.createdAt, GraphKey(p.repo, p.arn), Sha256(Bytes(p.graph.doc)),
                          SnapshotKey(p.repo, p.arn), Sha256(Bytes(p.snapshot.doc))))
  }

  /** The store with the three objects of a build. */
  function Stocked(s: State, p: Publisher): map<Key, Object>
    requires p.graph.File? && p.snapshot.File?
  {
    s.store[GraphKey(p.repo, p.arn) := Object(Bytes(p.graph.doc), s.clock)]
           [SnapshotKey(p.repo, p.arn) := Object(Bytes(p.snapshot.doc), s.clock)]
           [ManifestKey(p.repo, p.arn) := Object(ManifestFor(p), s.clock)]
  }

  lemma Puts(s: State, i: Pid, p: Publisher)
    requires p.pc == PuttingGraph && p.graph.File? && p.snapshot.File?
    requires GraphKey(p.repo, p.arn) !in s.store && SnapshotKey(p.repo, p.arn) !in s.store
    ensures Leads(At(s, i, p), At(s.(store := Stocked(s, p)), i, p.(pc := Activating)))
  {
    var s0 := At(s, i, p);
    var s1 := At(s.(store := s.store[GraphKey(p.repo, p.arn) := Object(Bytes(p.graph.doc), s.clock)]), i, p.(pc := PuttingSnapshot));
    var s2 := At(s1.(store := s1.store[SnapshotKey(p.repo, p.arn) := Object(Bytes(p.snapshot.doc), s.clock)]), i,
                 p.(pc := PuttingManifest));
    var s3 := At(s.(store := Stocked(s, p)), i, p.(pc := Activating));
    assert s0.publishers[i := p.(pc := PuttingSnapshot)] == s1.publishers;
    assert s1.publishers[i := p.(pc := PuttingManifest)] == s2.publishers;
    assert s2.publishers[i := p.(pc := Activating)] == s3.publishers;
    First(s0, Put(i, false), s1);
    Then(s0, s1, Put(i, false), s2);
    Then(s0, s2, PutManifest(i, false), s3);
  }

  /** An undisturbed publisher of the current build makes it the active version, with its three objects stored. */
  lemma CurrentIsPublished(s: State, i: Pid, p: Publisher) returns (s': State)
    requires p.pc == Starting && IsCurrent(s, p) && IsComplete(p)
    requires GraphKey(p.repo, p.arn) !in s.store && SnapshotKey(p.repo, p.arn) !in s.store
    ensures Leads(At(s, i, p), s') && s'.store == Stocked(s, p) && s'.claims == s.claims
    ensures s'.rows == s.rows[p.repo := s.rows[p.repo].(active := Some(p.arn), versionError := false)]
  {
    var s0, s1 := At(s, i, p), At(s, i, p.(pc := PuttingGraph));
    var s2 := At(s.(store := Stocked(s, p)), i, p.(pc := Activating));
    s' := At(s2.(rows := s.rows[p.repo := s.rows[p.repo].(active := Some(p.arn), versionError := false)]), i,
             p.(pc := Done(Published)));
    assert s0.publishers[i := p.(pc := PuttingGraph)] == s1.publishers;
    BeginsBy(s0, i, s1);
    First(s0, Read(i), s1);
    Puts(s, i, p.(pc := PuttingGraph));
    Runs.ThenLeads(Step, s0, s1, s2);
    assert s2.publishers[i := p.(pc := Done(Published))] == s'.publishers;
    Then(s0, s2, Point(i), s');
  }

  /** An incomplete build leaves the current row without an active version, and marks it. */
  lemma IncompleteIsCleared(s: State, i: Pid, p: Publisher) returns (s': State)
    requires p.pc == Starting && IsCurrent(s, p) && !IsComplete(p)
    ensures Leads(At(s, i, p), s') && s'.store == s.store
    ensures s'.rows == s.rows[p.repo := s.rows[p.repo].(active := None, versionError := true)]
  {
    var s0, s1 := At(s, i, p), At(s, i, p.(pc := Clearing));
    s' := At(s1.(rows := s.rows[p.repo := s.rows[p.repo].(active := None, versionError := true)]), i, p.(pc := Done(Unavailable)));
    assert s0.publishers[i := p.(pc := Clearing)] == s1.publishers;
    BeginsBy(s0, i, s1);
    First(s0, Read(i), s1);
    assert s1.publishers[i := p.(pc := Done(Unavailable))] == s'.publishers;
    Then(s0, s1, Point(i), s');
  }

  /** The last step of a publisher, whatever has happened since it began: only the current build's changes the row. */
  lemma EndsBy(s: State, i: Pid, s': State)
    requires i in s.publishers && s.publishers[i].pc in {Activating, Clearing} && StepPoint(s, i, s')
    ensures var p := s.publishers[i];
      s'.rows == if !IsCurrent(s, p) then s.rows
                 else if p.pc == Activating then s.rows[p.repo := s.rows[p.repo].(active := Some(p.arn), versionError := false)]
                 else s.rows[p.repo := s.rows[p.repo].(active := None, versionError := true)]
  {
  }

  /** A put refused by an object that is already there goes on exactly when the object has the same bytes. */
  lemma RefusedGoesOnIffSame(s: State, i: Pid, s': State)
    requires i in s.publishers && StepHead(s, i, s')
    ensures var p := s.publishers[i];
      && p.pc in {HeadingGraph, HeadingSnapshot} && p.graph.File? && p.snapshot.File? && i in s'.publishers
      && (p.pc == HeadingGraph ==>
            (s'.publishers[i].pc == PuttingSnapshot
             <==> GraphKey(p.repo, p.arn) in s.store && s.store[GraphKey(p.repo, p.arn)].blob == Bytes(p.graph.doc)))
      && (p.pc == HeadingSnapshot ==>
            (s'.publishers[i].pc == PuttingManifest
             <==> SnapshotKey(p.repo, p.arn) in s.store && s.store[SnapshotKey(p.repo, p.arn)].blob == Bytes(p.snapshot.doc)))
      && (s'.publishers[i].pc in {PuttingSnapshot, PuttingManifest} || s'.publishers[i].pc == Done(Raised))
  {
  }

  function Empty(clock: nat): State {
    State(clock, map[], map[], map[], map[], [], {})
  }

  /** From the empty system, a source that is added, enabled and built has that build as its active version. */
  lemma FirstBuildIsPublished(clock: nat, i: Pid, p: Publisher, other: Doc) returns (s': State)
    requires p.pc == Starting && IsComplete(p)
    ensures Init(Empty(clock)) && Leads(Empty(clock), s') && p.repo in s'.rows && s'.rows[p.repo].active == Some(p.arn)
    ensures s'.claims == [(p.repo, p.arn)]
  {
    var s0 := Empty(clock);
    var s1 := s0.(rows := map[p.repo := Row(true, None, None, Idle, None, false, other)]);
    var s2 := s1.(rows := s1.rows[p.repo := s1.rows[p.repo].(arn := Some(p.arn), status := Building)], claims := [(p.repo, p.arn)]);
    First(s0, AddRow(p.repo, true, other), s1);
    assert s1.claims + [(p.repo, p.arn)] == s2.claims;
    Then(s0, s1, Claim(p.repo, p.arn), s2);
    Then(s0, s2, Start(i, p), At(s2, i, p));
    s' := CurrentIsPublished(s2, i, p);
    Runs.ThenLeads(Step, s0, At(s2, i, p), s');
  }

  // ---- the collector ----

  /** The row holds on to the version: it is enabled and shows or has claimed it. */
  predicate Pins(row: Option<Row>, arn: Arn) {
    row.Some? && row.value.enabled && (row.value.active == Some(arn) || row.value.arn == Some(arn))
  }

  /** An object is condemned exactly when it is at least an hour old and not pinned by the row the page goes by:
      the one it has kept, or else the one it reads now. */
  lemma CondemnsExactly(s: State, p: Sweep)
    requires p.judged < |p.page|
    ensures var (key, modified) := p.page[p.judged];
      var row := if key.repo in p.cache then p.cache[key.repo] else Lookup(s.rows, key.repo);
      && (Condemns(s, p) <==> p.now - modified >= 3_600_000 && !Pins(row, key.arn))
      && Judge(s, p).discard == if Condemns(s, p) then p.discard + {key} else p.discard
  {
  }

  function AtSweep(s: State, id: Sid, p: Sweep): State {
    s.(sweeps := s.sweeps[id := p])
  }

  lemma JudgesUnpinned(s: State, id: Sid, key: Key, modified: nat) returns (s': State)
    requires s.clock - modified >= 3_600_000 && !Pins(Lookup(s.rows, key.repo), key.arn)
    requires id in s.sweeps && s.sweeps[id] == Sweep(s.clock, [(key, modified)], 0, map[], {}, Judging)
    ensures Leads(s, s') && s'.store == s.store && id in s'.sweeps && s'.sweeps[id].pc == Deleting && s'.sweeps[id].discard == {key}
  {
    var listed := s.sweeps[id];
    CondemnsExactly(s, listed);
    var judged := Judge(s, listed);
    var s1 := AtSweep(s, id, judged).(exposed := if Exposes(s, listed) then s.exposed + {(key.repo, key.arn)} else s.exposed);
    s' := AtSweep(s1, id, judged.(pc := Deleting));
    assert StepJudge(s, id, s1);
    First(s, SweepJudge(id), s1);
    assert StepJudge(s1, id, s');
    Then(s, s1, SweepJudge(id), s');
  }

  /** An object at least an hour old whose version no enabled row shows or has claimed can be reclaimed. */
  lemma UnpinnedIsReclaimed(s: State, id: Sid, key: Key) returns (s': State)
    requires id !in s.sweeps && key in s.store && s.clock - s.store[key].modified >= 3_600_000
    requires !Pins(Lookup(s.rows, key.repo), key.arn)
    ensures Leads(s, s') && s'.store == s.store - {key}
  {
    var page := [(key, s.store[key].modified)];
    var s1 := AtSweep(s, id, Sweep(s.clock, page, 0, map[], {}, Judging));
    assert StepList(s, id, s.clock, page, s1);
    First(s, SweepList(id, s.clock, page), s1);
    var s2 := JudgesUnpinned(s1, id, key, s.store[key].modified);
    Runs.ThenLeads(Step, s, s1, s2);
    s' := s2.(store := s2.store - {key});
    assert StepDelete(s2, id, {key}, s');
    Then(s, s2, SweepDelete(id, {key}), s');
  }
}
