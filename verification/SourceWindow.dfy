/** The one way an active source version can lose its artifacts: a disabled row. */
module SourceWindow {
  import opened Common
  import opened SourceState
  import opened SourceProof

  /** The row a collector goes by for an object of its page: the one it read for this page. */
  function RowFor(s: State, p: Sweep, k: Key): Option<Row> {
    CacheFor(s, p, k.repo)[k.repo]
  }

  predicate Off(row: Option<Row>) {
    row.None? || !row.value.enabled
  }

  /** The version is what its row points at, or the build that has the row claimed. */
  predicate InUse(s: State, r: Repo, a: Arn) {
    r in s.rows && (s.rows[r].active == Some(a) || s.rows[r].arn == Some(a))
  }

  /** However stale its row: a collector condemns an old object of a version in use exactly when
      the row it goes by is missing or disabled. */
  lemma CondemnsActiveIffDisabled(s: State, id: Sid, k: Key, modified: nat)
    requires Inv(s) && id in s.sweeps && s.sweeps[id].judged < |s.sweeps[id].page|
    requires var p := s.sweeps[id]; p.page[p.judged] == (k, modified) && p.now - modified >= 3_600_000
    requires InUse(s, k.repo, k.arn)
    ensures var p := s.sweeps[id];
      && (Condemns(s, p) <==> Off(RowFor(s, p, k))) && (Exposes(s, p) <==> Off(RowFor(s, p, k)))
      && (k in Judge(s, p).discard <==> k in p.discard || Off(RowFor(s, p, k)))
  {
    var p := s.sweeps[id];
    assert CacheOk(s, p, p.page[p.judged].0);
  }

  /** Whatever is deleted of a version in use was condemned under a missing or disabled row. */
  lemma DeletedWasExposed(s: State, id: Sid, keys: set<Key>, s': State, k: Key)
    requires Inv(s) && StepDelete(s, id, keys, s') && k in keys && !Dead(s, k.repo, k.arn)
    ensures (k.repo, k.arn) in s.exposed
  {
    assert SweepOk(s, s.sweeps[id]);
  }

  ghost predicate WasOff(ss: seq<State>, h: nat, r: Repo, a: Arn) {
    h < |ss| && (r, a) in ss[h].claims && Off(Lookup(ss[h].rows, r))
  }

  /** So an object of a version in use is deleted only if, at some instant since that version was
      claimed, its row was missing or disabled. */
  lemma DeleteNeedsDisabled(ss: seq<State>, acts: seq<Action>, i: nat, k: Key)
    requires IsRun(ss, acts) && i < |acts| && acts[i].SweepDelete? && k in acts[i].keys && InUse(ss[i], k.repo, k.arn)
    ensures exists h :: 0 <= h <= i && WasOff(ss, h, k.repo, k.arn)
  {
    assert StepAt(ss, acts, i);
    RunInv(ss, acts, i);
    DeletedWasExposed(ss[i], acts[i].id, acts[i].keys, ss[i + 1], k);
    if forall h :: 0 <= h <= i ==> !WasOff(ss, h, k.repo, k.arn) {
      NeverOffNeverExposed(ss, acts, i, k.repo, k.arn);
    }
  }

  lemma NeverOffNeverExposed(ss: seq<State>, acts: seq<Action>, i: nat, r: Repo, a: Arn)
    requires IsRun(ss, acts) && i < |ss| && forall h :: 0 <= h <= i ==> !WasOff(ss, h, r, a)
    ensures (r, a) !in ss[i].exposed
  {
    forall h | 0 < h <= i && (r, a) in ss[h].claims ensures r in ss[h].rows && ss[h].rows[r].enabled {
      assert !WasOff(ss, h, r, a);
    }
    EnabledNeverExposed(ss, acts, 0, i, r, a);
  }

  ghost predicate Reaches(s: State) {
    exists ss, acts :: IsRun(ss, acts) && ss[|ss| - 1] == s
  }

  lemma ReachInit(s: State)
    requires Init(s)
    ensures Reaches(s)
  {
    assert IsRun([s], []) && [s][|[s]| - 1] == s;
  }

  lemma ReachedInv(s: State)
    requires Reaches(s)
    ensures Inv(s)
  {
    var ss, acts :| IsRun(ss, acts) && ss[|ss| - 1] == s;
    var last := |ss| - 1;
    RunInv(ss, acts, last);
  }

  lemma ReachStep(s: State, a: Action, s': State)
    requires Reaches(s) && Step(s, a, s')
    ensures Reaches(s')
  {
    var ss, acts :| IsRun(ss, acts) && ss[|ss| - 1] == s;
    var tt, bb := ss + [s'], acts + [a];
    forall i | 0 <= i < |bb| ensures StepAt(tt, bb, i) {
      if i < |acts| { assert StepAt(ss, acts, i); }
    }
    assert IsRun(tt, bb) && tt[|tt| - 1] == s';
  }

  lemma ReachPublisher(s: State, i: Pid, pc: Pc) returns (s': State)
    requires Reaches(s) && i in s.publishers
    requires (s.publishers[i].pc == Starting && Current(s.rows, s.publishers[i]) && !HasProblem(s.publishers[i]) && pc == PuttingGraph)
    ensures Reaches(s') && s' == s.(publishers := s.publishers[i := s.publishers[i].(pc := pc)])
  {
    s' := s.(publishers := s.publishers[i := s.publishers[i].(pc := pc)]);
    ReachStep(s, Read(i), s');
  }

  /** A claimed build whose publisher has passed its first check. */
  lemma Started(s0: State, r: Repo, a: Arn, other: Doc, i: Pid, graph: Doc, snapshot: Doc) returns (s: State)
    requires Init(s0)
    ensures Reaches(s) && s.store == map[] && s.sweeps == map[]
    ensures s.rows == map[r := Row(true, Some(a), None, Building, None, false, other)]
    ensures i in s.publishers
            && s.publishers[i] == Publisher(r, a, File(1, graph), File(1, snapshot), other, PuttingGraph)
  {
    ReachInit(s0);
    var row := Row(true, None, None, Idle, None, false, other);
    var s1 := s0.(rows := s0.rows[r := row]);
    ReachStep(s0, AddRow(r, true, other), s1);
    var s2 := s1.(rows := s1.rows[r := row.(arn := Some(a), status := Building)], claims := s1.claims + [(r, a)]);
    ReachStep(s1, Claim(r, a), s2);
    var p := Publisher(r, a, File(1, graph), File(1, snapshot), other, Starting);
    var s3 := s2.(publishers := s2.publishers[i := p]);
    ReachStep(s2, Start(i, p), s3);
    s := ReachPublisher(s3, i, PuttingGraph);
  }

  /** A publisher that has stored its graph and its snapshot. */
  lemma Uploaded(s0: State, r: Repo, a: Arn, other: Doc, i: Pid, graph: Doc, snapshot: Doc) returns (s: State)
    requires Init(s0)
    ensures Reaches(s) && s.sweeps == map[] && s.store.Keys == {GraphKey(r, a), SnapshotKey(r, a)}
    ensures s.rows == map[r := Row(true, Some(a), None, Building, None, false, other)]
    ensures i in s.publishers
            && s.publishers[i] == Publisher(r, a, File(1, graph), File(1, snapshot), other, PuttingManifest)
  {
    var s1 := Started(s0, r, a, other, i, graph, snapshot);
    var p := s1.publishers[i];
    var s2 := s1.(store := s1.store[GraphKey(r, a) := Object(Bytes(graph), s1.clock)],
                  publishers := s1.publishers[i := p.(pc := PuttingSnapshot)]);
    ReachStep(s1, Put(i, false), s2);
    s := s2.(store := s2.store[SnapshotKey(r, a) := Object(Bytes(snapshot), s2.clock)],
             publishers := s2.publishers[i := p.(pc := PuttingManifest)]);
    ReachStep(s2, Put(i, false), s);
  }

  /** A build that published: its row points at three stored objects. */
  lemma PublishedState(s0: State, r: Repo, a: Arn, other: Doc, i: Pid, graph: Doc, snapshot: Doc) returns (s: State)
    requires Init(s0)
    ensures Reaches(s) && s.sweeps == map[] && GraphKey(r, a) in s.store
    ensures s.rows == map[r := Row(true, Some(a), Some(a), Building, None, false, other)]
  {
    var s3 := Uploaded(s0, r, a, other, i, graph, snapshot);
    var p := s3.publishers[i];
    var s4 := s3.(store := s3.store[ManifestKey(r, a) := Object(ManifestBlob(ManifestOf(p)), s3.clock)],
                  publishers := s3.publishers[i := p.(pc := Activating)]);
    ReachStep(s3, PutManifest(i, false), s4);
    s := s4.(rows := s4.rows[r := s4.rows[r].(active := Some(a))],
             publishers := s4.publishers[i := p.(pc := Done(Published))]);
    ReachStep(s4, Point(i), s);
  }

  /** From a published state: an old page is listed. */
  lemma Listed(s: State, id: Sid, key: Key) returns (s': State)
    requires Reaches(s) && s.sweeps == map[] && key in s.store
    ensures Reaches(s') && s'.rows == s.rows && s'.exposed == s.exposed && id in s'.sweeps
    ensures var p := s'.sweeps[id];
      p.page == [(key, s.store[key].modified)] && p.judged == 0 && p.cache == map[] && p.discard == {} && p.pc == Judging
      && p.now - s.store[key].modified >= AGE_FLOOR_MS
  {
    var modified := s.store[key].modified;
    var s1 := s.(clock := s.clock + (modified + AGE_FLOOR_MS));
    ReachStep(s, Tick(modified + AGE_FLOOR_MS), s1);
    s' := s1.(sweeps := s1.sweeps[id := Sweep(s1.clock, [(key, modified)], 0, map[], {}, Judging)]);
    ReachStep(s1, SweepList(id, s1.clock, [(key, modified)]), s');
  }

  /** The row is disabled while the page is judged, and enabled again before the delete. */
  lemma Collected(s: State, r: Repo, a: Arn, other: Doc, id: Sid) returns (s': State)
    requires Reaches(s) && s.sweeps == map[] && GraphKey(r, a) in s.store
    requires s.rows == map[r := Row(true, Some(a), Some(a), Building, None, false, other)]
    ensures Reaches(s') && s'.rows == s.rows && GraphKey(r, a) !in s'.store
  {
    var key := GraphKey(r, a);
    var s2 := Listed(s, id, key);
    var s3 := s2.(rows := s2.rows[r := s2.rows[r].(enabled := false)]);
    ReachStep(s2, EditRow(r, false, other), s3);
    ReachedInv(s3);
    CondemnsActiveIffDisabled(s3, id, key, s.store[key].modified);
    var q := Judge(s3, s3.sweeps[id]);
    var s4 := s3.(sweeps := s3.sweeps[id := q], exposed := s3.exposed + {(r, a)});
    ReachStep(s3, SweepJudge(id), s4);
    s' := Reenabled(s4, r, id, q, key);
    assert s'.rows == s.rows;
  }

  lemma Reenabled(s: State, r: Repo, id: Sid, q: Sweep, key: Key) returns (s': State)
    requires Reaches(s) && r in s.rows && id in s.sweeps && s.sweeps[id] == q
    requires q.pc == Judging && q.judged == |q.page| && key in q.discard
    ensures Reaches(s') && s'.rows == s.rows[r := s.rows[r].(enabled := true)] && key !in s'.store
  {
    var s1 := s.(sweeps := s.sweeps[id := q.(pc := Deleting)]);
    ReachStep(s, SweepJudge(id), s1);
    var s2 := s1.(rows := s1.rows[r := s1.rows[r].(enabled := true)]);
    ReachStep(s1, EditRow(r, true, s1.rows[r].other), s2);
    s' := s2.(store := s2.store - {key});
    ReachStep(s2, SweepDelete(id, {key}), s');
  }

  /** So there is a run that ends with an enabled row whose active version has no graph. */
  lemma DisabledWindowBreaksPointer(s0: State, r: Repo, a: Arn, other: Doc, i: Pid, id: Sid)
    requires Init(s0)
    ensures exists s :: Reaches(s) && r in s.rows && s.rows[r].enabled && s.rows[r].active == Some(a)
                        && !Intact(s, r, a)
  {
    var s := PublishedState(s0, r, a, other, i, other, other);
    var s' := Collected(s, r, a, other, id);
  }
}
