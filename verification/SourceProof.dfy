/** What every run of the source-version protocol guarantees. */
module SourceProof {
  import opened Common
  import opened SourceState

  /** Neither the claimed build of its row nor its active version. */
  ghost predicate Dead(s: State, r: Repo, a: Arn) {
    && (r, a) in s.claims
    && (r in s.rows ==> s.rows[r].arn != Some(a) && s.rows[r].active != Some(a))
  }

  /** A version no collector may touch. */
  ghost predicate Safe(s: State, r: Repo, a: Arn) {
    !Dead(s, r, a) && (r, a) !in s.exposed
  }

  ghost predicate HasDigest(s: State, k: Key, sha: Digest) {
    k in s.store && Sha256(s.store[k].blob) == sha
  }

  /** Manifest, graph and snapshot are stored, and the two digests are those recorded. */
  ghost predicate Intact(s: State, r: Repo, a: Arn) {
    && ManifestKey(r, a) in s.store && s.store[ManifestKey(r, a)].blob.ManifestBlob?
    && Describes(s, s.store[ManifestKey(r, a)].blob.manifest, r, a)
  }

  ghost predicate Describes(s: State, m: Manifest, r: Repo, a: Arn) {
    && m.repo == r && m.arn == a && m.graphKey == GraphKey(r, a) && m.snapshotKey == SnapshotKey(r, a)
    && HasDigest(s, m.graphKey, m.graphSha) && HasDigest(s, m.snapshotKey, m.snapshotSha)
  }

  // ---- the invariant ----

  function Stage(pc: Pc): nat {
    match pc
    case Starting => 0
    case PuttingGraph => 1
    case HeadingGraph => 1
    case PuttingSnapshot => 2
    case HeadingSnapshot => 2
    case PuttingManifest => 3
    case Activating => 4
    case Clearing => 1
    case Done(_) => 0
  }

  ghost predicate PublisherOk(s: State, p: Publisher) {
    && (Stage(p.pc) >= 1 ==> (p.repo, p.arn) in s.claims)
    && (Stage(p.pc) >= 1 && p.pc != Clearing ==> !HasProblem(p))
    && (Safe(s, p.repo, p.arn) ==>
          && (Stage(p.pc) >= 2 ==> HasDigest(s, GraphKey(p.repo, p.arn), Sha256(Bytes(p.graph.doc))))
          && (Stage(p.pc) >= 3 ==> HasDigest(s, SnapshotKey(p.repo, p.arn), Sha256(Bytes(p.snapshot.doc))))
          && (Stage(p.pc) >= 4 ==> Intact(s, p.repo, p.arn)))
  }

  ghost predicate RowOk(s: State, r: Repo, row: Row) {
    && (row.arn.Some? ==> IsLastClaim(s.claims, r, row.arn.value))
    && (row.active.Some? ==> (r, row.active.value) in s.claims)
    && (row.active.Some? && Safe(s, r, row.active.value) ==> Intact(s, r, row.active.value))
  }

  ghost predicate IsLastClaim(claims: seq<(Repo, Arn)>, r: Repo, a: Arn) {
    exists i :: 0 <= i < |claims| && LastAt(claims, r, a, i)
  }

  ghost predicate LastAt(claims: seq<(Repo, Arn)>, r: Repo, a: Arn, i: nat) {
    i < |claims| && claims[i] == (r, a) && forall j :: i < j < |claims| ==> claims[j].0 != r
  }

  ghost predicate CacheOk(s: State, p: Sweep, k: Key) {
    && (k.repo, k.arn) in s.claims
    && (k.repo in p.cache && p.cache[k.repo].Some? && p.cache[k.repo].value.enabled && !Kept(p.cache[k.repo], k.arn)
        ==> Dead(s, k.repo, k.arn))
  }

  ghost predicate SweepOk(s: State, p: Sweep) {
    && p.judged <= |p.page|
    && (forall i :: 0 <= i < |p.page| ==> CacheOk(s, p, p.page[i].0))
    && (forall k :: k in p.discard ==> (k.repo, k.arn) in s.claims && !Safe(s, k.repo, k.arn))
  }

  ghost predicate Inv(s: State) {
    && (forall k :: k in s.store ==> (k.repo, k.arn) in s.claims)
    && s.exposed <= (set c | c in s.claims)
    && (forall r :: r in s.rows ==> RowOk(s, r, s.rows[r]))
    && (forall i :: i in s.publishers ==> PublisherOk(s, s.publishers[i]))
    && (forall id :: id in s.sweeps ==> SweepOk(s, s.sweeps[id]))
    && (forall i, j :: 0 <= i < j < |s.claims| ==> s.claims[i] != s.claims[j])
  }

  // ---- what never goes back ----

  /** How one step may change a row: a claim under a fresh name, a pointer moved to the
      claimed build or cleared, or anything that touches neither. */
  ghost predicate RowEvolves(s: State, r: Repo, row: Row, row': Row) {
    || (row'.arn == row.arn && row'.active == row.active)
    || (row'.active == row.active && row'.arn.Some? && (r, row'.arn.value) !in s.claims)
    || (row'.arn == row.arn && (row'.active == row.arn || row'.active.None?))
  }

  ghost predicate RowsEvolve(s: State, s': State) {
    && s.claims <= s'.claims && s.exposed <= s'.exposed
    && forall r :: r in s'.rows ==>
         if r in s.rows then RowEvolves(s, r, s.rows[r], s'.rows[r])
         else s'.rows[r].arn.None? && s'.rows[r].active.None?
  }

  ghost predicate SafeStays(s: State, s': State) {
    forall r, a :: (r, a) in s.claims && Safe(s', r, a) ==> Safe(s, r, a)
  }

  /** Graphs and snapshots of safe versions are never removed and never change. */
  ghost predicate StoreStays(s: State, s': State) {
    forall k :: k in s.store && !k.ManifestKey? && Safe(s', k.repo, k.arn) ==>
      k in s'.store && s'.store[k].blob == s.store[k].blob
  }

  /** The actions that write registry rows. */
  predicate TouchesRows(a: Action) {
    a.AddRow? || a.EditRow? || a.RemoveRow? || a.Claim? || a.Point? || a.Finish?
  }

  lemma RowsKept(s: State, a: Action, s': State)
    requires Step(s, a, s') && !TouchesRows(a)
    ensures s'.rows == s.rows && s'.claims == s.claims && s.exposed <= s'.exposed
  {
  }

  lemma TouchedRowsEvolve(s: State, a: Action, s': State)
    requires Step(s, a, s') && TouchesRows(a)
    ensures RowsEvolve(s, s')
  {
  }

  lemma StepRowsEvolve(s: State, a: Action, s': State)
    requires Step(s, a, s')
    ensures RowsEvolve(s, s')
  {
    if TouchesRows(a) { TouchedRowsEvolve(s, a, s'); } else { RowsKept(s, a, s'); }
  }

  lemma EvolvedSafeStays(s: State, s': State)
    requires RowsEvolve(s, s')
    ensures SafeStays(s, s')
  {
    forall r, a | (r, a) in s.claims && Safe(s', r, a) ensures Safe(s, r, a) {
      if r in s'.rows && r in s.rows { assert RowEvolves(s, r, s.rows[r], s'.rows[r]); }
    }
  }

  lemma StepKeepsObject(s: State, a: Action, s': State, k: Key)
    requires Step(s, a, s') && k in s.store && !k.ManifestKey? && Safe(s, k.repo, k.arn)
    requires a.SweepDelete? && a.id in s.sweeps ==> SweepOk(s, s.sweeps[a.id])
    ensures k in s'.store && s'.store[k].blob == s.store[k].blob
  {
  }

  lemma StepStoreStays(s: State, a: Action, s': State)
    requires Step(s, a, s') && SafeStays(s, s')
    requires forall k :: k in s.store ==> (k.repo, k.arn) in s.claims
    requires a.SweepDelete? && a.id in s.sweeps ==> SweepOk(s, s.sweeps[a.id])
    ensures StoreStays(s, s')
  {
    forall k | k in s.store && !k.ManifestKey? && Safe(s', k.repo, k.arn)
      ensures k in s'.store && s'.store[k].blob == s.store[k].blob
    {
      StepKeepsObject(s, a, s', k);
    }
  }

  /** The manifest of a safe version is only ever replaced by one with the same digests. */
  lemma StepManifests(s: State, a: Action, s': State, r: Repo, v: Arn)
    requires Step(s, a, s') && SafeStays(s, s') && StoreStays(s, s') && (r, v) in s.claims
    requires Safe(s', r, v) && Intact(s, r, v)
    requires a.PutManifest? ==> a.pid in s.publishers
    requires a.SweepDelete? && a.id in s.sweeps ==> SweepOk(s, s.sweeps[a.id])
    requires a.PutManifest? && a.pid in s.publishers ==> PublisherOk(s, s.publishers[a.pid])
    ensures Intact(s', r, v)
  {
    assert Safe(s, r, v);
    var m := s.store[ManifestKey(r, v)].blob.manifest;
    assert HasDigest(s', m.graphKey, m.graphSha) && HasDigest(s', m.snapshotKey, m.snapshotSha) by { PartsStay(s, s', m, r, v); }
    if a.PutManifest? { Remanifested(s, a, s', r, v); }
    else { ManifestStays(s, a, s', ManifestKey(r, v)); }
  }

  lemma PartsStay(s: State, s': State, m: Manifest, r: Repo, v: Arn)
    requires Describes(s, m, r, v) && StoreStays(s, s') && Safe(s', r, v)
    ensures HasDigest(s', m.graphKey, m.graphSha) && HasDigest(s', m.snapshotKey, m.snapshotSha)
  {
  }

  lemma Remanifested(s: State, a: Action, s': State, r: Repo, v: Arn)
    requires a.PutManifest? && Step(s, a, s') && Safe(s, r, v) && Intact(s, r, v)
    requires a.pid in s.publishers && PublisherOk(s, s.publishers[a.pid])
    ensures Intact(s', r, v)
  {
  }

  lemma ManifestStays(s: State, a: Action, s': State, k: Key)
    requires Step(s, a, s') && !a.PutManifest? && k in s.store && Safe(s, k.repo, k.arn)
    requires a.SweepDelete? && a.id in s.sweeps ==> SweepOk(s, s.sweeps[a.id])
    ensures k in s'.store && s'.store[k].blob == s.store[k].blob
  {
  }

  // ---- claim order ----

  lemma ClaimsAppend(claims: seq<(Repo, Arn)>, r: Repo, a: Arn, extra: (Repo, Arn))
    requires extra.0 == r ==> extra.1 == a
    requires extra.0 != r ==> IsLastClaim(claims, r, a)
    ensures IsLastClaim(claims + [extra], r, a)
  {
    if extra.0 == r { assert LastAt(claims + [extra], r, a, |claims|); }
    else {
      var i :| 0 <= i < |claims| && LastAt(claims, r, a, i);
      assert LastAt(claims + [extra], r, a, i);
    }
  }

  lemma StepLastClaim(s: State, a: Action, s': State, r: Repo)
    requires Step(s, a, s') && r in s'.rows && s'.rows[r].arn.Some?
    requires r in s.rows ==> RowOk(s, r, s.rows[r])
    ensures IsLastClaim(s'.claims, r, s'.rows[r].arn.value)
  {
    if a.Claim? {
      assert s'.claims == s.claims + [(a.repo, a.arn)];
      ClaimsAppend(s.claims, r, s'.rows[r].arn.value, (a.repo, a.arn));
    } else {
      QuietClaims(s, a, s', r);
    }
  }

  lemma QuietClaims(s: State, a: Action, s': State, r: Repo)
    requires Step(s, a, s') && !a.Claim? && r in s'.rows && s'.rows[r].arn.Some?
    ensures s'.claims == s.claims && r in s.rows && s'.rows[r].arn == s.rows[r].arn
  {
  }

  // ---- publishers ----

  ghost predicate Progress(s: State, s': State) {
    RowsEvolve(s, s') && SafeStays(s, s') && StoreStays(s, s') && ManifestsStay(s, s')
  }

  ghost predicate ManifestsStay(s: State, s': State) {
    forall r, v :: (r, v) in s.claims && Safe(s', r, v) && Intact(s, r, v) ==> Intact(s', r, v)
  }

  lemma IdlePublisherOk(s: State, s': State, p: Publisher)
    requires PublisherOk(s, p) && Progress(s, s')
    ensures PublisherOk(s', p)
  {
  }

  lemma ReaderOk(s: State, i: Pid, s': State)
    requires StepRead(s, i, s') && PublisherOk(s, s.publishers[i]) && Progress(s, s')
    requires s.publishers[i].repo in s.rows ==> RowOk(s, s.publishers[i].repo, s.rows[s.publishers[i].repo])
    ensures PublisherOk(s', s'.publishers[i])
  {
    var p := s.publishers[i];
    if Current(s.rows, p) {
      var k :| 0 <= k < |s.claims| && LastAt(s.claims, p.repo, p.arn, k);
      assert (p.repo, p.arn) in s.claims;
    }
  }

  lemma PutterOk(s: State, i: Pid, raised: bool, s': State)
    requires StepPut(s, i, raised, s') && PublisherOk(s, s.publishers[i]) && Progress(s, s')
    ensures PublisherOk(s', s'.publishers[i])
  {
  }

  lemma HeaderOk(s: State, i: Pid, s': State)
    requires StepHead(s, i, s') && PublisherOk(s, s.publishers[i]) && Progress(s, s')
    ensures PublisherOk(s', s'.publishers[i])
  {
  }

  lemma ManifesterOk(s: State, i: Pid, raised: bool, s': State)
    requires StepManifest(s, i, raised, s') && PublisherOk(s, s.publishers[i]) && Progress(s, s')
    ensures PublisherOk(s', s'.publishers[i])
  {
  }

  lemma PointerOk(s: State, i: Pid, s': State)
    requires StepPoint(s, i, s')
    ensures PublisherOk(s', s'.publishers[i])
  {
  }

  function Actor(a: Action): Option<Pid> {
    match a
    case Start(i, _) => Some(i)
    case Read(i) => Some(i)
    case Put(i, _) => Some(i)
    case Head(i) => Some(i)
    case PutManifest(i, _) => Some(i)
    case Point(i) => Some(i)
    case Kill(i) => Some(i)
    case _ => None
  }

  lemma OtherPublishers(s: State, a: Action, s': State, i: Pid)
    requires Step(s, a, s') && i in s'.publishers && Actor(a) != Some(i)
    ensures i in s.publishers && s'.publishers[i] == s.publishers[i]
  {
  }

  lemma ActorOk(s: State, a: Action, s': State, i: Pid)
    requires Step(s, a, s') && Progress(s, s') && Actor(a) == Some(i)
    requires i in s.publishers ==> PublisherOk(s, s.publishers[i])
    requires forall r :: r in s.rows ==> RowOk(s, r, s.rows[r])
    ensures i in s'.publishers && PublisherOk(s', s'.publishers[i])
  {
    match a
    case Read(_) => ReaderOk(s, i, s');
    case Put(_, raised) => PutterOk(s, i, raised, s');
    case Head(_) => HeaderOk(s, i, s');
    case PutManifest(_, raised) => ManifesterOk(s, i, raised, s');
    case Point(_) => PointerOk(s, i, s');
    case _ =>
  }

  // ---- rows ----

  lemma PointedOk(s: State, i: Pid, s': State, r: Repo)
    requires StepPoint(s, i, s') && PublisherOk(s, s.publishers[i]) && Progress(s, s')
    requires r in s.rows && RowOk(s, r, s.rows[r]) && r in s'.rows
    ensures RowOk(s', r, s'.rows[r])
  {
  }

  lemma QuietPointer(s: State, a: Action, s': State, r: Repo)
    requires Step(s, a, s') && !a.Point? && r in s'.rows
    ensures r in s.rows ==> s'.rows[r].active == s.rows[r].active
    ensures r !in s.rows ==> s'.rows[r].active.None?
  {
  }

  lemma StepRowOk(s: State, a: Action, s': State, r: Repo)
    requires Step(s, a, s') && Progress(s, s') && r in s'.rows
    requires r in s.rows ==> RowOk(s, r, s.rows[r])
    requires a.Point? ==> r in s.rows && a.pid in s.publishers && PublisherOk(s, s.publishers[a.pid])
    ensures RowOk(s', r, s'.rows[r])
  {
    if a.Point? { PointedOk(s, a.pid, s', r); }
    else {
      StepLastClaimIf(s, a, s', r);
      QuietPointer(s, a, s', r);
    }
  }

  lemma StepLastClaimIf(s: State, a: Action, s': State, r: Repo)
    requires Step(s, a, s') && r in s'.rows
    requires r in s.rows ==> RowOk(s, r, s.rows[r])
    ensures s'.rows[r].arn.Some? ==> IsLastClaim(s'.claims, r, s'.rows[r].arn.value)
  {
    if s'.rows[r].arn.Some? { StepLastClaim(s, a, s', r); }
  }

  // ---- the collector ----

  lemma JudgedOk(s: State, id: Sid, s': State)
    requires StepJudge(s, id, s') && SweepOk(s, s.sweeps[id]) && SafeStays(s, s') && RowsEvolve(s, s')
    ensures SweepOk(s', s'.sweeps[id])
  {
    var p := s.sweeps[id];
    if p.judged < |p.page| {
      var key := p.page[p.judged].0;
      var q := s'.sweeps[id];
      assert CacheOk(s, p, key);
      assert s'.rows == s.rows && s'.claims == s.claims;
      forall i | 0 <= i < |q.page| ensures CacheOk(s', q, q.page[i].0) { assert CacheOk(s, p, p.page[i].0); }
      assert CacheOk(s', q, key);
      assert Condemns(s, p) ==> !Safe(s', key.repo, key.arn);
    } else { SweepStays(s, s', p); }
  }

  lemma SweepStays(s: State, s': State, p: Sweep)
    requires SweepOk(s, p) && SafeStays(s, s') && RowsEvolve(s, s')
    ensures SweepOk(s', p)
  {
    forall i | 0 <= i < |p.page| ensures CacheOk(s', p, p.page[i].0) {
      var k := p.page[i].0;
      assert CacheOk(s, p, k);
      if Dead(s, k.repo, k.arn) { DeadStays(s, s', k.repo, k.arn); }
    }
  }

  lemma DeadStays(s: State, s': State, r: Repo, a: Arn)
    requires Dead(s, r, a) && RowsEvolve(s, s')
    ensures Dead(s', r, a)
  {
    if r in s'.rows && r in s.rows { assert RowEvolves(s, r, s.rows[r], s'.rows[r]); }
  }

  lemma OtherSweeps(s: State, a: Action, s': State, id: Sid)
    requires Step(s, a, s') && id in s'.sweeps && !(a.SweepJudge? && a.id == id)
    ensures || (id in s.sweeps && s'.sweeps[id] == s.sweeps[id])
            || (a.SweepList? && a.id == id && s'.sweeps[id] == Sweep(a.now, a.page, 0, map[], {}, Judging)
                && forall i :: 0 <= i < |a.page| ==> a.page[i].0 in s.store)
  {
  }

  lemma StepSweepOk(s: State, a: Action, s': State, id: Sid)
    requires Step(s, a, s') && SafeStays(s, s') && RowsEvolve(s, s') && id in s'.sweeps
    requires id in s.sweeps ==> SweepOk(s, s.sweeps[id])
    requires forall k :: k in s.store ==> (k.repo, k.arn) in s.claims
    ensures SweepOk(s', s'.sweeps[id])
  {
    if a.SweepJudge? && a.id == id { JudgedOk(s, id, s'); }
    else {
      OtherSweeps(s, a, s', id);
      if id in s.sweeps && s'.sweeps[id] == s.sweeps[id] { SweepStays(s, s', s.sweeps[id]); }
    }
  }

  // ---- the whole invariant ----

  lemma PutterKnown(s: State, a: Action, s': State)
    requires Step(s, a, s')
    ensures a.PutManifest? ==> a.pid in s.publishers
  {
  }

  lemma StepProgress(s: State, a: Action, s': State)
    requires Inv(s) && Step(s, a, s')
    ensures Progress(s, s')
  {
    StepRowsEvolve(s, a, s');
    EvolvedSafeStays(s, s');
    StepStoreStays(s, a, s');
    PutterKnown(s, a, s');
    forall r, v | (r, v) in s.claims && Safe(s', r, v) && Intact(s, r, v) ensures Intact(s', r, v) {
      StepManifests(s, a, s', r, v);
    }
  }

  lemma StepStoreClaimed(s: State, a: Action, s': State, k: Key)
    requires Step(s, a, s') && k in s'.store && s.claims <= s'.claims
    requires k in s.store ==> (k.repo, k.arn) in s.claims
    requires (a.Put? || a.PutManifest?) && a.pid in s.publishers ==> PublisherOk(s, s.publishers[a.pid])
    ensures (k.repo, k.arn) in s'.claims
  {
  }

  lemma StepExposedClaimed(s: State, a: Action, s': State)
    requires Step(s, a, s') && s.claims <= s'.claims && s.exposed <= (set c | c in s.claims)
    requires a.SweepJudge? && a.id in s.sweeps ==> SweepOk(s, s.sweeps[a.id])
    ensures s'.exposed <= (set c | c in s'.claims)
  {
    if a.SweepJudge? {
      var p := s.sweeps[a.id];
      if p.judged < |p.page| { assert CacheOk(s, p, p.page[p.judged].0); }
    }
  }

  lemma StepClaimsDistinct(s: State, a: Action, s': State)
    requires Step(s, a, s')
    requires forall i, j :: 0 <= i < j < |s.claims| ==> s.claims[i] != s.claims[j]
    ensures forall i, j :: 0 <= i < j < |s'.claims| ==> s'.claims[i] != s'.claims[j]
  {
  }

  lemma StepKeepsRows(s: State, a: Action, s': State)
    requires Inv(s) && Step(s, a, s') && Progress(s, s')
    ensures forall r :: r in s'.rows ==> RowOk(s', r, s'.rows[r])
  {
    forall r | r in s'.rows ensures RowOk(s', r, s'.rows[r]) {
      if a.Point? { assert s'.rows.Keys == s.rows.Keys; }
      StepRowOk(s, a, s', r);
    }
  }

  lemma StepKeepsPublishers(s: State, a: Action, s': State)
    requires Inv(s) && Step(s, a, s') && Progress(s, s')
    ensures forall i :: i in s'.publishers ==> PublisherOk(s', s'.publishers[i])
  {
    forall i | i in s'.publishers ensures PublisherOk(s', s'.publishers[i]) {
      if Actor(a) == Some(i) { ActorOk(s, a, s', i); }
      else { OtherPublishers(s, a, s', i); IdlePublisherOk(s, s', s.publishers[i]); }
    }
  }

  lemma StepKeepsStoreClaimed(s: State, a: Action, s': State)
    requires Inv(s) && Step(s, a, s') && Progress(s, s')
    ensures forall k :: k in s'.store ==> (k.repo, k.arn) in s'.claims
  {
    forall k | k in s'.store ensures (k.repo, k.arn) in s'.claims { StepStoreClaimed(s, a, s', k); }
  }

  lemma StepKeepsInv(s: State, a: Action, s': State)
    requires Inv(s) && Step(s, a, s')
    ensures Inv(s') && Progress(s, s')
  {
    StepProgress(s, a, s');
    StepKeepsStoreClaimed(s, a, s');
    StepExposedClaimed(s, a, s');
    StepKeepsRows(s, a, s');
    StepKeepsPublishers(s, a, s');
    forall id | id in s'.sweeps ensures SweepOk(s', s'.sweeps[id]) { StepSweepOk(s, a, s', id); }
    StepClaimsDistinct(s, a, s');
  }

  lemma {:induction false} RunInv(ss: seq<State>, acts: seq<Action>, j: nat)
    requires IsRun(ss, acts) && j < |ss|
    ensures Inv(ss[j])
    decreases j
  {
    if j > 0 { RunInv(ss, acts, j - 1); RunStep(ss, acts, j - 1); }
  }

  lemma RunStep(ss: seq<State>, acts: seq<Action>, j: nat)
    requires IsRun(ss, acts) && j < |acts| && Inv(ss[j])
    ensures Step(ss[j], acts[j], ss[j + 1]) && Inv(ss[j + 1]) && Progress(ss[j], ss[j + 1])
  {
    assert StepAt(ss, acts, j);
    StepKeepsInv(ss[j], acts[j], ss[j + 1]);
  }

  // ---- the pointer and its artifacts ----

  /** The active version of a row has its manifest, graph and snapshot, with the digests its
      manifest records, unless a collector condemned it while the row was missing or disabled. */
  lemma ActiveVersionIntact(ss: seq<State>, acts: seq<Action>, j: nat, r: Repo)
    requires IsRun(ss, acts) && j < |ss| && r in ss[j].rows && ss[j].rows[r].active.Some?
    requires (r, ss[j].rows[r].active.value) !in ss[j].exposed
    ensures Intact(ss[j], r, ss[j].rows[r].active.value)
  {
    RunInv(ss, acts, j);
  }

  /** No page holds this version's objects under a missing or disabled cached row. */
  ghost predicate NotExposed(s: State, r: Repo, a: Arn) {
    && (r, a) !in s.exposed
    && forall id, i :: id in s.sweeps && 0 <= i < |s.sweeps[id].page| ==> TrustedCache(s.sweeps[id], i, r, a)
  }

  ghost predicate TrustedCache(p: Sweep, i: nat, r: Repo, a: Arn)
    requires i < |p.page|
  {
    p.page[i].0.repo == r && p.page[i].0.arn == a && r in p.cache ==> p.cache[r].Some? && p.cache[r].value.enabled
  }

  lemma ClaimedNotExposed(s: State, r: Repo, a: Arn)
    requires Inv(s) && (r, a) !in s.claims
    ensures NotExposed(s, r, a)
  {
    forall id, i | id in s.sweeps && 0 <= i < |s.sweeps[id].page|
      ensures TrustedCache(s.sweeps[id], i, r, a)
    {
      assert SweepOk(s, s.sweeps[id]);
      assert CacheOk(s, s.sweeps[id], s.sweeps[id].page[i].0);
    }
  }

  lemma StepNotExposed(s: State, a: Action, s': State, r: Repo, v: Arn)
    requires Step(s, a, s') && NotExposed(s, r, v)
    requires a.SweepJudge? ==> r in s.rows && s.rows[r].enabled
    ensures NotExposed(s', r, v)
  {
    forall id, i | id in s'.sweeps && 0 <= i < |s'.sweeps[id].page|
      ensures TrustedCache(s'.sweeps[id], i, r, v)
    {
      if a.SweepJudge? && a.id == id {
        assert TrustedCache(s.sweeps[id], i, r, v);
      } else {
        OtherSweeps(s, a, s', id);
        if id in s.sweeps && s'.sweeps[id] == s.sweeps[id] { assert TrustedCache(s.sweeps[id], i, r, v); }
      }
    }
    StepExposes(s, a, s', r, v);
  }

  lemma StepExposes(s: State, a: Action, s': State, r: Repo, v: Arn)
    requires Step(s, a, s') && NotExposed(s, r, v)
    requires a.SweepJudge? ==> r in s.rows && s.rows[r].enabled
    ensures (r, v) !in s'.exposed
  {
    if a.SweepJudge? {
      var p := s.sweeps[a.id];
      if p.judged < |p.page| { assert TrustedCache(p, p.judged, r, v); }
    }
  }

  /** A row that stays enabled after a claim never has that version exposed. */
  lemma {:induction false} EnabledNeverExposed(ss: seq<State>, acts: seq<Action>, i: nat, j: nat, r: Repo, a: Arn)
    requires IsRun(ss, acts) && i <= j < |ss| && (r, a) !in ss[i].claims
    requires forall h :: i < h <= j && (r, a) in ss[h].claims ==> r in ss[h].rows && ss[h].rows[r].enabled
    ensures NotExposed(ss[j], r, a)
    decreases j
  {
    RunInv(ss, acts, j);
    if (r, a) !in ss[j].claims { ClaimedNotExposed(ss[j], r, a); }
    else {
      RunInv(ss, acts, j - 1);
      RunStep(ss, acts, j - 1);
      if (r, a) !in ss[j - 1].claims {
        ClaimedNotExposed(ss[j - 1], r, a);
        FreshClaimNotExposed(ss[j - 1], acts[j - 1], ss[j], r, a);
      } else {
        EnabledNeverExposed(ss, acts, i, j - 1, r, a);
        StepNotExposed(ss[j - 1], acts[j - 1], ss[j], r, a);
      }
    }
  }

  lemma FreshClaimNotExposed(s: State, a: Action, s': State, r: Repo, v: Arn)
    requires Step(s, a, s') && (r, v) !in s.claims && (r, v) in s'.claims && NotExposed(s, r, v)
    ensures NotExposed(s', r, v)
  {
    assert a.Claim?;
  }

  /** So while a row stays enabled from the claim of its active version on, the pointer is good. */
  lemma EnabledActiveIntact(ss: seq<State>, acts: seq<Action>, i: nat, j: nat, r: Repo)
    requires IsRun(ss, acts) && i <= j < |ss| && r in ss[j].rows && ss[j].rows[r].active.Some?
    requires (r, ss[j].rows[r].active.value) !in ss[i].claims
    requires forall h :: i < h <= j && (r, ss[j].rows[r].active.value) in ss[h].claims ==>
               r in ss[h].rows && ss[h].rows[r].enabled
    ensures Intact(ss[j], r, ss[j].rows[r].active.value)
  {
    EnabledNeverExposed(ss, acts, i, j, r, ss[j].rows[r].active.value);
    ActiveVersionIntact(ss, acts, j, r);
  }

  // ---- superseded builds ----

  ghost predicate SupersededIn(s: State, r: Repo, a: Arn) {
    (r, a) in s.claims && (r in s.rows ==> s.rows[r].arn != Some(a))
  }

  lemma StepSuperseded(s: State, s': State, r: Repo, a: Arn)
    requires RowsEvolve(s, s') && SupersededIn(s, r, a)
    ensures SupersededIn(s', r, a)
  {
    if r in s'.rows && r in s.rows { assert RowEvolves(s, r, s.rows[r], s'.rows[r]); }
  }

  lemma {:induction false} SupersededForGood(ss: seq<State>, acts: seq<Action>, i: nat, j: nat, r: Repo, a: Arn)
    requires IsRun(ss, acts) && i <= j < |ss| && SupersededIn(ss[i], r, a)
    ensures SupersededIn(ss[j], r, a)
    decreases j
  {
    if i < j {
      SupersededForGood(ss, acts, i, j - 1, r, a);
      assert StepAt(ss, acts, j - 1);
      StepRowsEvolve(ss[j - 1], acts[j - 1], ss[j]);
      StepSuperseded(ss[j - 1], ss[j], r, a);
    }
  }

  /** Once superseded, no publish step and no completion event of that build changes any
      row, however late, duplicated or reordered. */
  lemma SupersededNeverWrites(ss: seq<State>, acts: seq<Action>, i: nat, j: nat, r: Repo, a: Arn)
    requires IsRun(ss, acts) && i <= j < |acts| && SupersededIn(ss[i], r, a)
    requires || (acts[j].Point? && acts[j].pid in ss[j].publishers
                 && ss[j].publishers[acts[j].pid].repo == r && ss[j].publishers[acts[j].pid].arn == a)
             || (acts[j].Finish? && acts[j].event.repo == Some(r) && acts[j].event.arn == a)
    ensures ss[j + 1].rows == ss[j].rows
  {
    SupersededForGood(ss, acts, i, j, r, a);
    assert StepAt(ss, acts, j);
  }

  // ---- the active version follows claim order ----

  ghost predicate ClaimedAt(s: State, r: Repo, a: Arn, k: nat) {
    k < |s.claims| && s.claims[k] == (r, a)
  }

  lemma LastClaimBounds(s: State, r: Repo, a: Arn, b: Arn, k: nat, l: nat)
    requires IsLastClaim(s.claims, r, b) && ClaimedAt(s, r, a, k) && ClaimedAt(s, r, b, l)
    requires forall i, j :: 0 <= i < j < |s.claims| ==> s.claims[i] != s.claims[j]
    ensures k <= l
  {
    var m :| 0 <= m < |s.claims| && LastAt(s.claims, r, b, m);
    assert m == l;
  }

  lemma StepActivates(s: State, a: Action, s': State, r: Repo)
    requires Step(s, a, s') && r in s'.rows && s'.rows[r].active.Some?
    ensures r in s.rows && (s'.rows[r].active == s.rows[r].active || s'.rows[r].active == s.rows[r].arn)
  {
  }

  /** Whatever is active later was claimed no earlier than what is active now. */
  lemma {:induction false} ActiveFollowsClaimOrder(ss: seq<State>, acts: seq<Action>, i: nat, j: nat,
                                                   r: Repo, k: nat, l: nat)
    requires IsRun(ss, acts) && i <= j < |ss|
    requires r in ss[i].rows && ss[i].rows[r].active.Some? && ClaimedAt(ss[i], r, ss[i].rows[r].active.value, k)
    requires r in ss[j].rows && ss[j].rows[r].active.Some? && ClaimedAt(ss[j], r, ss[j].rows[r].active.value, l)
    ensures k <= l
    decreases j
  {
    RunInv(ss, acts, j);
    if i == j {
    } else {
      var before := j - 1;
      RunInv(ss, acts, before);
      ClaimsGrow(ss, acts, i, before);
      RunStep(ss, acts, before);
      StepActivates(ss[before], acts[before], ss[j], r);
      var b := ss[j].rows[r].active.value;
      ActiveWasClaimed(ss[before], ss[j], r, b, l);
      if ss[before].rows[r].active == Some(b) { ActiveFollowsClaimOrder(ss, acts, i, before, r, k, l); }
      else { LastClaimBounds(ss[before], r, ss[i].rows[r].active.value, b, k, l); }
    }
  }

  lemma ActiveWasClaimed(s: State, s': State, r: Repo, b: Arn, l: nat)
    requires Inv(s) && Inv(s') && s.claims <= s'.claims && r in s.rows
    requires s.rows[r].active == Some(b) || s.rows[r].arn == Some(b)
    requires ClaimedAt(s', r, b, l)
    ensures ClaimedAt(s, r, b, l) && (s.rows[r].arn == Some(b) ==> IsLastClaim(s.claims, r, b))
  {
    assert RowOk(s, r, s.rows[r]);
    assert (r, b) in s.claims by {
      if s.rows[r].arn == Some(b) { var m :| 0 <= m < |s.claims| && LastAt(s.claims, r, b, m); }
    }
    var m :| 0 <= m < |s.claims| && s.claims[m] == (r, b);
    assert m == l;
  }

  lemma {:induction false} ClaimsGrow(ss: seq<State>, acts: seq<Action>, i: nat, j: nat)
    requires IsRun(ss, acts) && i <= j < |ss|
    ensures ss[i].claims <= ss[j].claims
    decreases j
  {
    if i < j {
      ClaimsGrow(ss, acts, i, j - 1);
      assert StepAt(ss, acts, j - 1);
      StepRowsEvolve(ss[j - 1], acts[j - 1], ss[j]);
    }
  }

  // ---- completion ----

  /** Delivering an event again changes nothing more; the pointer and the claim are never
      touched; and the recorded SHA moves exactly when the build succeeded with a graph: to the
      content hash the build stored, if the source is not a repository and one is there, else to
      the SHA the build was started for. */
  lemma CompletionContract(rows: map<Repo, Row>, e: Event)
    ensures Complete(Complete(rows, e), e) == Complete(rows, e)
    ensures Complete(rows, e).Keys == rows.Keys
    ensures forall r :: r in rows ==>
              var row, row' := rows[r], Complete(rows, e)[r];
              && row'.arn == row.arn && row'.active == row.active && row'.enabled == row.enabled
              && (row' != row ==> e.repo == Some(r) && row.arn == Some(e.arn))
              && row' == row.(status := row'.status, builtSha := row'.builtSha)
              && (!e.succeeded || e.graphBytes.None? ==> row'.builtSha == row.builtSha)
              && (e.repo == Some(r) && row.arn == Some(e.arn) ==>
                    && (row'.status == Failed <==> !e.succeeded || e.graphBytes.None?)
                    && (row'.status == Ready <==> e.succeeded && e.graphBytes.Some? && e.graphBytes.value <= 536_870_912)
                    && (row'.status == TooLarge <==> e.succeeded && e.graphBytes.Some? && e.graphBytes.value > 536_870_912)
                    && (e.succeeded && e.graphBytes.Some? && (e.git || e.sourceHash.None?) ==>
                          row'.builtSha == Some(e.targetSha))
                    && (e.succeeded && e.graphBytes.Some? && !e.git && e.sourceHash.Some? ==>
                          row'.builtSha == e.sourceHash))
  {
  }
}
