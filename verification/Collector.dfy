/** The collector's loop over one listed page, against tables that may change between its reads. */
module Collector {
  import opened Common
  import opened GroupState

  type Page = seq<(Key, nat)>

  /** The object is at least an hour old, and so has outlived every worker that could still publish it. */
  predicate IsOld(page: Page, i: nat, now: nat)
    requires i < |page|
  {
    now - page[i].1 >= 3_600_000
  }

  /** The judging steps of the protocol over the first `k` objects; `ss[i]` is the world when object `i` is judged. */
  function JudgeRun(ss: seq<State>, now: nat, page: Page, k: nat): (p: Sweep)
    requires |ss| == |page| && k <= |page|
    ensures p.page == page && p.judged == k && p.now == now && p.pc == Judging
  {
    if k == 0 then Sweep(now, page, 0, map[], {}, Judging) else Judge(ss[k - 1], JudgeRun(ss, now, page, k - 1))
  }

  /** `sweep`: collects what to discard, reading each group's row once per page. */
  method JudgePage(ss: seq<State>, now: nat, page: Page) returns (discard: set<Key>)
    requires |ss| == |page|
    ensures discard == JudgeRun(ss, now, page, |page|).discard
  {
    var cache: map<Gid, Option<Meta>>, i := map[], 0;
    discard := {};
    while i < |page|
      invariant 0 <= i <= |page|
      invariant JudgeRun(ss, now, page, i) == Sweep(now, page, i, cache, discard, Judging)
    {
      var (key, modified) := page[i];
      if now - modified >= AGE_FLOOR_MS {
        if key.gid !in cache { cache := cache[key.gid := Lookup(ss[i].metas, key.gid)]; }
        if Unpinned(cache[key.gid], key.bid) { discard := discard + {key}; }
      }
      i := i + 1;
    }
  }

  /** The first old object of a group on the page: when its row is read. */
  function FirstOld(page: Page, now: nat, gid: Gid, k: nat): (i: nat)
    requires k <= |page|
    ensures i <= k && (i < k ==> IsOld(page, i, now) && page[i].0.gid == gid)
  {
    if k == 0 then 0
    else
      var i := FirstOld(page, now, gid, k - 1);
      if i < k - 1 || (IsOld(page, k - 1, now) && page[k - 1].0.gid == gid) then i else k
  }

  /** The row of a group that a page goes by. */
  function RowRead(ss: seq<State>, now: nat, page: Page, gid: Gid, k: nat): Option<Meta>
    requires |ss| == |page| && k <= |page| && FirstOld(page, now, gid, k) < k
  {
    Lookup(ss[FirstOld(page, now, gid, k)].metas, gid)
  }

  ghost predicate CacheIs(cache: map<Gid, Option<Meta>>, ss: seq<State>, now: nat, page: Page, k: nat)
    requires |ss| == |page| && k <= |page|
  {
    forall g :: (g in cache <==> FirstOld(page, now, g, k) < k) && (g in cache ==> cache[g] == RowRead(ss, now, page, g, k))
  }

  lemma {:induction false} CacheMeans(ss: seq<State>, now: nat, page: Page, k: nat)
    requires |ss| == |page| && k <= |page|
    ensures CacheIs(JudgeRun(ss, now, page, k).cache, ss, now, page, k)
  {
    if k > 0 {
      CacheMeans(ss, now, page, k - 1);
    }
  }

  /** No row, or a deleted one, or one whose active and reserved versions are others. */
  predicate NotPinned(row: Option<Meta>, bid: Bid) {
    row.Some? && row.value.status != Deleted ==>
      row.value.build != Some(bid) && (row.value.active.Some? ==> row.value.active.value.version != bid)
  }

  /** Object `i` is condemned: old, and not pinned by the row read at the first old object of its group. */
  predicate Condemned(ss: seq<State>, now: nat, page: Page, i: nat)
    requires |ss| == |page| && i < |page|
  {
    IsOld(page, i, now) && FirstOld(page, now, page[i].0.gid, i + 1) <= i
    && NotPinned(RowRead(ss, now, page, page[i].0.gid, i + 1), page[i].0.bid)
  }

  lemma UnpinnedMeans(row: Option<Meta>, bid: Bid)
    ensures Unpinned(row, bid) <==> NotPinned(row, bid)
  {
  }

  lemma JudgeDiscards(s: State, p: Sweep, key: Key)
    requires p.judged < |p.page|
    ensures var (k, modified) := p.page[p.judged];
      var row := if k.gid in p.cache then p.cache[k.gid] else Lookup(s.metas, k.gid);
      key in Judge(s, p).discard <==> key in p.discard || (key == k && p.now - modified >= 3_600_000 && NotPinned(row, k.bid))
  {
    var k := p.page[p.judged].0;
    UnpinnedMeans(if k.gid in p.cache then p.cache[k.gid] else Lookup(s.metas, k.gid), k.bid);
  }

  lemma DiscardNext(ss: seq<State>, now: nat, page: Page, k: nat, key: Key)
    requires |ss| == |page| && 0 < k <= |page|
    ensures key in JudgeRun(ss, now, page, k).discard
      <==> key in JudgeRun(ss, now, page, k - 1).discard || (page[k - 1].0 == key && Condemned(ss, now, page, k - 1))
  {
    var gid := page[k - 1].0.gid;
    CacheMeans(ss, now, page, k - 1);
    JudgeDiscards(ss[k - 1], JudgeRun(ss, now, page, k - 1), key);
    assert gid in JudgeRun(ss, now, page, k - 1).cache <==> FirstOld(page, now, gid, k - 1) < k - 1;
  }

  /** What a page discards: exactly the condemned objects, whatever happened to the rows in between. */
  lemma {:induction false} DiscardMeans(ss: seq<State>, now: nat, page: Page, k: nat, key: Key)
    requires |ss| == |page| && k <= |page|
    ensures key in JudgeRun(ss, now, page, k).discard
      <==> exists i :: 0 <= i < k && page[i].0 == key && Condemned(ss, now, page, i)
  {
    if k > 0 {
      DiscardMeans(ss, now, page, k - 1, key);
      DiscardNext(ss, now, page, k, key);
    }
  }
}
