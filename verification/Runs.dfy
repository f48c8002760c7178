/** Any number of ticks: what the entries of a run without rewritten Secrets, read in order, say about
    failures, holds, purges, data, trust and bookkeeping. */
module Runs {
  import opened Wrappers
  import opened Manifests
  import opened State
  import opened Ticks

  /** All of a world but the cluster, which others change between ticks too, and the memory, which a
      process that ends between ticks loses. */
  function Books(w: World): World {
    w.(cluster := map[], memory := None)
  }

  /** The tick found what the one before it left. */
  ghost predicate FollowsOn(h: seq<TickLog>, i: nat)
    requires 0 < i < |h|
  {
    Books(h[i].found) == Books(h[i - 1].left)
  }

  ghost predicate IsRun(c: Config, h: seq<TickLog>) {
    && (forall i :: 0 <= i < |h| ==> TickOk(c, h[i]))
    && (forall i :: 0 < i < |h| ==> FollowsOn(h, i))
  }

  /** The run `h` leads from one world to another. */
  ghost predicate Leads(from: World, h: seq<TickLog>, to: World) {
    if h == [] then Books(from) == Books(to)
    else Books(from) == Books(h[0].found) && Books(h[|h| - 1].left) == Books(to)
  }

  lemma RunBegins(c: Config, from: World)
    ensures IsRun(c, []) && Leads(from, [], from)
  {
  }

  lemma RunWaits(from: World, h: seq<TickLog>, a: World, b: World)
    requires Leads(from, h, a) && Books(a) == Books(b)
    ensures Leads(from, h, b)
  {
  }

  lemma RunExtends(c: Config, from: World, h: seq<TickLog>, l: TickLog)
    requires IsRun(c, h) && Leads(from, h, l.found) && TickOk(c, l)
    ensures IsRun(c, h + [l]) && Leads(from, h + [l], l.left)
  {
    hide TickOk;
    var g := h + [l];
    forall i | 0 < i < |g| ensures FollowsOn(g, i) {
      if i < |h| { assert FollowsOn(h, i); }
    }
  }

  /** What every tick from `i` on hands over, the `j`-th finds. */
  lemma {:induction false} Carried(c: Config, h: seq<TickLog>, i: nat, j: nat, p: World -> bool)
    requires IsRun(c, h) && i <= j < |h| && p(Books(h[i].found))
    requires forall k :: i <= k < j && p(Books(h[k].found)) ==> p(Books(h[k].left))
    ensures p(Books(h[j].found))
  {
    hide TickOk;
    if i < j {
      Carried(c, h, i, j - 1, p);
      assert FollowsOn(h, j);
    }
  }

  // ---- failures -------------------------------------------------------------------------------------------

  lemma FaithfulThroughout(c: Config, h: seq<TickLog>, i: nat, j: nat)
    requires Lawful(c.codec) && IsRun(c, h) && i <= j < |h| && Faithful(c, h[i].found.state)
    ensures Faithful(c, h[j].found.state) && Faithful(c, h[j].left.state)
  {
    var p := (w: World) => Faithful(c, w.state);
    forall k | i <= k <= j && p(Books(h[k].found)) ensures p(Books(h[k].left)) {
      MovesFaithful(c, h[k]);
    }
    Carried(c, h, i, j, p);
  }

  predicate RendersAt(l: TickLog, f: Fingerprint, g: int) {
    l.desired.Some? && l.desired.value.fingerprint == f && l.t.upgradeGeneration <= g
  }

  /** Once a failure of `f` at generation `g` is remembered, a tick that renders `f` at no later
      generation applies nothing, unless the failure was forgotten in between. */
  ghost predicate FailuresHeld(c: Config, h: seq<TickLog>) {
    forall i, j, f, g ::
      0 <= i <= j < |h| && Remembers(h[i].found.state, f, g) && RendersAt(h[j], f, g) && h[j].applied != {} ==>
        exists k :: i <= k < j && Forgets(c, h[k], f)
  }

  lemma FailureHeld(c: Config, h: seq<TickLog>, i: nat, j: nat, f: Fingerprint, g: int)
    requires Lawful(c.codec) && IsRun(c, h) && i <= j < |h| && Faithful(c, h[i].found.state)
    requires Remembers(h[i].found.state, f, g) && forall k :: i <= k < j ==> !Forgets(c, h[k], f)
    ensures Remembers(h[j].found.state, f, g)
    ensures RendersAt(h[j], f, g) ==> h[j].applied == {}
  {
    var p := (w: World) => Remembers(w.state, f, g);
    forall k | i <= k < j && p(Books(h[k].found)) ensures p(Books(h[k].left)) {
      FaithfulThroughout(c, h, i, k);
      FailureStays(c, h[k], f, g);
    }
    Carried(c, h, i, j, p);
    FaithfulThroughout(c, h, i, j);
    if RendersAt(h[j], f, g) { NothingAtFailure(c, h[j], f, g); }
  }

  lemma RunHoldsFailures(c: Config, h: seq<TickLog>)
    requires Lawful(c.codec) && IsRun(c, h) && (h != [] ==> Faithful(c, h[0].found.state))
    ensures FailuresHeld(c, h)
  {
    hide IsRun, Remembers, RendersAt, Forgets, Faithful;
    forall i, j, f, g | 0 <= i <= j < |h| && Remembers(h[i].found.state, f, g) && RendersAt(h[j], f, g)
      && h[j].applied != {}
      ensures exists k :: i <= k < j && Forgets(c, h[k], f)
    {
      if forall k :: i <= k < j ==> !Forgets(c, h[k], f) {
        FaithfulThroughout(c, h, 0, i);
        FailureHeld(c, h, i, j, f, g);
        assert false;
      }
    }
  }

  /** The tick attempted its set, now or before, and it is not the last good one. */
  ghost predicate CameToNothing(l: TickLog) {
    && l.finished && l.t.enabled && l.desired.Some? && !HeldBack(l)
    && !(l.left.state.lastGood.Some? && l.left.state.lastGood.value.fingerprint == l.desired.value.fingerprint)
  }

  /** After a finished tick whose set came to nothing, no later tick that renders the same at that generation
      or below applies anything, unless the failure was forgotten in between. */
  ghost predicate FailuresStick(c: Config, h: seq<TickLog>) {
    forall i, j ::
      && 0 <= i < j < |h| && CameToNothing(h[i])
      && RendersAt(h[j], h[i].desired.value.fingerprint, h[i].t.upgradeGeneration) && h[j].applied != {} ==>
        exists k :: i < k < j && Forgets(c, h[k], h[i].desired.value.fingerprint)
  }

  lemma FailureSticks(c: Config, h: seq<TickLog>, i: nat, j: nat)
    requires Lawful(c.codec) && IsRun(c, h) && i < j < |h| && Faithful(c, h[i].found.state) && CameToNothing(h[i])
    requires RendersAt(h[j], h[i].desired.value.fingerprint, h[i].t.upgradeGeneration) && h[j].applied != {}
    ensures exists k :: i < k < j && Forgets(c, h[k], h[i].desired.value.fingerprint)
  {
    hide Accounted, Reporting, SavesOwn, Began, Moves, Effects, Tracking, PurgeDone, Ended, Agrees;
    hide Faithful, RendersAt, Forgets, HeldBack;
    var f, g := h[i].desired.value.fingerprint, h[i].t.upgradeGeneration;
    TickSettles(c, h[i]);
    assert FollowsOn(h, i + 1);
    FaithfulThroughout(c, h, i, i + 1);
    if forall k :: i + 1 <= k < j ==> !Forgets(c, h[k], f) {
      FailureHeld(c, h, i + 1, j, f, g);
      assert false;
    }
  }

  lemma RunSticksToFailures(c: Config, h: seq<TickLog>)
    requires Lawful(c.codec) && IsRun(c, h) && (h != [] ==> Faithful(c, h[0].found.state))
    ensures FailuresStick(c, h)
  {
    hide IsRun, HeldBack, RendersAt, Forgets, Faithful;
    forall i, j |
      && 0 <= i < j < |h| && CameToNothing(h[i])
      && RendersAt(h[j], h[i].desired.value.fingerprint, h[i].t.upgradeGeneration) && h[j].applied != {}
      ensures exists k :: i < k < j && Forgets(c, h[k], h[i].desired.value.fingerprint)
    {
      FaithfulThroughout(c, h, 0, i);
      FailureSticks(c, h, i, j);
    }
  }

  // ---- holds ----------------------------------------------------------------------------------------------

  /** From the `i`-th tick to the `j`-th the backend is enabled under manual updates, its last good record
      is trusted, and no upgrade is asked for past the generation it was promoted at. */
  ghost predicate NoUpgradeAsked(h: seq<TickLog>, i: nat, j: nat)
    requires i <= j < |h|
  {
    && h[i].found.state.lastGood.Some?
    && h[i].t.upgradeGeneration <= h[i].found.state.lastGood.value.upgradeGeneration
    && (forall k :: i <= k <= j ==> h[k].t.enabled && h[k].t.manual && TrustOf(h[k]).lastGood)
    && (forall k, m :: i <= k <= m <= j ==> h[m].t.upgradeGeneration <= h[k].t.upgradeGeneration)
  }

  ghost predicate HoldsKept(h: seq<TickLog>) {
    forall i, j :: 0 <= i <= j < |h| && NoUpgradeAsked(h, i, j) ==>
      && h[j].left.state.lastGood.Some?
      && h[j].left.state.lastGood.value.release == h[i].found.state.lastGood.value.release
      && (h[j].t.release != h[i].found.state.lastGood.value.release ==> h[j].applied == {} && h[j].deleted == {})
  }

  lemma {:induction false} HeldThroughout(c: Config, h: seq<TickLog>, i: nat, j: nat)
    requires Lawful(c.codec) && IsRun(c, h) && i <= j < |h| && Faithful(c, h[i].found.state) && NoUpgradeAsked(h, i, j)
    ensures var release := h[i].found.state.lastGood.value.release;
      && h[j].left.state.lastGood.Some? && h[j].left.state.lastGood.value.release == release
      && h[j].left.state.lastGood.value.upgradeGeneration >= h[j].t.upgradeGeneration
      && (h[j].t.release != release ==> h[j].applied == {} && h[j].deleted == {})
  {
    hide Accounted, Reporting, SavesOwn, Began, Moves, Effects, Tracking, PurgeDone, Ended, Agrees, Faithful,
      VerifyState;
    FaithfulThroughout(c, h, i, j);
    if i < j {
      HeldThroughout(c, h, i, j - 1);
      assert FollowsOn(h, j);
    }
    HeldTick(c, h[j]);
  }

  lemma RunKeepsHolds(c: Config, h: seq<TickLog>)
    requires Lawful(c.codec) && IsRun(c, h) && (h != [] ==> Faithful(c, h[0].found.state))
    ensures HoldsKept(h)
  {
    forall i, j | 0 <= i <= j < |h| && NoUpgradeAsked(h, i, j)
      ensures && h[j].left.state.lastGood.Some?
              && h[j].left.state.lastGood.value.release == h[i].found.state.lastGood.value.release
              && (h[j].t.release != h[i].found.state.lastGood.value.release ==>
                h[j].applied == {} && h[j].deleted == {})
    {
      FaithfulThroughout(c, h, 0, i);
      HeldThroughout(c, h, i, j);
    }
  }

  // ---- purges ---------------------------------------------------------------------------------------------

  /** The tick leaves generation `g` behind it: recorded, or asked of an enabled backend that stored
      anything or got as far as its render. */
  ghost predicate LeavesBehind(l: TickLog, g: int) {
    || l.left.state.purgedGeneration >= g
    || (l.t.enabled && l.t.purgeGeneration >= g && (l.saves != [] || l.desired.Some?))
  }

  /** A purge generation left behind never deletes data later on. */
  ghost predicate PurgesOnce(h: seq<TickLog>) {
    forall i, j, d :: 0 <= i < j < |h| && LeavesBehind(h[i], h[j].t.purgeGeneration) && d in h[j].deleted ==>
      !IsRetainedData(d.ref)
  }

  lemma PurgedOver(c: Config, h: seq<TickLog>, i: nat, j: nat)
    requires IsRun(c, h) && i <= j < |h|
    ensures h[j].found.state.purgedGeneration >= h[i].found.state.purgedGeneration
  {
    var p := (w: World) => w.state.purgedGeneration >= h[i].found.state.purgedGeneration;
    forall k | i <= k <= j && p(Books(h[k].found)) ensures p(Books(h[k].left)) {
      PurgeSpent(c, h[k]);
    }
    Carried(c, h, i, j, p);
  }

  lemma LeftBehind(c: Config, l: TickLog, g: int)
    requires TickOk(c, l) && LeavesBehind(l, g)
    ensures l.left.state.purgedGeneration >= g
  {
    PurgeSpent(c, l);
  }

  lemma PurgesRecorded(c: Config, l: TickLog)
    requires TickOk(c, l)
    ensures l.left.state.purgedGeneration >= l.found.state.purgedGeneration
    ensures LeavesBehind(l, l.t.purgeGeneration) ==> l.left.state.purgedGeneration >= l.t.purgeGeneration
  {
    PurgeSpent(c, l);
  }

  lemma PurgedOnce(c: Config, h: seq<TickLog>, i: nat, j: nat, d: Deletion)
    requires IsRun(c, h) && i < j < |h| && LeavesBehind(h[i], h[j].t.purgeGeneration) && d in h[j].deleted
    ensures !IsRetainedData(d.ref)
  {
    hide Began, Moves, SavesOwn, Reporting, MayDelete, IsRetainedData, LeavesBehind, Tracking, PurgeDone, Ended,
      Accounted, Agrees;
    LeftBehind(c, h[i], h[j].t.purgeGeneration);
    assert FollowsOn(h, i + 1);
    PurgedOver(c, h, i + 1, j);
    if IsRetainedData(d.ref) { DataNeedsPurge(c, h[j], d); }
  }

  lemma RunPurgesOnce(c: Config, h: seq<TickLog>)
    requires IsRun(c, h)
    ensures PurgesOnce(h)
  {
    hide IsRun, LeavesBehind, IsRetainedData;
    forall i, j, d | 0 <= i < j < |h| && LeavesBehind(h[i], h[j].t.purgeGeneration) && d in h[j].deleted
      ensures !IsRetainedData(d.ref)
    {
      PurgedOnce(c, h, i, j, d);
    }
  }

  /** A disabled backend was asked for a purge it had not recorded. */
  predicate PurgeAsked(h: seq<TickLog>) {
    exists i :: 0 <= i < |h| && !h[i].t.enabled && h[i].t.purgeGeneration > h[i].found.state.purgedGeneration
  }

  ghost predicate NoDataDeleted(h: seq<TickLog>) {
    forall i, d :: 0 <= i < |h| && d in h[i].deleted ==> !IsRetainedData(d.ref)
  }

  lemma PurgeAskedOnce(h: seq<TickLog>, l: TickLog)
    ensures PurgeAsked(h) || (!l.t.enabled && l.t.purgeGeneration > l.found.state.purgedGeneration) ==>
      PurgeAsked(h + [l])
  {
    var g := h + [l];
    if PurgeAsked(h) {
      var i :| 0 <= i < |h| && !h[i].t.enabled && h[i].t.purgeGeneration > h[i].found.state.purgedGeneration;
      assert g[i] == h[i];
    }
    assert g[|h|] == l;
  }

  /** When no purge past the generation recorded at the start is asked for, no data is deleted. */
  lemma NothingPurged(c: Config, from: World, h: seq<TickLog>, to: World)
    requires IsRun(c, h) && Leads(from, h, to)
    requires forall i :: 0 <= i < |h| && !h[i].t.enabled ==> h[i].t.purgeGeneration <= from.state.purgedGeneration
    ensures !PurgeAsked(h) && NoDataDeleted(h)
  {
    hide IsRetainedData, MayDelete, Reporting, SavesOwn, Tracking, Moves, Began, PurgeDone, Ended, Accounted, Agrees;
    forall i | 0 <= i < |h|
      ensures h[i].t.enabled || h[i].t.purgeGeneration <= h[i].found.state.purgedGeneration
      ensures forall d :: d in h[i].deleted ==> !IsRetainedData(d.ref)
    {
      PurgedOver(c, h, 0, i);
      forall d | d in h[i].deleted ensures !IsRetainedData(d.ref) {
        if IsRetainedData(d.ref) { DataNeedsPurge(c, h[i], d); }
      }
    }
  }

  // ---- data -----------------------------------------------------------------------------------------------

  /** RendersAt are versioned, the inventory is trusted, and no purge is recorded. */
  ghost predicate Preserves(l: TickLog) {
    Core(l) && TrustOf(l).inventory && !PurgedIn(l)
  }

  /** Data known is still known after ticks that preserve it, wherever in the run they start. */
  ghost predicate DataKept(c: Config, h: seq<TickLog>) {
    forall i, j :: 0 <= i <= j < |h| && Sane(c, h[i].found.state) && (forall k :: i <= k <= j ==> Preserves(h[k])) ==>
      KeepsData(h[i].found.state, h[j].left.state)
  }

  lemma DataThroughout(c: Config, h: seq<TickLog>, i: nat, j: nat)
    requires Lawful(c.codec) && IsRun(c, h) && i <= j < |h|
    requires Sane(c, h[i].found.state) && forall k :: i <= k <= j ==> Preserves(h[k])
    ensures KeepsData(h[i].found.state, h[j].left.state)
  {
    var from := h[i].found.state;
    var p := (w: World) => Sane(c, w.state) && KeepsData(from, w.state);
    forall k | i <= k <= j && p(Books(h[k].found)) ensures p(Books(h[k].left)) {
      assert Preserves(h[k]);
      TickKeeps(c, h[k]);
    }
    Carried(c, h, i, j, p);
  }

  lemma RunKeepsData(c: Config, h: seq<TickLog>)
    requires Lawful(c.codec) && IsRun(c, h)
    ensures DataKept(c, h)
  {
    forall i, j | 0 <= i <= j < |h| && Sane(c, h[i].found.state) && (forall k :: i <= k <= j ==> Preserves(h[k]))
      ensures KeepsData(h[i].found.state, h[j].left.state)
    {
      DataThroughout(c, h, i, j);
    }
  }

  // ---- trust ----------------------------------------------------------------------------------------------

  /** Between ticks that are answered, trust is handed on; a tick that stores anything earns it. */
  ghost predicate TrustKept(h: seq<TickLog>) {
    forall i, j :: 0 <= i < j < |h| && EarnsTrust(h[i]) && (forall k :: i <= k < j ==> Answered(h[k])) ==>
      TrustOf(h[j]) == Trust(true, true)
  }

  ghost predicate EarnsTrust(l: TickLog) {
    TrustOf(l) == Trust(true, true) || l.saves != []
  }

  lemma TrustThroughout(c: Config, h: seq<TickLog>, i: nat, j: nat)
    requires IsRun(c, h) && i <= j < |h| && EarnsTrust(h[i]) && forall k :: i <= k <= j ==> Answered(h[k])
    ensures VerifyState(h[j].left.state, h[j].left.record) == Trust(true, true)
  {
    hide Accounted, Reporting, SavesOwn, Began, Moves, Effects, Tracking, PurgeDone, Ended;
    if i < j {
      var p := (w: World) => VerifyState(w.state, w.record) == Trust(true, true);
      assert FollowsOn(h, i + 1);
      Carried(c, h, i + 1, j, p);
    }
  }

  lemma RunKeepsTrust(c: Config, h: seq<TickLog>)
    requires IsRun(c, h)
    ensures TrustKept(h)
  {
    hide TickOk, Answered, EarnsTrust;
    forall i, j | 0 <= i < j < |h| && EarnsTrust(h[i]) && (forall k :: i <= k < j ==> Answered(h[k]))
      ensures TrustOf(h[j]) == Trust(true, true)
    {
      TrustThroughout(c, h, i, j - 1);
      assert FollowsOn(h, j);
    }
  }

  /** However the state came about that a tick loaded: if it promotes and is answered, the state is in
      order, and the data known then is kept through every later tick that is answered and records no purge. */
  ghost predicate Recovers(c: Config, h: seq<TickLog>) {
    forall i, j :: 0 <= i < j < |h| && Restores(c, h[i]) && UntroubledSince(h, i, j) ==>
      StateOk(c, h[i].left.state) && KeepsData(h[i].left.state, h[j].left.state)
  }

  ghost predicate Restores(c: Config, l: TickLog) {
    StoresPromotion(c, l) && Answered(l) && Core(l) && (TrustOf(l).inventory ==> WellFormed(l.found.state))
  }

  ghost predicate Untroubled(l: TickLog) {
    Answered(l) && Core(l) && !PurgedIn(l)
  }

  ghost predicate UntroubledSince(h: seq<TickLog>, i: nat, j: nat)
    requires i < j < |h|
  {
    forall k :: i < k <= j ==> Untroubled(h[k])
  }

  lemma RunRecovers(c: Config, h: seq<TickLog>)
    requires Lawful(c.codec) && IsRun(c, h)
    ensures Recovers(c, h)
  {
    hide IsRun, Restores, UntroubledSince, KeepsData, StateOk;
    forall i, j | 0 <= i < j < |h| && Restores(c, h[i]) && UntroubledSince(h, i, j)
      ensures StateOk(c, h[i].left.state) && KeepsData(h[i].left.state, h[j].left.state)
    {
      Recovered(c, h, i, j);
    }
  }

  lemma Recovered(c: Config, h: seq<TickLog>, i: nat, j: nat)
    requires Lawful(c.codec) && IsRun(c, h) && i < j < |h|
    requires Restores(c, h[i]) && UntroubledSince(h, i, j)
    ensures StateOk(c, h[i].left.state) && KeepsData(h[i].left.state, h[j].left.state)
  {
    hide Accounted, Reporting, SavesOwn, Began, Moves, Effects, Tracking, PurgeDone, Ended, Agrees, Answered, Core,
      KeepsData;
    PromotionRestores(c, h[i]);
    RunKeepsTrust(c, h);
    forall k | i < k <= j ensures Preserves(h[k]) {
      assert Untroubled(h[k]);
    }
    assert FollowsOn(h, i + 1);
    DataThroughout(c, h, i + 1, j);
  }

  // ---- bookkeeping ----------------------------------------------------------------------------------------

  /** Every load was trusted and every render versioned as the core group is. */
  ghost predicate AllVerified(h: seq<TickLog>) {
    forall i :: 0 <= i < |h| ==> Verified(h[i])
  }

  ghost predicate AllAnswered(h: seq<TickLog>) {
    forall i :: 0 <= i < |h| ==> Answered(h[i]) && Core(h[i])
  }

  lemma AnsweredSoFar(h: seq<TickLog>, l: TickLog)
    requires AllAnswered(h + [l])
    ensures AllAnswered(h) && Answered(l) && Core(l)
  {
    var g := h + [l];
    assert g[|h|] == l && forall i :: 0 <= i < |h| ==> g[i] == h[i];
  }

  lemma SoundThroughout(c: Config, h: seq<TickLog>)
    requires IsRun(c, h) && h != [] && h[0].found.sound && AllVerified(h)
    ensures h[|h| - 1].left.sound
  {
    hide Accounted, Reporting, SavesOwn, Began, Moves, Effects, PurgeDone, Ended, Agrees, Verified;
    var p := (w: World) => w.sound;
    Carried(c, h, 0, |h| - 1, p);
  }

  /** In a run all of whose ticks are answered every load is trusted. */
  lemma AnsweredVerified(c: Config, h: seq<TickLog>)
    requires IsRun(c, h) && h != [] && TrustOf(h[0]) == Trust(true, true) && AllAnswered(h)
    ensures AllVerified(h)
  {
    RunKeepsTrust(c, h);
    forall i | 0 <= i < |h| ensures Verified(h[i]) {
      if i > 0 { assert EarnsTrust(h[0]); }
    }
  }

  ghost predicate NoneCutShort(c: Config, h: seq<TickLog>) {
    forall i :: 0 <= i < |h| ==> !CutShort(c, h[i])
  }

  /** Only a tick cut short behind its stored promotion leaves orphans. */
  lemma OrphansThroughout(c: Config, h: seq<TickLog>)
    requires IsRun(c, h) && h != [] && NoneCutShort(c, h)
    ensures h[|h| - 1].left.orphans == h[0].found.orphans
  {
    hide Accounted, Reporting, SavesOwn, Began, Moves, Effects, PurgeDone, Ended, Agrees, Promotes, Tracks, Verified;
    var before := h[0].found.orphans;
    var p := (w: World) => w.orphans == before;
    forall k | 0 <= k < |h| && p(Books(h[k].found)) ensures p(Books(h[k].left)) {
    }
    Carried(c, h, 0, |h| - 1, p);
  }

  // ---- what scpd is told ----------------------------------------------------------------------------------

  /** Between ticks scpd's record stays, and so does the memory unless the process ends. */
  ghost predicate HandsOn(a: World, b: World) {
    b.record == a.record && (b.memory == a.memory || b.memory.None?)
  }

  ghost predicate HandedOn(h: seq<TickLog>, i: nat)
    requires 0 < i < |h|
  {
    HandsOn(h[i - 1].left, h[i].found)
  }

  /** Unlike the stored state, record and memory are handed on whoever rewrites the Secrets. */
  ghost predicate Chained(from: World, h: seq<TickLog>, to: World) {
    && (if h == [] then HandsOn(from, to) else HandsOn(from, h[0].found) && HandsOn(h[|h| - 1].left, to))
    && (forall i :: 0 < i < |h| ==> HandedOn(h, i))
  }

  lemma ChainBegins(from: World)
    ensures Chained(from, [], from) && SavedOver([]) == {}
  {
  }

  lemma ChainWaits(from: World, h: seq<TickLog>, a: World, b: World)
    requires Chained(from, h, a) && HandsOn(a, b)
    ensures Chained(from, h, b)
  {
  }

  lemma ChainExtends(from: World, h: seq<TickLog>, l: TickLog)
    requires Chained(from, h, l.found)
    ensures Chained(from, h + [l], l.left)
  {
    var g := h + [l];
    forall i | 0 < i < |g| ensures HandedOn(g, i) {
      if i < |h| { assert HandedOn(h, i); }
    }
  }

  /** A state was loaded and trusted while scpd had no record to hold it against. */
  ghost predicate FirstUse(l: TickLog) {
    l.loaded && l.found.record.inventory.None? && TrustOf(l) == Trust(true, true)
  }

  ghost predicate NoFirstUse(h: seq<TickLog>) {
    forall i :: 0 <= i < |h| ==> !FirstUse(h[i])
  }

  lemma FirstUseMore(h: seq<TickLog>, l: TickLog)
    ensures NoFirstUse(h + [l]) <==> NoFirstUse(h) && !FirstUse(l)
  {
    var g := h + [l];
    assert g[|h|] == l && forall i :: 0 <= i < |h| ==> g[i] == h[i];
  }

  /** The digests of a state the tick saved, and knew it had, or of one taken on first use. */
  ghost predicate FromTick(l: TickLog, saves: seq<Save>, d: Integrity) {
    || (exists s :: s in saves && s.acked && d == IntegrityOf(Some(DigestsOf(s.state))))
    || (FirstUse(l) && d == IntegrityOf(Some(DigestsOf(l.found.state))))
  }

  /** Digests that come from the start of the run, or from a tick before the `j`-th. */
  ghost predicate Sourced(from: World, h: seq<TickLog>, j: nat, d: Integrity)
    requires j <= |h|
  {
    || d == from.record || (from.memory.Some? && d == IntegrityOf(from.memory))
    || (exists i :: 0 <= i < j && FromTick(h[i], h[i].saves, d))
  }

  /** No report of the run, stored by scpd or not, names any other digests than those the run started
      with, those of states saved before, or of one taken on first use; and none erases the record. */
  ghost predicate ReportsSourced(from: World, h: seq<TickLog>) {
    forall j, r :: 0 <= j < |h| && r in h[j].reports ==>
      && (Sourced(from, h, j, r.digests) || FromTick(h[j], r.behind, r.digests))
      && (r.digests.inventory.None? ==> h[j].found.record.inventory.None?)
  }

  lemma {:induction false} MemoryFrom(memory: Option<StateDigests>, saves: seq<Save>)
    ensures || MemoryAfter(memory, saves) == memory
            || exists s :: s in saves && s.acked && MemoryAfter(memory, saves) == Some(DigestsOf(s.state))
  {
    if saves != [] {
      var n := |saves| - 1;
      if saves[n].acked {
        assert saves[n] in saves;
      } else {
        MemoryFrom(memory, saves[..n]);
      }
    }
  }

  /** Digests come with the tick, or from it. */
  ghost predicate Comes(l: TickLog, saves: seq<Save>, d: Integrity) {
    || d == l.found.record || (l.found.memory.Some? && d == IntegrityOf(l.found.memory))
    || FromTick(l, saves, d)
  }

  lemma MemoryComes(l: TickLog, saves: seq<Save>)
    ensures var m := MemoryAfter(Recalled(l.found, l.loaded), saves); m.Some? ==> Comes(l, saves, IntegrityOf(m))
  {
    hide DigestsOf, VerifyState, MemoryAfter;
    var found := l.found;
    MemoryFrom(Recalled(found, l.loaded), saves);
    if l.loaded && TrustOf(l) == Trust(true, true) && found.record.inventory.Some? {
      TrustedIsRecorded(found.state, found.record);
    }
  }

  lemma {:induction false} StoredComes(from: Integrity, reports: seq<Notice>)
    ensures LastStored(from, reports) == from || exists r :: r in reports && r.digests == LastStored(from, reports)
  {
    if reports != [] {
      var n := |reports| - 1;
      if reports[n].stored {
        assert reports[n] in reports;
      } else {
        StoredComes(from, reports[..n]);
      }
    }
  }

  /** What a tick reports, leaves recorded and leaves remembered comes with it or from it. */
  lemma TickHands(l: TickLog)
    requires Accounted(l) && Reporting(l)
    ensures forall r :: r in l.reports ==>
      && Comes(l, r.behind, r.digests) && Comes(l, l.saves, r.digests)
      && (r.digests.inventory.None? ==> l.found.record.inventory.None?)
    ensures Comes(l, l.saves, l.left.record)
    ensures l.left.memory.Some? ==> Comes(l, l.saves, IntegrityOf(l.left.memory))
    ensures l.left.record.inventory.None? ==> l.found.record.inventory.None?
  {
    hide MemoryAfter, Recalled, Traced;
    forall r | r in l.reports
      ensures Comes(l, r.behind, r.digests) && Comes(l, l.saves, r.digests)
      ensures r.digests.inventory.None? ==> l.found.record.inventory.None?
    {
      MemoryComes(l, r.behind);
    }
    MemoryComes(l, l.saves);
    StoredComes(l.found.record, l.reports);
  }

  lemma SourcedLater(from: World, h: seq<TickLog>, j: nat, d: Integrity)
    requires j < |h|
    requires Sourced(from, h, j, h[j].found.record)
    requires h[j].found.memory.Some? ==> Sourced(from, h, j, IntegrityOf(h[j].found.memory))
    requires Comes(h[j], h[j].saves, d)
    ensures Sourced(from, h, j + 1, d)
  {
  }

  lemma {:induction false} FoundSourced(c: Config, from: World, h: seq<TickLog>, to: World, j: nat)
    requires Chained(from, h, to) && (forall i :: 0 <= i < |h| ==> TickOk(c, h[i])) && j < |h|
    ensures Sourced(from, h, j, h[j].found.record)
    ensures h[j].found.memory.Some? ==> Sourced(from, h, j, IntegrityOf(h[j].found.memory))
    ensures from.record.inventory.Some? ==> h[j].found.record.inventory.Some?
  {
    hide Accounted, Reporting, TurnOk, Agrees, FromTick, Comes, Sourced;
    if j == 0 {
      StartSourced(from, h);
    } else {
      FoundSourced(c, from, h, to, j - 1);
      LeftSourced(c, from, h, to, j - 1);
      assert HandedOn(h, j);
    }
  }

  lemma StartSourced(from: World, h: seq<TickLog>)
    ensures Sourced(from, h, 0, from.record)
    ensures from.memory.Some? ==> Sourced(from, h, 0, IntegrityOf(from.memory))
  {
  }

  lemma LeftSourced(c: Config, from: World, h: seq<TickLog>, to: World, j: nat)
    requires j < |h| && TickOk(c, h[j])
    requires Sourced(from, h, j, h[j].found.record)
    requires h[j].found.memory.Some? ==> Sourced(from, h, j, IntegrityOf(h[j].found.memory))
    ensures Sourced(from, h, j + 1, h[j].left.record)
    ensures h[j].left.memory.Some? ==> Sourced(from, h, j + 1, IntegrityOf(h[j].left.memory))
    ensures h[j].found.record.inventory.Some? ==> h[j].left.record.inventory.Some?
  {
    hide Accounted, Reporting, TurnOk, Agrees, FromTick, Comes, Sourced;
    TickHands(h[j]);
    SourcedLater(from, h, j, h[j].left.record);
    if h[j].left.memory.Some? { SourcedLater(from, h, j, IntegrityOf(h[j].left.memory)); }
  }

  /** Over any run, whoever rewrites the Secrets in it. */
  lemma RunReportsSourced(c: Config, from: World, h: seq<TickLog>, to: World)
    requires Chained(from, h, to) && forall i :: 0 <= i < |h| ==> TickOk(c, h[i])
    ensures ReportsSourced(from, h)
    ensures Sourced(from, h, |h|, to.record)
    ensures from.record.inventory.Some? ==> to.record.inventory.Some? && NoFirstUse(h)
  {
    hide Accounted, Reporting, TurnOk, Agrees, FromTick, Sourced, TrustOf;
    forall j | 0 <= j < |h|
      ensures forall r :: r in h[j].reports ==>
        && (Sourced(from, h, j, r.digests) || FromTick(h[j], r.behind, r.digests))
        && (r.digests.inventory.None? ==> h[j].found.record.inventory.None?)
      ensures from.record.inventory.Some? ==> !FirstUse(h[j])
    {
      FoundSourced(c, from, h, to, j);
      TickHands(h[j]);
    }
    if h == [] {
      StartSourced(from, h);
    } else {
      FoundSourced(c, from, h, to, |h| - 1);
      LeftSourced(c, from, h, to, |h| - 1);
    }
  }

  /** Every state the tick stored. */
  function SavedIn(l: TickLog): set<BackendState> {
    set s | s in l.saves :: s.state
  }

  function SavedOver(h: seq<TickLog>): set<BackendState> {
    if h == [] then {} else SavedOver(h[..|h| - 1]) + SavedIn(h[|h| - 1])
  }

  lemma SavedMore(h: seq<TickLog>, l: TickLog)
    ensures SavedOver(h + [l]) == SavedOver(h) + SavedIn(l)
  {
    assert (h + [l])[..|h|] == h;
  }

  // ---- all of it ------------------------------------------------------------------------------------------

  /** What any run without rewritten Secrets keeps, from the world it starts in to the one it ends in. */
  lemma RunKeeps(c: Config, from: World, h: seq<TickLog>, to: World)
    requires Lawful(c.codec) && IsRun(c, h) && Leads(from, h, to)
    ensures Faithful(c, from.state) ==>
      Faithful(c, to.state) && FailuresHeld(c, h) && FailuresStick(c, h) && HoldsKept(h)
    ensures PurgesOnce(h) && DataKept(c, h) && TrustKept(h) && Recovers(c, h)
    ensures to.state.purgedGeneration >= from.state.purgedGeneration
    ensures from.sound && AllVerified(h) ==> to.sound
    ensures from.sound && VerifyState(from.state, from.record) == Trust(true, true) && AllAnswered(h) ==> to.sound
    ensures NoneCutShort(c, h) ==> to.orphans == from.orphans
  {
    hide TickOk, Faithful, FailuresHeld, FailuresStick, HoldsKept, PurgesOnce, DataKept, TrustKept, Recovers;
    if Faithful(c, from.state) {
      RunHoldsFailures(c, h);
      RunSticksToFailures(c, h);
      RunKeepsHolds(c, h);
    }
    RunPurgesOnce(c, h);
    RunKeepsData(c, h);
    RunKeepsTrust(c, h);
    RunRecovers(c, h);
    if h != [] { RunLeaves(c, h); }
  }

  lemma RunLeaves(c: Config, h: seq<TickLog>)
    requires Lawful(c.codec) && IsRun(c, h) && h != []
    ensures Faithful(c, h[0].found.state) ==> Faithful(c, h[|h| - 1].left.state)
    ensures h[|h| - 1].left.state.purgedGeneration >= h[0].found.state.purgedGeneration
    ensures h[0].found.sound && AllVerified(h) ==> h[|h| - 1].left.sound
    ensures TrustOf(h[0]) == Trust(true, true) && AllAnswered(h) ==> AllVerified(h)
    ensures NoneCutShort(c, h) ==> h[|h| - 1].left.orphans == h[0].found.orphans
  {
    hide Faithful, Accounted, Reporting, SavesOwn, Began, Moves, Effects, Tracking, PurgeDone, Ended, Agrees;
    var last := |h| - 1;
    if Faithful(c, h[0].found.state) { FaithfulThroughout(c, h, 0, last); }
    PurgedOver(c, h, 0, last);
    PurgeSpent(c, h[last]);
    if TrustOf(h[0]) == Trust(true, true) && AllAnswered(h) { AnsweredVerified(c, h); }
    if h[0].found.sound && AllVerified(h) { SoundThroughout(c, h); }
    if NoneCutShort(c, h) { OrphansThroughout(c, h); }
  }
}
