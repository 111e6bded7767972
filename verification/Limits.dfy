/** The chain's limit on unbonding entries, the timing that keeps the contract under it, late releases
    included, and what a close needs to be accepted. */
module Limits {
  import opened Prelude
  import opened Sums
  import opened Types
  import opened Math
  import opened Windows
  import opened Validators
  import opened Plans
  import opened Chain
  import opened Engine
  import opened Invariants
  import opened Closing
  import opened Maturing
  import opened Claims
  import opened Keeping
  import opened System
  import opened Reach

  // ---- live entries against the counters ----

  /** The chain has released every entry that is due. */
  ghost predicate Prompt(q: Chain) {
    forall i :: 0 <= i < |q.queue| && q.queue[i].completesAt <= q.now ==> q.queue[i].released
  }

  /** The chain unbonds within the period the contract waits. */
  predicate InTime(c: Core, q: Chain) {
    q.unbondTime <= c.config.params.unbondingPeriodSecs
  }

  /** The window an entry was issued for owes something, and has been closed. */
  lemma {:induction false} EntryWindow(queue: seq<UnbondEntry>, ws: seq<UnbondWindow>, unbondTime: nat, i: nat)
    requires QueueOk(queue, ws, unbondTime) && i < |queue|
    ensures var id := queue[i].window;
            id + 1 < |ws| && 0 < ws[id].scrtOwed && queue[i].completesAt == ws[id + 1].openedAt + unbondTime
  {
    var id := queue[i].window;
    assert EntryValid(queue[i], ws, unbondTime);
    assert QueuedFor(queue, ws[id], id);
    SumMember(queue, i, OriginalFor(id));
  }

  /** An entry completes no later than its window matures. */
  lemma {:induction false} EntryCompletesFirst(c: Core, q: Chain, i: nat)
    requires CoreOk(c) && QueueOk(q.queue, c.windows, q.unbondTime) && InTime(c, q) && i < |q.queue|
    ensures q.queue[i].window + 1 < |c.windows| && q.queue[i].completesAt <= c.windows[q.queue[i].window].maturesAt
  {
    EntryWindow(q.queue, c.windows, q.unbondTime, i);
    assert WindowOk(c.windows, q.queue[i].window, c.config.params.unbondWindowSecs, c.config.params.unbondingPeriodSecs);
  }

  lemma {:induction false} LiveIsUnbonding(c: Core, q: Chain, i: nat)
    requires CoreOk(c) && ChainOk(c, q) && Prompt(q) && InTime(c, q)
    requires i < |q.queue| && !q.queue[i].released
    ensures q.queue[i].window + 1 < |c.windows| && c.windows[q.queue[i].window].state == Unbonding
  {
    EntryCompletesFirst(c, q, i);
    LiveBeforeMaturity(c, q, i);
  }

  /** A live entry of a window whose maturity is still ahead means that window is Unbonding. */
  lemma {:induction false} LiveBeforeMaturity(c: Core, q: Chain, i: nat)
    requires CoreOk(c) && ChainOk(c, q) && i < |q.queue|
    ensures var id := q.queue[i].window;
            && id + 1 < |c.windows| && 0 < c.windows[id].scrtOwed
            && (q.now < c.windows[id].maturesAt ==> c.windows[id].state == Unbonding)
            && (c.windows[id].state != Unbonding ==> c.windows[id].maturesAt <= q.now)
  {
    var id := q.queue[i].window;
    EntryWindow(q.queue, c.windows, q.unbondTime, i);
    assert WindowOk(c.windows, id, c.config.params.unbondWindowSecs, c.config.params.unbondingPeriodSecs);
    assert PastMaturity(c.windows[id], q.now);
  }

  /** The chain returns every entry less than a window length after the contract expects it. */
  ghost predicate OnSchedule(c: Core, q: Chain) {
    forall i :: 0 <= i < |q.queue| && !q.queue[i].released && q.queue[i].window < |c.windows| ==>
      q.now < c.windows[q.queue[i].window].maturesAt + c.config.params.unbondWindowSecs
  }

  /** A chain that unbonds in time and then releases less than a window length late is on schedule. */
  lemma {:induction false} SlightlyLateIsOnSchedule(c: Core, q: Chain)
    requires CoreOk(c) && ChainOk(c, q) && InTime(c, q)
    requires forall i :: 0 <= i < |q.queue| && !q.queue[i].released ==>
               q.now < q.queue[i].completesAt + c.config.params.unbondWindowSecs
    ensures OnSchedule(c, q)
  {
    forall i | 0 <= i < |q.queue| && !q.queue[i].released && q.queue[i].window < |c.windows|
      ensures q.now < c.windows[q.queue[i].window].maturesAt + c.config.params.unbondWindowSecs
    {
      EntryCompletesFirst(c, q, i);
    }
  }

  function LiveBelow(v: Addr, n: nat): UnbondEntry -> nat {
    (e: UnbondEntry) => if e.validator == v && !e.released && e.window < n then 1 else 0
  }

  function LiveIn(v: Addr, id: nat): UnbondEntry -> nat {
    (e: UnbondEntry) => if e.validator == v && !e.released && e.window == id then 1 else 0
  }

  /** Live entries belong to Unbonding windows, or to the one window `late`. */
  ghost predicate LiveExcept(queue: seq<UnbondEntry>, ws: seq<UnbondWindow>, late: nat) {
    forall i :: 0 <= i < |queue| && !queue[i].released ==>
      queue[i].window + 1 < |ws| && (ws[queue[i].window].state == Unbonding || queue[i].window == late)
  }

  function OneIf(b: bool): nat { if b then 1 else 0 }

  /** A window holds at most one live entry per validator, and none once it has matured, unless it is
      the late one. */
  lemma {:induction false} LiveInWindow(queue: seq<UnbondEntry>, ws: seq<UnbondWindow>, v: Addr, id: nat, late: nat)
    requires LiveExcept(queue, ws, late) && id < |ws| && QueuedFor(queue, ws[id], id)
    ensures SumSeq(queue, LiveIn(v, id)) <= Uses(v)(ws[id]) + OneIf(id == late)
  {
    if ws[id].state == Unbonding || id == late {
      SumLe(queue, LiveIn(v, id), queue, EntriesFor(v, id));
    } else {
      SumZero(queue, LiveIn(v, id));
    }
  }

  lemma {:induction false} LiveCount(queue: seq<UnbondEntry>, ws: seq<UnbondWindow>, v: Addr, n: nat, late: nat)
    requires LiveExcept(queue, ws, late) && n < |ws|
    requires forall id :: 0 <= id < |ws| - 1 ==> QueuedFor(queue, ws[id], id)
    ensures SumSeq(queue, LiveBelow(v, n)) <= SumSeq(ws[..n], Uses(v)) + OneIf(late < n)
  {
    if n == 0 {
      SumZero(queue, LiveBelow(v, n));
    } else {
      LiveCount(queue, ws, v, n - 1, late);
      SumSplit(queue, LiveBelow(v, n), LiveBelow(v, n - 1), LiveIn(v, n - 1));
      LiveInWindow(queue, ws, v, n - 1, late);
      assert ws[..n] == ws[..n - 1] + [ws[n - 1]];
      SumSnoc(ws[..n - 1], ws[n - 1], Uses(v));
    }
  }

  lemma {:induction false} LiveTotal(c: Core, q: Chain, v: Addr, late: nat)
    requires ChainOk(c, q) && LiveExcept(q.queue, c.windows, late)
    ensures LiveEntries(q, v) <= SumSeq(c.windows, Uses(v)) + OneIf(late < |c.windows|)
  {
    var n := |c.windows| - 1;
    LiveCount(q.queue, c.windows, v, n, late);
    SumSame(q.queue, LiveOn(v), q.queue, LiveBelow(v, n));
    SumPrefix(c.windows, n, Uses(v));
  }

  /** On a chain that has released everything due, live entries never outnumber the Unbonding windows
      that used the validator. */
  lemma {:induction false} LiveWithinWindows(c: Core, q: Chain, v: Addr)
    requires CoreOk(c) && ChainOk(c, q) && Prompt(q) && InTime(c, q)
    ensures LiveEntries(q, v) <= SumSeq(c.windows, Uses(v))
  {
    hide CoreOk, ChainOk, Prompt;
    forall i | 0 <= i < |q.queue| && !q.queue[i].released
      ensures q.queue[i].window + 1 < |c.windows| && c.windows[q.queue[i].window].state == Unbonding
    {
      LiveIsUnbonding(c, q, i);
    }
    LiveTotal(c, q, v, |c.windows|);
  }

  /** Two windows past maturity cannot both be late by less than a window length. */
  lemma {:induction false} OneWindowIsLate(c: Core, q: Chain, i: nat, j: nat)
    requires CoreOk(c) && ChainOk(c, q) && OnSchedule(c, q) && i < |q.queue| && j < |q.queue|
    requires !q.queue[i].released && !q.queue[j].released
    requires q.queue[i].window < |c.windows| && c.windows[q.queue[i].window].state != Unbonding
    requires q.queue[j].window < |c.windows| && c.windows[q.queue[j].window].state != Unbonding
    ensures q.queue[i].window <= q.queue[j].window
  {
    hide SetOk, StakeOk, SlotsOk, ActiveOk, BucketsOk, LedgerOk, IndexOk, ChainOk;
    var p, u, ws := c.config.params.unbondWindowSecs, c.config.params.unbondingPeriodSecs, c.windows;
    var a, b := q.queue[j].window, q.queue[i].window;
    LiveBeforeMaturity(c, q, i);
    LiveBeforeMaturity(c, q, j);
    if a < b {
      assert WindowOk(ws, a, p, u) && WindowOk(ws, b, p, u);
      MaturityOrder(ws, c.openId, p, u, a + 1, b + 1);
      MulMono(1, b - a, p);
    }
  }

  lemma {:induction false} FindLate(c: Core, q: Chain) returns (late: nat)
    requires CoreOk(c) && ChainOk(c, q) && OnSchedule(c, q)
    ensures LiveExcept(q.queue, c.windows, late)
  {
    hide CoreOk, ChainOk, OnSchedule;
    forall i | 0 <= i < |q.queue| ensures q.queue[i].window + 1 < |c.windows| {
      LiveBeforeMaturity(c, q, i);
    }
    if i :| 0 <= i < |q.queue| && !q.queue[i].released && c.windows[q.queue[i].window].state != Unbonding {
      late := q.queue[i].window;
      forall j | 0 <= j < |q.queue| && !q.queue[j].released
        ensures c.windows[q.queue[j].window].state == Unbonding || q.queue[j].window == late
      {
        if c.windows[q.queue[j].window].state != Unbonding {
          OneWindowIsLate(c, q, i, j);
          OneWindowIsLate(c, q, j, i);
        }
      }
    } else {
      late := |c.windows|;
    }
  }

  /** On a chain late by less than a window length, at most one entry per validator outlives its slot. */
  lemma {:induction false} LiveWithinOneOfWindows(c: Core, q: Chain, v: Addr)
    requires CoreOk(c) && ChainOk(c, q) && OnSchedule(c, q)
    ensures LiveEntries(q, v) <= SumSeq(c.windows, Uses(v)) + 1
  {
    hide CoreOk, ChainOk, OnSchedule;
    var late := FindLate(c, q);
    LiveTotal(c, q, v, late);
  }

  /** In every reachable state a validator's counter is the number of Unbonding windows that use it and
      at most 6. The chain's live entries exceed it by at most one while the chain returns entries less
      than a window length late, so a validator still eligible under the ceiling is under the chain's
      limit of 7; and they never exceed it once everything due is released. */
  lemma {:induction false} EntryCeiling(s: Sys, steps: seq<Step>, i: nat)
    requires Fresh(s) && i < |After(s, steps).core.vals|
    ensures var r := After(s, steps);
            var v, ceiling := r.core.vals[i], r.core.config.params.maxUnbondEntries;
            && v.activeUnbondEntries == SumSeq(r.core.windows, Uses(v.address))
            && v.activeUnbondEntries <= ceiling <= 6
            && (OnSchedule(r.core, r.chain) ==>
                  && LiveEntries(r.chain, v.address) <= v.activeUnbondEntries + 1
                  && (v.activeUnbondEntries < ceiling ==> LiveEntries(r.chain, v.address) < CHAIN_MAX_UNBOND_ENTRIES))
            && (Prompt(r.chain) && InTime(r.core, r.chain) ==> LiveEntries(r.chain, v.address) <= v.activeUnbondEntries)
  {
    hide Fresh, Prompt, OnSchedule;
    var r := After(s, steps);
    ReachableOk(s, steps);
    assert SlotOk(r.core.vals[i], r.core.windows, r.core.config.params.maxUnbondEntries);
    if OnSchedule(r.core, r.chain) {
      LiveWithinOneOfWindows(r.core, r.chain, r.core.vals[i].address);
    }
    if Prompt(r.chain) && InTime(r.core, r.chain) {
      LiveWithinWindows(r.core, r.chain, r.core.vals[i].address);
    }
  }

  // ---- window length against unbonding period ----

  /** Every window still Unbonding has time to run. */
  ghost predicate NothingDue(ws: seq<UnbondWindow>, now: nat) {
    forall i :: 0 <= i < |ws| && ws[i].state == Unbonding ==> now < ws[i].maturesAt
  }

  /** How many of the listed windows are due. */
  function DueCount(ids: seq<nat>, ws: seq<UnbondWindow>, now: nat): nat {
    if ids == [] then 0
    else (if ids[0] < |ws| && IsMature(ws[ids[0]], now) then 1 else 0) + DueCount(ids[1..], ws, now)
  }

  ghost predicate NoneDue(ids: seq<nat>, ws: seq<UnbondWindow>, now: nat) {
    forall k :: 0 <= k < |ids| && ids[k] < |ws| ==> !IsMature(ws[ids[k]], now)
  }

  lemma {:induction false} DueCountElsewhere(ids: seq<nat>, ws: seq<UnbondWindow>, now: nat, id: nat, w: UnbondWindow)
    requires id < |ws| && forall k :: 0 <= k < |ids| ==> ids[k] != id
    ensures DueCount(ids, ws[id := w], now) == DueCount(ids, ws, now)
    decreases |ids|
  {
    if ids != [] {
      DueCountElsewhere(ids[1..], ws, now, id, w);
    }
  }

  lemma {:induction false} DueCountZero(ids: seq<nat>, ws: seq<UnbondWindow>, now: nat)
    ensures DueCount(ids, ws, now) == 0 <==> NoneDue(ids, ws, now)
    decreases |ids|
  {
    if ids != [] {
      DueCountZero(ids[1..], ws, now);
      assert ids == [ids[0]] + ids[1..];
    }
  }

  lemma {:induction false} NoneDueCons(ids: seq<nat>, ws: seq<UnbondWindow>, now: nat)
    requires ids != []
    ensures NoneDue(ids, ws, now) <==> NoneDue(ids[..1], ws, now) && NoneDue(ids[1..], ws, now)
  {
    assert ids == ids[..1] + ids[1..];
  }

  /** A pass leaves nothing due exactly when it had room for all that was. */
  lemma {:induction false} PassClears(ids: seq<nat>, ws: seq<UnbondWindow>, now: nat, balance: nat, spoken: nat,
        room: nat)
    requires Waiting(ids, ws)
    ensures NoneDue(ids, MatureFrom(ids, ws, now, balance, spoken, room).windows, now) <==> DueCount(ids, ws, now) <= room
    decreases |ids|
  {
    hide MatureFrom, NoneDue;
    if ids == [] || room == 0 {
      MatureFromStops(ids, ws, now, balance, spoken, room);
      DueCountZero(ids, ws, now);
    } else {
      var due := IsMature(ws[ids[0]], now);
      var w := if due then Mature(ws[ids[0]], SatSub(balance, spoken)) else ws[ids[0]];
      var r := if due then MatureFrom(ids[1..], ws[ids[0] := w], now, balance, spoken + w.Payable(), room - 1)
               else MatureFrom(ids[1..], ws, now, balance, spoken, room);
      WaitingRest(ids, ws, w);
      if due {
        MatureFromTakes(ids, ws, now, balance, spoken, room);
        PassClears(ids[1..], ws[ids[0] := w], now, balance, spoken + w.Payable(), room - 1);
        DueCountElsewhere(ids[1..], ws, now, ids[0], w);
        MatureFromWindows(ids[1..], ws[ids[0] := w], now, balance, spoken + w.Payable(), room - 1);
      } else {
        MatureFromSkips(ids, ws, now, balance, spoken, room);
        PassClears(ids[1..], ws, now, balance, spoken, room);
        MatureFromWindows(ids[1..], ws, now, balance, spoken, room);
      }
      FirstNotDue(ids, ws, if due then ws[ids[0] := w] else ws, r.windows, r.matured, now);
      NoneDueCons(ids, r.windows, now);
    }
  }

  lemma {:induction false} FirstNotDue(ids: seq<nat>, ws: seq<UnbondWindow>, us: seq<UnbondWindow>,
        rs: seq<UnbondWindow>,
        matured: seq<nat>, now: nat)
    requires Waiting(ids, ws) && ids != [] && |us| == |ws| && !IsMature(us[ids[0]], now)
    requires MaturedTable(us, rs, matured, ids[1..], now)
    ensures NoneDue(ids[..1], rs, now)
  {
    assert ids[0] !in matured;
  }

  /** A collection leaves nothing due exactly when its limit reaches every window that was: the state
      the results below start from is one a collection brings about. */
  lemma {:induction false} CollectionClears(c: Core, now: nat, balance: nat, limit: nat)
    requires CoreOk(c)
    ensures NothingDue(MatureDue(c, now, balance, limit).core.windows, now) <==> DueCount(c.active, c.windows, now) <= Max(limit, 1)
  {
    hide MatureFrom, SetOk, StakeOk, SlotsOk, BucketsOk, LedgerOk, IndexOk, WindowsOk;
    var m := MatureFrom(c.active, c.windows, now, balance, SumSeq(c.active, SpokenAt(c.windows)), Max(limit, 1));
    ActiveWaits(c);
    PassClears(c.active, c.windows, now, balance, SumSeq(c.active, SpokenAt(c.windows)), Max(limit, 1));
    MatureFromWindows(c.active, c.windows, now, balance, SumSeq(c.active, SpokenAt(c.windows)), Max(limit, 1));
    if m.matured == [] {
      assert m.windows == c.windows;
    }
    ActiveStandsForAll(c, m.windows, m.matured, now);
  }

  lemma {:induction false} ActiveStandsForAll(c: Core, us: seq<UnbondWindow>, matured: seq<nat>, now: nat)
    requires ActiveOk(c.active, c.windows) && MaturedTable(c.windows, us, matured, c.active, now)
    ensures NothingDue(us, now) <==> NoneDue(c.active, us, now)
  {
    if NoneDue(c.active, us, now) {
      forall i | 0 <= i < |us| && us[i].state == Unbonding ensures now < us[i].maturesAt {
        assert i in c.active;
      }
    }
  }

  /** So after a collection with room for everything due, a window that can close fails to close
      exactly when it owes more than the whole bonded total. */
  lemma {:induction false} CollectThenClose(c: Core, now: nat, balance: nat, limit: nat)
    requires CoreOk(c) && DueCount(c.active, c.windows, now) <= Max(limit, 1) && c.windows[c.openId].closesAt <= now
    ensures var d := MatureDue(c, now, balance, limit).core;
            ClosedOpen(d, now).Ok? <==> c.windows[c.openId].scrtOwed <= d.totals.totalBonded
  {
    hide CoreOk, ClosedOpen, MatureDue, NothingDue;
    CollectionClears(c, now, balance, limit);
    MatureKeepsCore(c, now, balance, limit);
    OnlyStakeCanStopAClose(MatureDue(c, now, balance, limit).core, now);
  }

  /** A window that can close at `now` is no more than so many window lengths after any window
      still Unbonding. */
  lemma {:induction false} UnbondingIsRecent(c: Core, now: nat, j: nat)
    requires CoreOk(c) && NothingDue(c.windows, now) && c.windows[c.openId].closesAt <= now
    requires j < c.openId && c.windows[j].state == Unbonding
    ensures (c.openId - j) * c.config.params.unbondWindowSecs < c.config.params.unbondingPeriodSecs
  {
    hide SetOk, StakeOk, SlotsOk, ActiveOk, BucketsOk, LedgerOk, IndexOk;
    var p, u, ws, n := c.config.params.unbondWindowSecs, c.config.params.unbondingPeriodSecs, c.windows, c.openId;
    assert WindowOk(ws, j, p, u) && WindowOk(ws, n, p, u);
    OpenedApart(ws, n, p, u, j + 1, n);
    OneStep(n - (j + 1), p);
  }

  lemma {:induction false} OpenedApart(ws: seq<UnbondWindow>, openId: nat, p: nat, u: nat, i: nat, j: nat)
    requires WindowsOk(ws, openId, p, u) && i <= j < |ws|
    ensures ws[i].openedAt + (j - i) * p <= ws[j].openedAt
  {
    hide WindowsOk;
    if i < j {
      MaturityOrder(ws, openId, p, u, i, j);
    }
  }

  lemma {:induction false} OneStep(k: nat, p: nat)
    ensures (k + 1) * p == k * p + p
  {
  }

  /** At most `n - j` windows of the table use a validator when none before `j` does. */
  lemma {:induction false} UsesBound(ws: seq<UnbondWindow>, a: Addr, j: nat)
    requires j <= |ws| && forall i :: 0 <= i < j ==> ws[i].state != Unbonding
    ensures SumSeq(ws, Uses(a)) <= |ws| - j
  {
    if |ws| == j {
      SumZero(ws, Uses(a));
    } else {
      UsesBound(ws[..|ws| - 1], a, j);
    }
  }

  lemma {:induction false} FirstUnbonding(ws: seq<UnbondWindow>, n: nat) returns (j: nat)
    requires n <= |ws|
    ensures j <= n && (forall i :: 0 <= i < j ==> ws[i].state != Unbonding) && (j < n ==> ws[j].state == Unbonding)
  {
    if n == 0 || ws[0].state == Unbonding {
      j := 0;
    } else {
      var k := FirstUnbonding(ws[1..], n - 1);
      forall i | 0 <= i < k + 1 ensures ws[i].state != Unbonding {
        assert i > 0 ==> ws[i] == ws[1..][i - 1];
      }
      j := k + 1;
    }
  }

  /** The accepted parameters leave two slots beyond the windows that can be unbonding at once. */
  lemma {:induction false} ParametersSuffice(p: nat, u: nat, ceiling: nat, k: nat)
    requires RequiredEntrySlots(u, p) <= ceiling < CHAIN_MAX_UNBOND_ENTRIES
    requires k * p < u || k == 0
    ensures p > 0 && k + 1 <= ceiling
    ensures k * p < u ==> k + 2 <= ceiling
  {
    if p > 0 {
      DivCeilLeast(u, p, k);
    }
  }

  /** When a window can close and none due is left uncollected, every validator has a free slot. */
  lemma {:induction false} SlotsAreFree(c: Core, now: nat, i: nat)
    requires CoreOk(c) && NothingDue(c.windows, now) && c.windows[c.openId].closesAt <= now && i < |c.vals|
    ensures c.vals[i].activeUnbondEntries < c.config.params.maxUnbondEntries
  {
    hide SetOk, StakeOk, ActiveOk, BucketsOk, LedgerOk, IndexOk, RequiredEntrySlots, IsMature;
    var p, u, ws, n := c.config.params.unbondWindowSecs, c.config.params.unbondingPeriodSecs, c.windows, c.openId;
    var a := c.vals[i].address;
    assert SlotOk(c.vals[i], ws, c.config.params.maxUnbondEntries);
    var j := FirstUnbonding(ws, n);
    assert WindowOk(ws, n, p, u);
    assert ws == ws[..n] + [ws[n]];
    SumSnoc(ws[..n], ws[n], Uses(a));
    UsesBound(ws[..n], a, j);
    if j < n {
      UnbondingIsRecent(c, now, j);
    }
    ParametersSuffice(p, u, c.config.params.maxUnbondEntries, n - j);
  }

  lemma {:induction false} AllStakeIsFree(c: Core, now: nat)
    requires CoreOk(c) && NothingDue(c.windows, now) && c.windows[c.openId].closesAt <= now
    ensures FreeStake(c.vals, c.config.params.maxUnbondEntries) == c.totals.totalBonded
  {
    var ceiling := c.config.params.maxUnbondEntries;
    forall i | 0 <= i < |c.vals| ensures Free(ceiling)(c.vals[i]) == Bonded(c.vals[i]) {
      SlotsAreFree(c, now, i);
    }
    SumSame(c.vals, Free(ceiling), c.vals, Bonded);
  }

  /** If everything due has been collected, a window that can close fails to close exactly when it
      owes more than the whole bonded total: the entry limit is never what stands in the way. */
  lemma {:induction false} OnlyStakeCanStopAClose(c: Core, now: nat)
    requires CoreOk(c) && NothingDue(c.windows, now) && c.windows[c.openId].closesAt <= now
    ensures ClosedOpen(c, now).Ok? <==> c.windows[c.openId].scrtOwed <= c.totals.totalBonded
    ensures ClosedIfOverdue(c, now).Ok?
    ensures ClosedIfOverdue(c, now).value.core.openId > c.openId
            <==> c.windows[c.openId].scrtOwed <= c.totals.totalBonded
  {
    hide Plan, SlotsOk, LedgerOk, IndexOk, ActiveOk, BucketsOk, SetOk;
    AllStakeIsFree(c, now);
    PlanSucceeds(c.vals, c.windows[c.openId].scrtOwed, c.config.params.maxUnbondEntries);
    assert WindowOk(c.windows, c.openId, c.config.params.unbondWindowSecs, c.config.params.unbondingPeriodSecs);
  }

  // ---- undelegations are always honoured ----

  /** What it takes for one leg to be accepted by the chain. */
  ghost predicate LegRuns(q: Chain, vs: seq<ValidatorEntry>, leg: UnbondLeg) {
    && leg.index < |vs| && 0 < leg.amount
    && leg.amount <= q.BondedAt(vs[leg.index].address)
    && LiveEntries(q, vs[leg.index].address) < CHAIN_MAX_UNBOND_ENTRIES
  }

  lemma {:induction false} UndelegateLeavesOthers(q: Chain, v: Addr, n: nat, w: nat, a: Addr)
    requires Exec(q, Undelegate(v, n, w)).Some? && a != v
    ensures var r := Exec(q, Undelegate(v, n, w)).value;
            r.BondedAt(a) == q.BondedAt(a) && LiveEntries(r, a) == LiveEntries(q, a)
  {
    SumSnoc(q.queue, UnbondEntry(v, n, n, q.now + q.unbondTime, w, false), LiveOn(a));
  }

  /** Legs on different validators run exactly when each of them would run alone. */
  lemma {:induction false} LegsRun(q: Chain, vs: seq<ValidatorEntry>, legs: seq<UnbondLeg>, w: nat)
    requires Distinct(Addresses(vs))
    requires forall k :: 0 <= k < |legs| ==> legs[k].index < |vs| && 0 < legs[k].amount
    requires forall j, k :: 0 <= j < k < |legs| ==> legs[j].index != legs[k].index
    ensures Run(q, LegMsgs(vs, legs, w)).Some? <==> forall k :: 0 <= k < |legs| ==> LegRuns(q, vs, legs[k])
    decreases |legs|
  {
    if legs != [] {
      var rest, v := legs[1..], vs[legs[0].index].address;
      var m := Undelegate(v, legs[0].amount, w);
      assert LegMsgs(vs, legs, w)[0] == m && LegMsgs(vs, legs, w)[1..] == LegMsgs(vs, rest, w);
      assert Exec(q, m).Some? <==> LegRuns(q, vs, legs[0]);
      if Exec(q, m).Some? {
        var r := Exec(q, m).value;
        LegsRun(r, vs, rest, w);
        forall k | 0 <= k < |rest| ensures LegRuns(r, vs, rest[k]) <==> LegRuns(q, vs, legs[k + 1]) {
          assert Addresses(vs)[legs[0].index] != Addresses(vs)[legs[k + 1].index];
          UndelegateLeavesOthers(q, v, legs[0].amount, w, vs[legs[k + 1].index].address);
        }
        assert forall k :: 0 < k < |legs| ==> legs[k] == rest[k - 1];
      }
    }
  }

  /** The cached stake is what the chain holds. */
  ghost predicate Synced(vs: seq<ValidatorEntry>, q: Chain) {
    forall i :: 0 <= i < |vs| ==> vs[i].bonded == q.BondedAt(vs[i].address)
  }

  /** The chain's live entries outrun no counter by more than one. */
  ghost predicate WithinCounters(vs: seq<ValidatorEntry>, q: Chain) {
    forall i :: 0 <= i < |vs| ==> LiveEntries(q, vs[i].address) <= vs[i].activeUnbondEntries + 1
  }

  /** A plan over counters the chain respects runs exactly when no leg exceeds its delegation. */
  lemma {:induction false} PlanRuns(q: Chain, vs: seq<ValidatorEntry>, amount: nat, ceiling: nat,
        legs: seq<UnbondLeg>, w: nat)
    requires IsPlan(vs, amount, ceiling, legs) && Distinct(Addresses(vs)) && ceiling < CHAIN_MAX_UNBOND_ENTRIES
    requires WithinCounters(vs, q)
    ensures Run(q, LegMsgs(vs, legs, w)).Some? <==>
            forall k :: 0 <= k < |legs| ==> legs[k].amount <= q.BondedAt(vs[legs[k].index].address)
  {
    PlanIndicesDiffer(vs, amount, ceiling, legs);
    LegsRun(q, vs, legs, w);
    forall k | 0 <= k < |legs|
      ensures LegRuns(q, vs, legs[k]) <==> legs[k].amount <= q.BondedAt(vs[legs[k].index].address)
    {
      assert Eligible(vs[legs[k].index], ceiling);
    }
  }

  lemma {:induction false} CloseRuns(c: Core, q: Chain)
    requires CoreOk(c) && Synced(c.vals, q) && WithinCounters(c.vals, q) && ClosedIfOverdue(c, q.now).Ok?
    ensures Run(q, ClosedIfOverdue(c, q.now).value.msgs).Some?
  {
    hide ClosedOpen, ClosedIfOverdue, SlotsOk, LedgerOk, IndexOk, ActiveOk, BucketsOk, StakeOk;
    OverdueCases(c, q.now);
    if ClosedIfOverdue(c, q.now) == ClosedOpen(c, q.now) {
      var legs, closed := ClosedForm(c, q.now);
      PlanRuns(q, c.vals, c.windows[c.openId].scrtOwed, c.config.params.maxUnbondEntries, legs, c.openId);
    }
  }
}
