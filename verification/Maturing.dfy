/** Maturing due windows keeps every invariant, in order, and never promises more than the balance. */
module Maturing {
  import opened Prelude
  import opened Sums
  import opened Types
  import opened Windows
  import opened Validators
  import opened Chain
  import opened Engine
  import opened Invariants

  // ---- the active list stands for the whole table ----

  lemma {:induction false} SpokenPrefix(ids: seq<nat>, ws: seq<UnbondWindow>, n: nat)
    requires n <= |ws| && forall k :: 0 <= k < |ids| ==> ids[k] < n
    ensures SumSeq(ids, SpokenAt(ws[..n])) == SumSeq(ids, SpokenAt(ws))
  {
    SumSame<nat, nat>(ids, SpokenAt(ws[..n]), ids, SpokenAt(ws));
  }

  /** `ids` lists, in order, at least every matured window of the table. */
  ghost predicate Covers(ids: seq<nat>, ws: seq<UnbondWindow>) {
    && Increasing(ids)
    && (forall k :: 0 <= k < |ids| ==> ids[k] < |ws|)
    && (forall i :: 0 <= i < |ws| && i !in ids ==> ws[i].state != Matured)
  }

  /** The listed ids below the last window. */
  function Rest(ids: seq<nat>, n: nat): seq<nat> {
    if ids != [] && ids[|ids| - 1] == n then ids[..|ids| - 1] else ids
  }

  lemma {:induction false} RestCovers(ids: seq<nat>, ws: seq<UnbondWindow>, n: nat)
    requires Covers(ids, ws) && n + 1 == |ws|
    ensures Covers(Rest(ids, n), ws[..n])
  {
    var rest := Rest(ids, n);
    forall k | 0 <= k < |rest| ensures rest[k] < n {
      if rest != ids {
        assert ids[k] < ids[|ids| - 1];
      } else {
        assert ids[k] <= ids[|ids| - 1];
      }
    }
    forall i | 0 <= i < n && i !in rest ensures ws[..n][i].state != Matured {
      assert i !in ids;
    }
  }

  lemma {:induction false} RestSum(ids: seq<nat>, ws: seq<UnbondWindow>, n: nat)
    requires Covers(ids, ws) && n + 1 == |ws|
    ensures SumSeq(ids, SpokenAt(ws)) == SumSeq(Rest(ids, n), SpokenAt(ws)) + MaturedOutstanding(ws[n])
  {
    if ids != [] && ids[|ids| - 1] == n {
      assert SpokenAt(ws)(n) == MaturedOutstanding(ws[n]);
    } else {
      forall k | 0 <= k < |ids| ensures ids[k] != n {
        assert ids[k] <= ids[|ids| - 1];
      }
      assert n !in ids;
    }
  }

  lemma {:induction false} ActiveSum(ids: seq<nat>, ws: seq<UnbondWindow>)
    requires Covers(ids, ws)
    ensures SumSeq(ids, SpokenAt(ws)) == SumSeq(ws, MaturedOutstanding)
  {
    if ws == [] {
      assert ids == [];
    } else {
      var n := |ws| - 1;
      RestCovers(ids, ws, n);
      RestSum(ids, ws, n);
      ActiveSum(Rest(ids, n), ws[..n]);
      SpokenPrefix(Rest(ids, n), ws, n);
    }
  }

  lemma {:induction false} SpokenForIs(active: seq<nat>, ws: seq<UnbondWindow>)
    requires ActiveOk(active, ws)
    ensures SumSeq(active, SpokenAt(ws)) == SumSeq(ws, MaturedOutstanding)
  {
    forall k | 0 <= k < |active| ensures active[k] < |ws| {
      assert active[k] in active;
    }
    ActiveSum(active, ws);
  }

  // ---- the maturing loop ----

  /** `w` is `v` matured with some realised amount. */
  ghost predicate MaturedTo(v: UnbondWindow, w: UnbondWindow) {
    && v.state == Unbonding
    && w.scrtRealised.Some? && w.scrtRealised.value <= v.scrtOwed
    && w == v.(scrtRealised := w.scrtRealised, state := Matured)
  }

  /** Windows waiting to mature, by id. */
  ghost predicate Waiting(ids: seq<nat>, ws: seq<UnbondWindow>) {
    && Increasing(ids)
    && forall k :: 0 <= k < |ids| ==> ids[k] < |ws|
  }

  lemma {:induction false} WaitingRest(ids: seq<nat>, ws: seq<UnbondWindow>, w: UnbondWindow)
    requires Waiting(ids, ws) && ids != []
    ensures Waiting(ids[1..], ws) && Waiting(ids[1..], ws[ids[0] := w])
    ensures forall k :: 0 <= k < |ids[1..]| ==> ids[1..][k] > ids[0]
  {
  }

  /** The first listed window matures, and the loop goes on from what that leaves. */
  lemma {:induction false} MatureFromTakes(ids: seq<nat>, ws: seq<UnbondWindow>, now: nat, balance: nat,
        spoken: nat, room: nat)
    requires ids != [] && room != 0 && ids[0] < |ws| && IsMature(ws[ids[0]], now)
    ensures var w := Mature(ws[ids[0]], SatSub(balance, spoken));
            var r := MatureFrom(ids[1..], ws[ids[0] := w], now, balance, spoken + w.Payable(), room - 1);
            MatureFrom(ids, ws, now, balance, spoken, room)
            == Maturing(r.windows, [ids[0]] + r.matured, w.scrtOwed + r.promised, w.Payable() + r.realised, w.validatorsUsed + r.release)
  {
  }

  lemma {:induction false} MatureFromSkips(ids: seq<nat>, ws: seq<UnbondWindow>, now: nat, balance: nat,
        spoken: nat, room: nat)
    requires ids != [] && room != 0 && !(ids[0] < |ws| && IsMature(ws[ids[0]], now))
    ensures MatureFrom(ids, ws, now, balance, spoken, room) == MatureFrom(ids[1..], ws, now, balance, spoken, room)
  {
  }

  lemma {:induction false} MatureFromStops(ids: seq<nat>, ws: seq<UnbondWindow>, now: nat, balance: nat,
        spoken: nat, room: nat)
    requires ids == [] || room == 0
    ensures MatureFrom(ids, ws, now, balance, spoken, room) == Maturing(ws, [], 0, 0, [])
  {
  }

  /** A window that may mature now, and what it does to the table. */
  lemma {:induction false} MatureIs(w: UnbondWindow, now: nat, available: nat)
    requires IsMature(w, now)
    ensures var v := Mature(w, available);
            && MaturedTo(w, v) && v.Payable() <= available && v.Payable() <= w.scrtOwed
            && UnbondingOwed(w) == w.scrtOwed && UnbondingOwed(v) == MaturedOutstanding(w) == 0
            && (w.scrtClaimed == 0 ==> MaturedOutstanding(v) == v.Payable())
  {
  }

  ghost predicate MaturedTable(ws: seq<UnbondWindow>, us: seq<UnbondWindow>, matured: seq<nat>, ids: seq<nat>,
        now: nat) {
    && |us| == |ws|
    && (forall id :: id in matured ==> id in ids && id < |ws| && IsMature(ws[id], now))
    && (forall i :: 0 <= i < |ws| ==> if i in matured then MaturedTo(ws[i], us[i]) else us[i] == ws[i])
  }

  lemma {:induction false} MaturedTableStep(ids: seq<nat>, ws: seq<UnbondWindow>, w: UnbondWindow,
        us: seq<UnbondWindow>, matured: seq<nat>, now: nat)
    requires Waiting(ids, ws) && ids != [] && IsMature(ws[ids[0]], now) && MaturedTo(ws[ids[0]], w)
    requires MaturedTable(ws[ids[0] := w], us, matured, ids[1..], now)
    ensures MaturedTable(ws, us, [ids[0]] + matured, ids, now)
  {
    WaitingRest(ids, ws, w);
    assert ids[0] !in matured;
    forall i | 0 <= i < |ws|
      ensures if i in [ids[0]] + matured then MaturedTo(ws[i], us[i]) else us[i] == ws[i]
    {
      assert ws[ids[0] := w][i] == if i == ids[0] then w else ws[i];
    }
  }

  lemma {:induction false} MaturedTableSkip(ids: seq<nat>, ws: seq<UnbondWindow>, us: seq<UnbondWindow>,
        matured: seq<nat>, now: nat)
    requires ids != [] && MaturedTable(ws, us, matured, ids[1..], now)
    ensures MaturedTable(ws, us, matured, ids, now)
  {
  }

  lemma {:induction false} MaturedTableSame(ws: seq<UnbondWindow>, ids: seq<nat>, now: nat)
    ensures MaturedTable(ws, ws, [], ids, now)
  {
  }

  /** The table after the loop: exactly the reported windows have matured. */
  lemma {:induction false} MatureFromWindows(ids: seq<nat>, ws: seq<UnbondWindow>, now: nat, balance: nat,
        spoken: nat, room: nat)
    requires Waiting(ids, ws)
    ensures var m := MatureFrom(ids, ws, now, balance, spoken, room); MaturedTable(ws, m.windows, m.matured, ids, now)
    decreases |ids|
  {
    hide MatureFrom, MaturedTable;
    if ids == [] || room == 0 {
      MatureFromStops(ids, ws, now, balance, spoken, room);
      MaturedTableSame(ws, ids, now);
    } else if IsMature(ws[ids[0]], now) {
      var w := Mature(ws[ids[0]], SatSub(balance, spoken));
      var r := MatureFrom(ids[1..], ws[ids[0] := w], now, balance, spoken + w.Payable(), room - 1);
      WaitingRest(ids, ws, w);
      MatureFromTakes(ids, ws, now, balance, spoken, room);
      MatureIs(ws[ids[0]], now, SatSub(balance, spoken));
      MatureFromWindows(ids[1..], ws[ids[0] := w], now, balance, spoken + w.Payable(), room - 1);
      MaturedTableStep(ids, ws, w, r.windows, r.matured, now);
    } else {
      var r := MatureFrom(ids[1..], ws, now, balance, spoken, room);
      WaitingRest(ids, ws, ws[ids[0]]);
      MatureFromSkips(ids, ws, now, balance, spoken, room);
      MatureFromWindows(ids[1..], ws, now, balance, spoken, room);
      MaturedTableSkip(ids, ws, r.windows, r.matured, now);
    }
  }

  /** Oldest first: no due window is passed over for a later one. */
  lemma {:induction false} MatureFromInTurn(ids: seq<nat>, ws: seq<UnbondWindow>, now: nat, balance: nat,
        spoken: nat, room: nat, i: nat, j: nat)
    requires Waiting(ids, ws) && i in ids && i < j && i < |ws| && IsMature(ws[i], now)
    requires j in MatureFrom(ids, ws, now, balance, spoken, room).matured
    ensures i in MatureFrom(ids, ws, now, balance, spoken, room).matured
    decreases |ids|
  {
    hide MatureFrom;
    if room == 0 {
      MatureFromStops(ids, ws, now, balance, spoken, room);
    } else {
      var id := ids[0];
      var at :| 0 <= at < |ids| && ids[at] == i;
      assert at > 0 ==> ids[1..][at - 1] == i;
      if IsMature(ws[id], now) {
        var w := Mature(ws[id], SatSub(balance, spoken));
        WaitingRest(ids, ws, w);
        MatureFromTakes(ids, ws, now, balance, spoken, room);
        if i != id {
          MatureFromInTurn(ids[1..], ws[id := w], now, balance, spoken + w.Payable(), room - 1, i, j);
        }
      } else {
        WaitingRest(ids, ws, ws[id]);
        MatureFromSkips(ids, ws, now, balance, spoken, room);
        MatureFromInTurn(ids[1..], ws, now, balance, spoken, room, i, j);
      }
    }
  }

  /** Promised leaves the unbonding bucket. */
  lemma {:induction false} MatureFromPromised(ids: seq<nat>, ws: seq<UnbondWindow>, now: nat, balance: nat,
        spoken: nat, room: nat)
    requires Waiting(ids, ws)
    ensures var m := MatureFrom(ids, ws, now, balance, spoken, room);
            SumSeq(m.windows, UnbondingOwed) + m.promised == SumSeq(ws, UnbondingOwed)
    ensures var m := MatureFrom(ids, ws, now, balance, spoken, room); m.realised <= m.promised
    decreases |ids|
  {
    hide MatureFrom;
    if ids == [] || room == 0 {
      MatureFromStops(ids, ws, now, balance, spoken, room);
    } else if IsMature(ws[ids[0]], now) {
      var w := Mature(ws[ids[0]], SatSub(balance, spoken));
      WaitingRest(ids, ws, w);
      MatureFromTakes(ids, ws, now, balance, spoken, room);
      MatureIs(ws[ids[0]], now, SatSub(balance, spoken));
      MatureFromPromised(ids[1..], ws[ids[0] := w], now, balance, spoken + w.Payable(), room - 1);
      SumUpdate(ws, ids[0], w, UnbondingOwed);
    } else {
      WaitingRest(ids, ws, ws[ids[0]]);
      MatureFromSkips(ids, ws, now, balance, spoken, room);
      MatureFromPromised(ids[1..], ws, now, balance, spoken, room);
    }
  }

  ghost predicate Unclaimed(ws: seq<UnbondWindow>) {
    forall i :: 0 <= i < |ws| && ws[i].state == Unbonding ==> ws[i].scrtClaimed == 0
  }

  /** Realised enters the matured bucket, never beyond the balance. */
  lemma {:induction false} MatureFromRealised(ids: seq<nat>, ws: seq<UnbondWindow>, now: nat, balance: nat,
        spoken: nat, room: nat)
    requires Waiting(ids, ws) && Unclaimed(ws)
    ensures var m := MatureFrom(ids, ws, now, balance, spoken, room);
            && SumSeq(m.windows, MaturedOutstanding) == SumSeq(ws, MaturedOutstanding) + m.realised
            && (spoken <= balance ==> spoken + m.realised <= balance)
    decreases |ids|
  {
    hide MatureFrom;
    if ids == [] || room == 0 {
      MatureFromStops(ids, ws, now, balance, spoken, room);
    } else if IsMature(ws[ids[0]], now) {
      var w := Mature(ws[ids[0]], SatSub(balance, spoken));
      WaitingRest(ids, ws, w);
      MatureFromTakes(ids, ws, now, balance, spoken, room);
      MatureIs(ws[ids[0]], now, SatSub(balance, spoken));
      SumUpdate(ws, ids[0], w, MaturedOutstanding);
      MatureFromRealised(ids[1..], ws[ids[0] := w], now, balance, spoken + w.Payable(), room - 1);
    } else {
      WaitingRest(ids, ws, ws[ids[0]]);
      MatureFromSkips(ids, ws, now, balance, spoken, room);
      MatureFromRealised(ids[1..], ws, now, balance, spoken, room);
    }
  }

  lemma {:induction false} CountDistinct(s: seq<Addr>, a: Addr)
    requires Distinct(s)
    ensures multiset(s)[a] == if a in s then 1 else 0
  {
    if s != [] {
      var last := |s| - 1;
      CountDistinct(s[..last], a);
      assert s == s[..last] + [s[last]];
    }
  }

  /** A maturing window hands back one slot per validator it used. */
  lemma {:induction false} SlotsHandedBack(ws: seq<UnbondWindow>, id: nat, w: UnbondWindow, release: seq<Addr>, a: Addr)
    requires id < |ws| && ws[id].state == Unbonding && w.state == Matured && w.validatorsUsed == ws[id].validatorsUsed
    requires Distinct(w.validatorsUsed)
    ensures SumSeq(ws[id := w], Uses(a)) + multiset(w.validatorsUsed + release)[a] == SumSeq(ws, Uses(a)) + multiset(release)[a]
  {
    SumUpdate(ws, id, w, Uses(a));
    CountDistinct(w.validatorsUsed, a);
  }

  ghost predicate UsedDistinct(ws: seq<UnbondWindow>) {
    forall i :: 0 <= i < |ws| ==> Distinct(ws[i].validatorsUsed)
  }

  /** The slots handed back are those the matured windows held. */
  lemma {:induction false} MatureFromSlots(ids: seq<nat>, ws: seq<UnbondWindow>, now: nat, balance: nat,
        spoken: nat, room: nat, a: Addr)
    requires Waiting(ids, ws) && UsedDistinct(ws)
    ensures var m := MatureFrom(ids, ws, now, balance, spoken, room);
            SumSeq(m.windows, Uses(a)) + multiset(m.release)[a] == SumSeq(ws, Uses(a))
    decreases |ids|
  {
    hide MatureFrom;
    if ids == [] || room == 0 {
      MatureFromStops(ids, ws, now, balance, spoken, room);
    } else if IsMature(ws[ids[0]], now) {
      var w := Mature(ws[ids[0]], SatSub(balance, spoken));
      var r := MatureFrom(ids[1..], ws[ids[0] := w], now, balance, spoken + w.Payable(), room - 1);
      WaitingRest(ids, ws, w);
      MatureFromTakes(ids, ws, now, balance, spoken, room);
      MatureFromSlots(ids[1..], ws[ids[0] := w], now, balance, spoken + w.Payable(), room - 1, a);
      SlotsHandedBack(ws, ids[0], w, r.release, a);
    } else {
      WaitingRest(ids, ws, ws[ids[0]]);
      MatureFromSkips(ids, ws, now, balance, spoken, room);
      MatureFromSlots(ids[1..], ws, now, balance, spoken, room, a);
    }
  }

  lemma {:induction false} ReleaseOneIs(vs: seq<ValidatorEntry>, a: Addr)
    requires Distinct(Addresses(vs))
    ensures var us := ReleaseOne(vs, a);
            && Addresses(us) == Addresses(vs)
            && (forall i :: 0 <= i < |vs| ==>
                  us[i] == vs[i].(activeUnbondEntries := SatSub(vs[i].activeUnbondEntries, if a == vs[i].address then 1 else 0)))
  {
    var us := ReleaseOne(vs, a);
    var at := Find(vs, a);
    assert Addresses(us) == Addresses(vs);
    forall i | 0 <= i < |vs|
      ensures us[i] == vs[i].(activeUnbondEntries := SatSub(vs[i].activeUnbondEntries, if a == vs[i].address then 1 else 0))
    {
      assert Addresses(vs)[i] == vs[i].address;
      if at < |vs| {
        assert Addresses(vs)[at] == a;
      }
    }
  }

  ghost predicate ReleasedBy(vs: seq<ValidatorEntry>, us: seq<ValidatorEntry>, names: seq<Addr>) {
    && |us| == |vs|
    && forall i :: 0 <= i < |vs| ==>
         us[i] == vs[i].(activeUnbondEntries := SatSub(vs[i].activeUnbondEntries, multiset(names)[vs[i].address]))
  }

  lemma {:induction false} ReleasedIs(vs: seq<ValidatorEntry>, names: seq<Addr>)
    requires Distinct(Addresses(vs))
    ensures ReleasedBy(vs, Released(vs, names), names)
    decreases |names|
  {
    if names != [] {
      var us := ReleaseOne(vs, names[0]);
      ReleaseOneIs(vs, names[0]);
      ReleasedIs(us, names[1..]);
      ReleasedStep(vs, us, Released(us, names[1..]), names);
    }
  }

  lemma {:induction false} ReleasedStep(vs: seq<ValidatorEntry>, us: seq<ValidatorEntry>, r: seq<ValidatorEntry>,
        names: seq<Addr>)
    requires names != [] && |us| == |vs| && ReleasedBy(us, r, names[1..])
    requires forall i :: 0 <= i < |vs| ==>
      us[i] == vs[i].(activeUnbondEntries := SatSub(vs[i].activeUnbondEntries, if names[0] == vs[i].address then 1 else 0))
    ensures ReleasedBy(vs, r, names)
  {
    assert names == [names[0]] + names[1..];
    forall i | 0 <= i < |vs|
      ensures r[i] == vs[i].(activeUnbondEntries := SatSub(vs[i].activeUnbondEntries, multiset(names)[vs[i].address]))
    {
      assert us[i].address == vs[i].address;
    }
  }

  // ---- what maturing keeps ----

  /** What a call of the maturing loop on the whole active list starts from. */
  ghost predicate Due(c: Core, balance: nat, m: Maturing, now: nat, limit: nat) {
    m == MatureFrom(c.active, c.windows, now, balance, SumSeq(c.active, SpokenAt(c.windows)), Max(limit, 1))
  }

  lemma {:induction false} ActiveWaits(c: Core)
    requires ActiveOk(c.active, c.windows)
    ensures Waiting(c.active, c.windows)
  {
    forall k | 0 <= k < |c.active| ensures c.active[k] < |c.windows| {
      assert c.active[k] in c.active;
    }
  }

  /** Closing times are spaced, so maturity times are strictly increasing. */
  lemma {:induction false} MaturityOrder(ws: seq<UnbondWindow>, openId: nat, p: nat, u: nat, i: nat, j: nat)
    requires WindowsOk(ws, openId, p, u) && i < j < |ws|
    ensures ws[i].openedAt + (j - i) * p <= ws[j].openedAt
    decreases j - i
  {
    assert WindowOk(ws, i, p, u);
    if i + 1 < j {
      MaturityOrder(ws, openId, p, u, i + 1, j);
      assert (j - i) * p == (j - (i + 1)) * p + p;
    }
  }

  lemma {:induction false} DueKeepsWindows(c: Core, balance: nat, m: Maturing, now: nat, limit: nat, p: nat, u: nat)
    requires WindowsOk(c.windows, c.openId, p, u) && ActiveOk(c.active, c.windows) && Due(c, balance, m, now, limit)
    ensures WindowsOk(m.windows, c.openId, p, u)
  {
    var ws, spoken := c.windows, SumSeq(c.active, SpokenAt(c.windows));
    ActiveWaits(c);
    MatureFromWindows(c.active, ws, now, balance, spoken, Max(limit, 1));
    forall i | 0 <= i < |m.windows| ensures WindowOk(m.windows, i, p, u) {
      assert WindowOk(ws, i, p, u);
      assert i + 1 < |ws| ==> m.windows[i + 1].openedAt == ws[i + 1].openedAt;
    }
    forall i, j | 0 <= i < |m.windows| && 0 <= j < |m.windows| ensures InTurn(m.windows, i, j) {
      DueInTurn(c, balance, m, now, limit, p, u, i, j);
    }
  }

  lemma {:induction false} DueInTurn(c: Core, balance: nat, m: Maturing, now: nat, limit: nat, p: nat, u: nat,
        i: nat, j: nat)
    requires WindowsOk(c.windows, c.openId, p, u) && ActiveOk(c.active, c.windows) && Due(c, balance, m, now, limit)
    requires |m.windows| == |c.windows| && i < |m.windows| && j < |m.windows|
    ensures InTurn(m.windows, i, j)
  {
    var ws, spoken := c.windows, SumSeq(c.active, SpokenAt(c.windows));
    ActiveWaits(c);
    MatureFromWindows(c.active, ws, now, balance, spoken, Max(limit, 1));
    assert InTurn(ws, i, j) && WindowOk(ws, i, p, u) && WindowOk(ws, j, p, u);
    if i < j && m.windows[i].state == Unbonding && j in m.matured {
      assert i !in m.matured && i in c.active;
      EarlierIsDue(ws, c.openId, p, u, i, j, now);
      MatureFromInTurn(c.active, ws, now, balance, spoken, Max(limit, 1), i, j);
    }
  }

  /** A window closed before a due one is due as well. */
  lemma {:induction false} EarlierIsDue(ws: seq<UnbondWindow>, openId: nat, p: nat, u: nat, i: nat, j: nat, now: nat)
    requires WindowsOk(ws, openId, p, u) && i < j < |ws| && ws[i].state == Unbonding && IsMature(ws[j], now)
    ensures IsMature(ws[i], now)
  {
    assert WindowOk(ws, i, p, u) && WindowOk(ws, j, p, u);
    MaturityOrder(ws, openId, p, u, i + 1, j + 1);
    assert (j + 1 - (i + 1)) * p >= 0;
  }

  lemma {:induction false} DueKeepsActive(c: Core, balance: nat, m: Maturing, now: nat, limit: nat)
    requires ActiveOk(c.active, c.windows) && Due(c, balance, m, now, limit)
    ensures ActiveOk(c.active, m.windows)
  {
    ActiveWaits(c);
    MatureFromWindows(c.active, c.windows, now, balance, SumSeq(c.active, SpokenAt(c.windows)), Max(limit, 1));
    forall id: nat ensures id in c.active <==> id < |m.windows| && InFlight(m.windows[id].state) {
      assert id in c.active <==> id < |c.windows| && InFlight(c.windows[id].state);
    }
  }

  lemma {:induction false} DueKeepsLedger(c: Core, balance: nat, m: Maturing, now: nat, limit: nat, p: nat, u: nat)
    requires WindowsOk(c.windows, c.openId, p, u) && LedgerOk(c.claims, c.windows)
    requires ActiveOk(c.active, c.windows) && Due(c, balance, m, now, limit)
    ensures LedgerOk(c.claims, m.windows)
  {
    var ws := c.windows;
    ActiveWaits(c);
    MatureFromWindows(c.active, ws, now, balance, SumSeq(c.active, SpokenAt(ws)), Max(limit, 1));
    forall k | k in c.claims ensures ClaimOk(k, c.claims[k], m.windows) {
      assert ClaimOk(k, c.claims[k], ws);
    }
    forall id | 0 <= id < |m.windows| ensures LedgerAt(c.claims, m.windows[id], id) {
      assert LedgerAt(c.claims, ws[id], id);
      if id in m.matured {
        assert WindowOk(ws, id, p, u);
        NothingPaidYet(c.claims, ws, id, m.windows[id].Payable(), m.windows[id].scrtOwed);
      }
    }
  }

  lemma {:induction false} NothingPaidYet(claims: map<ClaimKey, ClaimRecord>, ws: seq<UnbondWindow>, id: nat,
        realised: nat, promised: nat)
    requires id < |ws| && (ws[id].state == Unbonding || ws[id].state == Open)
    requires forall k :: k in claims ==> ClaimOk(k, claims[k], ws)
    ensures SumMap(claims, PaidIn(id, realised, promised)) == 0
  {
    forall k | k in claims ensures PaidIn(id, realised, promised)((k, claims[k])) == 0 {
      assert ClaimOk(k, claims[k], ws);
    }
    SumMapZero(claims, PaidIn(id, realised, promised));
  }

  lemma {:induction false} DueKeepsBuckets(c: Core, balance: nat, m: Maturing, now: nat, limit: nat, p: nat, u: nat)
    requires WindowsOk(c.windows, c.openId, p, u) && BucketsOk(c.totals, c.windows, c.openId)
    requires ActiveOk(c.active, c.windows) && Due(c, balance, m, now, limit)
    ensures m.promised <= c.totals.scrtOwedUnbonding && m.realised <= m.promised
    ensures BucketsOk(c.totals.(scrtOwedUnbonding := c.totals.scrtOwedUnbonding - m.promised,
                                scrtOwedMatured := c.totals.scrtOwedMatured + m.realised), m.windows, c.openId)
    ensures Solvent(c.windows, balance) ==> Solvent(m.windows, balance)
  {
    var ws, spoken := c.windows, SumSeq(c.active, SpokenAt(c.windows));
    ActiveWaits(c);
    SpokenForIs(c.active, ws);
    forall i | 0 <= i < |ws| && ws[i].state == Unbonding ensures ws[i].scrtClaimed == 0 {
      assert WindowOk(ws, i, p, u);
    }
    MatureFromPromised(c.active, ws, now, balance, spoken, Max(limit, 1));
    MatureFromRealised(c.active, ws, now, balance, spoken, Max(limit, 1));
    MatureFromWindows(c.active, ws, now, balance, spoken, Max(limit, 1));
    assert WindowOk(ws, c.openId, p, u);
  }

  lemma {:induction false} DueKeepsSlots(c: Core, balance: nat, m: Maturing, now: nat, limit: nat, ceiling: nat)
    requires SlotsOk(c.vals, c.windows, ceiling) && Distinct(Addresses(c.vals))
    requires ActiveOk(c.active, c.windows) && Due(c, balance, m, now, limit)
    ensures SlotsOk(Released(c.vals, m.release), m.windows, ceiling)
    ensures ReleasedBy(c.vals, Released(c.vals, m.release), m.release)
  {
    var ws, vs, spoken := c.windows, c.vals, SumSeq(c.active, SpokenAt(c.windows));
    var us := Released(vs, m.release);
    ActiveWaits(c);
    MatureFromWindows(c.active, ws, now, balance, spoken, Max(limit, 1));
    ReleasedIs(vs, m.release);
    assert Addresses(us) == Addresses(vs);
    forall i | 0 <= i < |ws| ensures Distinct(ws[i].validatorsUsed) && UsedOk(m.windows[i], us) {
      assert UsedOk(ws[i], vs);
    }
    forall i | 0 <= i < |us| ensures SlotOk(us[i], m.windows, ceiling) {
      assert SlotOk(vs[i], ws, ceiling);
      MatureFromSlots(c.active, ws, now, balance, spoken, Max(limit, 1), vs[i].address);
    }
  }

  /** Same validators, same stake: only the counters may differ. */
  lemma {:induction false} CountersOnly(vs: seq<ValidatorEntry>, us: seq<ValidatorEntry>, t: TotalsCache,
        allowlist: seq<Addr>, maxBps: nat)
    requires |vs| == |us|
    requires forall i :: 0 <= i < |vs| ==> us[i] == vs[i].(activeUnbondEntries := us[i].activeUnbondEntries)
    requires SetOk(vs, allowlist, maxBps) && StakeOk(t, vs)
    ensures SetOk(us, allowlist, maxBps) && StakeOk(t, us) && Addresses(us) == Addresses(vs)
  {
    assert Addresses(us) == Addresses(vs);
    SumSame(vs, ActiveWeight, us, ActiveWeight);
    SumSame(vs, Bonded, us, Bonded);
    SumSame(vs, Rewards, us, Rewards);
    forall i | 0 <= i < |us| ensures EntryOk(us[i], allowlist, maxBps) {
      assert EntryOk(vs[i], allowlist, maxBps);
    }
  }

  lemma {:induction false} OpenStays(c: Core, balance: nat, m: Engine.Maturing, now: nat, limit: nat)
    requires CoreOk(c) && Due(c, balance, m, now, limit)
    ensures |m.windows| == |c.windows| && m.windows[c.openId] == c.windows[c.openId]
  {
    hide MatureFrom, SetOk, StakeOk, SlotsOk, IndexOk, LedgerOk, BucketsOk;
    ActiveWaits(c);
    MatureFromWindows(c.active, c.windows, now, balance, SumSeq(c.active, SpokenAt(c.windows)), Max(limit, 1));
    assert WindowOk(c.windows, c.openId, c.config.params.unbondWindowSecs, c.config.params.unbondingPeriodSecs);
  }

  lemma {:induction false} MatureKeepsWindows(c: Core, now: nat, balance: nat, limit: nat)
    requires CoreOk(c)
    ensures var d := MatureDue(c, now, balance, limit).core;
            && WindowsOk(d.windows, d.openId, c.config.params.unbondWindowSecs, c.config.params.unbondingPeriodSecs)
            && ActiveOk(d.active, d.windows)
            && BucketsOk(d.totals, d.windows, d.openId)
            && LedgerOk(d.claims, d.windows)
            && |d.windows| == |c.windows| && d.windows[c.openId] == c.windows[c.openId]
            && (Solvent(c.windows, balance) ==> Solvent(d.windows, balance))
  {
    var p, u := c.config.params.unbondWindowSecs, c.config.params.unbondingPeriodSecs;
    var spoken := SumSeq(c.active, SpokenAt(c.windows));
    var m := MatureFrom(c.active, c.windows, now, balance, spoken, Max(limit, 1));
    hide MatureFrom, SetOk, StakeOk, SlotsOk, IndexOk;
    if m.matured != [] {
      OpenStays(c, balance, m, now, limit);
      hide WindowsOk, ActiveOk, BucketsOk, LedgerOk;
      DueKeepsWindows(c, balance, m, now, limit, p, u);
      DueKeepsActive(c, balance, m, now, limit);
      DueKeepsLedger(c, balance, m, now, limit, p, u);
      DueKeepsBuckets(c, balance, m, now, limit, p, u);
    }
  }

  lemma {:induction false} MatureKeepsValidators(c: Core, now: nat, balance: nat, limit: nat)
    requires CoreOk(c)
    ensures var d := MatureDue(c, now, balance, limit).core;
            && SetOk(d.vals, c.allowlist, c.config.limits.maxValidatorWeightBps)
            && StakeOk(d.totals, d.vals)
            && SlotsOk(d.vals, d.windows, c.config.params.maxUnbondEntries)
            && Addresses(d.vals) == Addresses(c.vals)
  {
    var spoken := SumSeq(c.active, SpokenAt(c.windows));
    var m := MatureFrom(c.active, c.windows, now, balance, spoken, Max(limit, 1));
    if m.matured != [] {
      DueKeepsSlots(c, balance, m, now, limit, c.config.params.maxUnbondEntries);
      CountersOnly(c.vals, Released(c.vals, m.release), c.totals, c.allowlist, c.config.limits.maxValidatorWeightBps);
    }
  }

  lemma {:induction false} MatureFrame(c: Core, now: nat, balance: nat, limit: nat)
    ensures var d := MatureDue(c, now, balance, limit).core;
            && d.config == c.config && d.allowlist == c.allowlist && d.openId == c.openId && d.active == c.active
            && d.cursor == c.cursor && d.claims == c.claims && d.index == c.index && |d.vals| == |c.vals|
            && d.totals == c.totals.(scrtOwedUnbonding := d.totals.scrtOwedUnbonding, scrtOwedMatured := d.totals.scrtOwedMatured)
  {
  }

  /** Collecting keeps every storage invariant and the balance's cover, whatever came back. */
  lemma {:induction false} MatureKeepsCore(c: Core, now: nat, balance: nat, limit: nat)
    requires CoreOk(c)
    ensures var d := MatureDue(c, now, balance, limit).core;
            && CoreOk(d)
            && d.config == c.config && d.openId == c.openId && d.claims == c.claims && d.index == c.index
            && |d.windows| == |c.windows| && d.windows[d.openId] == c.windows[c.openId]
            && Addresses(d.vals) == Addresses(c.vals)
            && (Solvent(c.windows, balance) ==> Solvent(d.windows, balance))
  {
    hide MatureDue, SetOk, StakeOk, SlotsOk, WindowsOk, ActiveOk, BucketsOk, LedgerOk, IndexOk;
    MatureFrame(c, now, balance, limit);
    MatureKeepsWindows(c, now, balance, limit);
    MatureKeepsValidators(c, now, balance, limit);
  }
}
