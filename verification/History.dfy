/** What a run can never take back: windows only move forward, what a closed window owes is frozen,
    and a claim, once made, stays and is paid at most once. */
module History {
  import opened Prelude
  import opened Sums
  import opened Types
  import opened Math
  import opened Windows
  import opened Validators
  import opened Plans
  import opened Chain
  import opened Engine
  import opened Invariants
  import opened Closing
  import opened Maturing
  import opened Claims
  import opened Keeping
  import opened System
  import opened Reach

  function Rank(s: WindowState): nat {
    match s case Open => 0 case Unbonding => 1 case Matured => 2 case Settled => 3
  }

  /** `v` is window `w` at some later time. */
  ghost predicate Later(w: UnbondWindow, v: UnbondWindow) {
    && v.id == w.id && v.openedAt == w.openedAt && v.closesAt == w.closesAt
    && Rank(w.state) <= Rank(v.state)
    && w.scrtOwed <= v.scrtOwed && w.sharesBurned <= v.sharesBurned && w.scrtClaimed <= v.scrtClaimed
    && (w.state != Open ==>
          && v.scrtOwed == w.scrtOwed && v.sharesBurned == w.sharesBurned
          && v.validatorsUsed == w.validatorsUsed && v.maturesAt == w.maturesAt)
    && (w.scrtRealised.Some? ==> v.scrtRealised == w.scrtRealised)
  }

  /** `n` is claim `m` at some later time; `closed` says its window takes no more requests. */
  ghost predicate ClaimLater(m: ClaimRecord, n: ClaimRecord, closed: bool) {
    && m.scrtOwed <= n.scrtOwed && m.sharesBurned <= n.sharesBurned
    && (closed ==> n.scrtOwed == m.scrtOwed && n.sharesBurned == m.sharesBurned)
    && (m.claimed ==> n.claimed)
  }

  predicate ClosedAt(ws: seq<UnbondWindow>, id: nat) {
    id < |ws| && ws[id].state != Open
  }

  ghost predicate WindowsLater(ws: seq<UnbondWindow>, us: seq<UnbondWindow>) {
    |ws| <= |us| && forall i :: 0 <= i < |ws| ==> Later(ws[i], us[i])
  }

  ghost predicate ClaimsLater(m: Ledger, n: Ledger, ws: seq<UnbondWindow>) {
    forall k :: k in m ==> k in n && ClaimLater(m[k], n[k], ClosedAt(ws, k.window))
  }

  ghost predicate Evolves(c: Core, d: Core) {
    WindowsLater(c.windows, d.windows) && ClaimsLater(c.claims, d.claims, c.windows)
  }

  lemma {:induction false} EvolvesTransitive(c: Core, d: Core, e: Core)
    requires Evolves(c, d) && Evolves(d, e)
    ensures Evolves(c, e)
  {
    forall i | 0 <= i < |c.windows| ensures Later(c.windows[i], e.windows[i]) {
      assert Later(c.windows[i], d.windows[i]) && Later(d.windows[i], e.windows[i]);
    }
    forall k | k in c.claims ensures k in e.claims && ClaimLater(c.claims[k], e.claims[k], ClosedAt(c.windows, k.window)) {
      assert ClaimLater(c.claims[k], d.claims[k], ClosedAt(c.windows, k.window));
      assert ClaimLater(d.claims[k], e.claims[k], ClosedAt(d.windows, k.window));
      assert ClosedAt(c.windows, k.window) ==> Later(c.windows[k.window], d.windows[k.window]);
    }
  }

  lemma {:induction false} EvolvesSame(c: Core, d: Core)
    requires d.windows == c.windows && d.claims == c.claims
    ensures Evolves(c, d)
  {
  }

  // ---- each kind of change ----

  lemma {:induction false} ClosedEvolves(c: Core, now: nat)
    requires CoreOk(c) && ClosedOpen(c, now).Ok?
    ensures Evolves(c, ClosedOpen(c, now).value.core)
  {
    hide ClosedOpen, SetOk, StakeOk, SlotsOk, ActiveOk, BucketsOk, LedgerOk, IndexOk, IsPlan, LegAddresses, LegMsgs,
          Drawn;
    var legs, closed := ClosedForm(c, now);
    ClosedOpenClaims(c, now);
    assert WindowOk(c.windows, c.openId, c.config.params.unbondWindowSecs, c.config.params.unbondingPeriodSecs);
    assert Later(c.windows[c.openId], closed);
  }

  lemma {:induction false} ClosedOpenClaims(c: Core, now: nat)
    requires ClosedOpen(c, now).Ok?
    ensures ClosedOpen(c, now).value.core.claims == c.claims
  {
  }

  lemma {:induction false} OverdueEvolves(c: Core, now: nat)
    requires CoreOk(c) && ClosedIfOverdue(c, now).Ok?
    ensures Evolves(c, ClosedIfOverdue(c, now).value.core)
  {
    hide ClosedOpen, Evolves, ClosedIfOverdue, SetOk, StakeOk, SlotsOk, ActiveOk, BucketsOk, LedgerOk, IndexOk;
    OverdueCases(c, now);
    if ClosedIfOverdue(c, now) == Ok(Done(c, [])) {
      EvolvesSame(c, c);
    } else {
      ClosedEvolves(c, now);
    }
  }

  lemma {:induction false} PromisedEvolves(c: Core, who: Addr, shares: nat, owed: nat)
    requires CoreOk(c)
    ensures Evolves(c, Promised(c, who, shares, owed))
  {
    hide SetOk, StakeOk, SlotsOk, ActiveOk, BucketsOk, LedgerOk, IndexOk;
    assert WindowOk(c.windows, c.openId, c.config.params.unbondWindowSecs, c.config.params.unbondingPeriodSecs);
    var d := Promised(c, who, shares, owed);
    forall k | k in c.claims ensures k in d.claims && ClaimLater(c.claims[k], d.claims[k], ClosedAt(c.windows, k.window)) {
      assert d.claims[k] == c.claims[k] || k == ClaimKey(who, c.openId);
    }
  }

  lemma {:induction false} MatureEvolves(c: Core, now: nat, balance: nat, limit: nat)
    requires CoreOk(c)
    ensures Evolves(c, MatureDue(c, now, balance, limit).core)
  {
    hide SetOk, StakeOk, SlotsOk, BucketsOk, LedgerOk, IndexOk, MatureFrom;
    ActiveWaits(c);
    MatureFromWindows(c.active, c.windows, now, balance, SumSeq(c.active, SpokenAt(c.windows)), Max(limit, 1));
    var us := MatureDue(c, now, balance, limit).core.windows;
    forall i | 0 <= i < |c.windows| ensures Later(c.windows[i], us[i]) {
      assert WindowOk(c.windows, i, c.config.params.unbondWindowSecs, c.config.params.unbondingPeriodSecs);
    }
  }

  /** The claim loop only ever marks the caller's own claims and raises what windows have paid. */
  lemma {:induction false} ClaimFromMarks(who: Addr, ids: seq<nat>, m: Ledger, ws: seq<UnbondWindow>)
    requires ClaimFrom(who, ids, m, ws).Ok?
    ensures var r := ClaimFrom(who, ids, m, ws).value;
            && r.claims.Keys == m.Keys
            && (forall k :: k in m ==> r.claims[k] == m[k].(claimed := r.claims[k].claimed) && (m[k].claimed ==> r.claims[k].claimed))
            && (forall k :: k in m && k.account != who ==> r.claims[k] == m[k])
            && |r.windows| == |ws|
            && (forall i :: 0 <= i < |ws| ==> ws[i].scrtClaimed <= r.windows[i].scrtClaimed)
    decreases |ids|
  {
    if ids != [] {
      var id, k := ids[0], ClaimKey(who, ids[0]);
      if Payable(m, ws, k) {
        var us := ws[id := PaidOut(ws[id], PayOf(m, ws, k))];
        ClaimFromMarks(who, ids[1..], Marked(m, k), us);
        assert Marked(m, k).Keys == m.Keys;
      } else {
        ClaimFromMarks(who, ids[1..], m, ws);
      }
    }
  }

  lemma {:induction false} ClaimEvolves(c: Core, q: Chain, who: Addr, ids: Option<seq<nat>>)
    requires CoreOk(c) && ClaimMatured(c, q, who, ids).Ok?
    ensures Evolves(c, ClaimMatured(c, q, who, ids).value.core)
  {
    hide CoreOk, MatureDue, ClaimFrom, ClaimMatured, Evolves;
    var d := ClaimMatured(c, q, who, ids).value.core;
    var m, wanted, r := ClaimForm(c, q, who, ids);
    MatureEvolves(c, q.now, q.balance, U32_MAX);
    MatureKeepsCore(c, q.now, q.balance, U32_MAX);
    ClaimWindows(m, who, wanted, r);
    ClaimFromMarks(who, wanted, m.claims, m.windows);
    PaidEvolves(m, d, r);
    EvolvesTransitive(c, m, d);
  }

  lemma {:induction false} PaidEvolves(m: Core, d: Core, r: Claiming)
    requires d.windows == r.windows && d.claims == r.claims
    requires |r.windows| == |m.windows| && r.claims.Keys == m.claims.Keys
    requires forall i :: 0 <= i < |m.windows| ==> PaidFurther(m.windows[i], r.windows[i]) && m.windows[i].scrtClaimed <= r.windows[i].scrtClaimed
    requires forall k :: k in m.claims ==>
               && r.claims[k] == m.claims[k].(claimed := r.claims[k].claimed)
               && (m.claims[k].claimed ==> r.claims[k].claimed)
    ensures Evolves(m, d)
  {
    forall i | 0 <= i < |m.windows| ensures Later(m.windows[i], r.windows[i]) {
      assert PaidFurther(m.windows[i], r.windows[i]);
    }
    forall k | k in m.claims ensures k in d.claims && ClaimLater(m.claims[k], d.claims[k], ClosedAt(m.windows, k.window)) {
      assert k in r.claims.Keys;
    }
  }

  lemma {:induction false} DepositEvolves(c: Core, b: Chain, sender: Addr, funds: seq<Coin>)
    requires CoreOk(c) && Deposit(c, b, sender, funds).Ok?
    ensures Evolves(c, Deposit(c, b, sender, funds).value.core)
  {
    hide SharesForDeposit, ClosedIfOverdue, CoreOk, Deposit, Evolves;
    var deposit, r, shares, i, d := DepositForm(c, b, sender, funds);
    RefreshKeepsCore(c, b);
    PlacedKeepsCore(r, i, deposit, shares);
    OverdueEvolves(Placed(r, i, deposit, shares), b.now);
    EvolvesSame(c, Placed(r, i, deposit, shares));
    EvolvesTransitive(c, Placed(r, i, deposit, shares), d.core);
  }

  lemma {:induction false} UnbondEvolves(c: Core, b: Chain, sender: Addr, from: Addr, amount: nat)
    requires CoreOk(c) && Unbond(c, b, sender, from, amount).Ok?
    ensures Evolves(c, Unbond(c, b, sender, from, amount).value.core)
  {
    hide AssetsForShares, ClosedIfOverdue, CoreOk, Unbond, Evolves, Promised;
    var r, owed, d := UnbondForm(c, b, sender, from, amount);
    RefreshKeepsCore(c, b);
    PromisedKeepsCore(r, from, amount, owed);
    EvolvesSame(c, r);
    PromisedEvolves(r, from, amount, owed);
    EvolvesTransitive(c, r, Promised(r, from, amount, owed));
    OverdueEvolves(Promised(r, from, amount, owed), b.now);
    EvolvesTransitive(c, Promised(r, from, amount, owed), d.core);
  }

  // ---- whole runs ----

  lemma {:induction false} HandledEvolves(s: Sys, tx: Tx)
    requires SysOk(s) && Commits(s, tx)
    ensures Evolves(s.core, Handled(s, tx).core)
  {
    hide CoreOk, ChainOk, SweptOk, Evolves, Deposit, Unbond, ClaimMatured, MatureDue, ClosedOpen;
    var c, b := s.core, Attached(s, tx);
    match tx {
      case DoDeposit(sender, funds) => DepositEvolves(c, b, sender, funds);
      case DoUnbond(from, n) => UnbondEvolves(c, b, if c.config.token.Some? then c.config.token.value else from, from, n);
      case DoClaim(who, ids) => ClaimEvolves(c, b, who, ids);
      case DoAdvance => ClosedEvolves(c, b.now);
      case DoCollect(limit) => MatureEvolves(c, b.now, b.balance, if limit.Some? then limit.value else DEFAULT_SYNC_LIMIT);
      case _ => EvolvesSame(c, Handled(s, tx).core);
    }
  }

  lemma {:induction false} AfterConcat(s: Sys, pre: seq<Step>, step: Step)
    ensures After(s, pre + [step]) == Next(After(s, pre), step)
  {
    assert (pre + [step])[..|pre|] == pre;
  }

  /** From any reachable state on, windows move forward only, closed windows owe what they owed, a
      realised amount is final, and no claim is lost, shrunk or un-collected. */
  lemma {:induction false} RunOnlyAdvances(s: Sys, pre: seq<Step>, post: seq<Step>)
    requires Fresh(s)
    ensures Evolves(After(s, pre).core, After(s, pre + post).core)
    decreases |post|
  {
    hide Fresh, SysOk, Evolves, Commits, Handled;
    if post == [] {
      assert pre + post == pre;
      EvolvesSame(After(s, pre).core, After(s, pre).core);
    } else {
      var init, last := post[..|post| - 1], post[|post| - 1];
      var m, n := After(s, pre + init), After(s, pre + post);
      RunOnlyAdvances(s, pre, init);
      ReachableOk(s, pre + init);
      assert pre + post == (pre + init) + [last];
      AfterConcat(s, pre + init, last);
      if last.Do? && Commits(m, last.tx) {
        HandledEvolves(m, last.tx);
      } else {
        EvolvesSame(m.core, n.core);
      }
      EvolvesTransitive(After(s, pre).core, m.core, n.core);
    }
  }
}
