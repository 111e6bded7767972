/** The cached stake against the chain's: whatever a call does to one with its messages, it does to the
    other in storage, validator by validator. */
module Mirror {
  import opened Prelude
  import opened Sums
  import opened Types
  import opened Validators
  import opened Plans
  import opened Chain
  import opened Engine
  import opened Invariants
  import opened Roster
  import opened Closing
  import opened Maturing
  import opened Keeping
  import opened System
  import opened Reach
  import opened Limits
  import opened Commitments
  import opened Worth
  import opened Sharing
  import opened Whole
  import opened Custody

  // ---- what messages do to one delegation ----

  function InTo(a: Addr): Msg -> nat {
    (m: Msg) =>
      if m.Delegate? && m.validator == a then m.amount
      else if m.Redelegate? && m.dst == a then m.amount else 0
  }

  function OutOf(a: Addr): Msg -> nat {
    (m: Msg) =>
      if m.Undelegate? && m.validator == a then m.amount
      else if m.Redelegate? && m.src == a then m.amount else 0
  }

  lemma {:induction false} ExecBonds(q: Chain, m: Msg, a: Addr)
    requires Exec(q, m).Some?
    ensures Exec(q, m).value.BondedAt(a) + OutOf(a)(m) == q.BondedAt(a) + InTo(a)(m)
  {
  }

  /** Over a message list a delegation grows by what is delegated or redelegated to it, and shrinks by
      what is undelegated or redelegated from it. */
  lemma {:induction false} RunBonds(q: Chain, ms: seq<Msg>, a: Addr)
    requires Run(q, ms).Some?
    ensures Run(q, ms).value.BondedAt(a) + SumSeq(ms, OutOf(a)) == q.BondedAt(a) + SumSeq(ms, InTo(a))
    decreases |ms|
  {
    if ms != [] {
      hide Exec;
      ExecBonds(q, ms[0], a);
      RunBonds(Exec(q, ms[0]).value, ms[1..], a);
      SumCons(ms, InTo(a));
      SumCons(ms, OutOf(a));
    }
  }

  // ---- storage that moves with the messages ----

  ghost predicate MovesAt(vs: seq<ValidatorEntry>, us: seq<ValidatorEntry>, ms: seq<Msg>, i: nat)
    requires i < |vs| && i < |us|
  {
    && us[i].address == vs[i].address
    && us[i].bonded + SumSeq(ms, OutOf(vs[i].address)) == vs[i].bonded + SumSeq(ms, InTo(vs[i].address))
  }

  ghost predicate MovesAlike(vs: seq<ValidatorEntry>, us: seq<ValidatorEntry>, ms: seq<Msg>) {
    |us| == |vs| && forall i :: 0 <= i < |vs| ==> MovesAt(vs, us, ms, i)
  }

  lemma {:induction false} MovesThen(vs: seq<ValidatorEntry>, us: seq<ValidatorEntry>, ws: seq<ValidatorEntry>,
        hs: seq<Msg>, ms: seq<Msg>)
    requires MovesAlike(vs, us, hs) && MovesAlike(us, ws, ms)
    ensures MovesAlike(vs, ws, hs + ms)
  {
    forall i | 0 <= i < |vs| ensures MovesAt(vs, ws, hs + ms, i) {
      assert MovesAt(vs, us, hs, i) && MovesAt(us, ws, ms, i);
      SumConcat(hs, ms, InTo(vs[i].address));
      SumConcat(hs, ms, OutOf(vs[i].address));
    }
  }

  ghost predicate NoMoves(ms: seq<Msg>) {
    forall i :: 0 <= i < |ms| ==> !ms[i].Delegate? && !ms[i].Undelegate? && !ms[i].Redelegate?
  }

  lemma {:induction false} StandsStill(vs: seq<ValidatorEntry>, us: seq<ValidatorEntry>, ms: seq<Msg>)
    requires NoMoves(ms) && |us| == |vs|
    requires forall i :: 0 <= i < |vs| ==> us[i].address == vs[i].address && us[i].bonded == vs[i].bonded
    ensures MovesAlike(vs, us, ms)
  {
    forall i | 0 <= i < |vs| ensures MovesAt(vs, us, ms, i) {
      SumZero(ms, InTo(vs[i].address));
      SumZero(ms, OutOf(vs[i].address));
    }
  }

  lemma {:induction false} OneMsg(m: Msg, f: Msg -> nat)
    ensures SumSeq([m], f) == f(m)
  {
    assert [m] == [] + [m];
    SumSnoc([], m, f);
  }

  lemma {:induction false} OneMove(vs: seq<ValidatorEntry>, us: seq<ValidatorEntry>, m: Msg)
    requires |us| == |vs|
    requires forall i :: 0 <= i < |vs| ==>
               && us[i].address == vs[i].address
               && us[i].bonded + OutOf(vs[i].address)(m) == vs[i].bonded + InTo(vs[i].address)(m)
    ensures MovesAlike(vs, us, [m])
  {
    forall i | 0 <= i < |vs| ensures MovesAt(vs, us, [m], i) {
      OneMsg(m, InTo(vs[i].address));
      OneMsg(m, OutOf(vs[i].address));
    }
  }

  // ---- each kind of change ----

  lemma {:induction false} OnlyOneAt(vs: seq<ValidatorEntry>, i: nat, j: nat)
    requires Distinct(Addresses(vs)) && i < |vs| && j < |vs|
    ensures vs[i].address == vs[j].address <==> i == j
  {
    assert Addresses(vs)[i] == vs[i].address && Addresses(vs)[j] == vs[j].address;
  }

  lemma {:induction false} DelegateMoves(vs: seq<ValidatorEntry>, i: nat, n: nat)
    requires Distinct(Addresses(vs)) && i < |vs|
    ensures MovesAlike(vs, vs[i := vs[i].(bonded := vs[i].bonded + n)], [Delegate(vs[i].address, n)])
  {
    forall j | 0 <= j < |vs| ensures vs[i].address == vs[j].address <==> i == j {
      OnlyOneAt(vs, i, j);
    }
    OneMove(vs, vs[i := vs[i].(bonded := vs[i].bonded + n)], Delegate(vs[i].address, n));
  }

  lemma {:induction false} RedelegateMoves(vs: seq<ValidatorEntry>, i: nat, j: nat, n: nat)
    requires Distinct(Addresses(vs)) && i < |vs| && j < |vs| && n <= vs[i].bonded
    ensures MovesAlike(vs, Moved(vs, i, j, n), [Redelegate(vs[i].address, vs[j].address, n)])
  {
    forall k | 0 <= k < |vs|
      ensures (vs[i].address == vs[k].address <==> i == k) && (vs[j].address == vs[k].address <==> j == k)
    {
      OnlyOneAt(vs, i, k);
      OnlyOneAt(vs, j, k);
    }
    OneMove(vs, Moved(vs, i, j, n), Redelegate(vs[i].address, vs[j].address, n));
  }

  lemma {:induction false} RebalanceMoves(vs: seq<ValidatorEntry>, plan: seq<RedelegateStep>, allowlist: seq<Addr>)
    requires Distinct(Addresses(vs)) && RebalanceFrom(vs, plan, allowlist).Ok?
    ensures var r := RebalanceFrom(vs, plan, allowlist).value; MovesAlike(vs, r.0, r.1)
    decreases |plan|
  {
    hide MovesAlike;
    if plan == [] {
      StandsStill(vs, vs, []);
    } else {
      var s := plan[0];
      var i, j := Find(vs, s.src), Find(vs, s.dst);
      var us := Moved(vs, i, j, s.amount);
      assert Addresses(us) == Addresses(vs);
      RedelegateMoves(vs, i, j, s.amount);
      RebalanceMoves(us, plan[1..], allowlist);
      var r := RebalanceFrom(us, plan[1..], allowlist).value;
      MovesThen(vs, us, r.0, [Redelegate(s.src, s.dst, s.amount)], r.1);
    }
  }

  lemma {:induction false} LegMoves(vs: seq<ValidatorEntry>, us: seq<ValidatorEntry>, i: nat, n: nat, w: nat)
    requires Distinct(Addresses(vs)) && i < |vs| == |us| && n <= vs[i].bonded
    requires us == vs[i := Tapped(vs[i], n)]
    ensures MovesAlike(vs, us, [Undelegate(vs[i].address, n, w)])
  {
    forall j | 0 <= j < |vs| ensures vs[i].address == vs[j].address <==> i == j {
      OnlyOneAt(vs, i, j);
    }
    OneMove(vs, us, Undelegate(vs[i].address, n, w));
  }

  lemma {:induction false} DrawnMoves(vs: seq<ValidatorEntry>, legs: seq<UnbondLeg>, w: nat)
    requires Distinct(Addresses(vs)) && LegsFit(vs, legs)
    ensures MovesAlike(vs, Drawn(vs, legs), LegMsgs(vs, legs, w))
  {
    hide MovesAlike;
    if legs == [] {
      StandsStill(vs, vs, []);
    } else {
      var init, leg := legs[..|legs| - 1], legs[|legs| - 1];
      var before := Drawn(vs, init);
      DrawnMoves(vs, init, w);
      DrawnIs(vs, init);
      assert !Touches(init, leg.index);
      DrawnSnoc(vs, legs);
      DrawnKeepsAddresses(vs, init);
      LegMoves(before, Drawn(vs, legs), leg.index, leg.amount, w);
      assert LegMsgs(vs, legs, w) == LegMsgs(vs, init, w) + [Undelegate(vs[leg.index].address, leg.amount, w)];
      MovesThen(vs, before, Drawn(vs, legs), LegMsgs(vs, init, w), [Undelegate(vs[leg.index].address, leg.amount, w)]);
    }
  }

  lemma {:induction false} CloseMoves(c: Core, now: nat)
    requires CoreOk(c) && ClosedOpen(c, now).Ok?
    ensures MovesAlike(c.vals, ClosedOpen(c, now).value.core.vals, ClosedOpen(c, now).value.msgs)
  {
    hide ClosedOpen, MovesAlike, StakeOk, SlotsOk, ActiveOk, BucketsOk, LedgerOk, IndexOk;
    var legs, closed := ClosedForm(c, now);
    PlanFits(c.vals, c.windows[c.openId].scrtOwed, c.config.params.maxUnbondEntries, legs);
    DrawnMoves(c.vals, legs, c.openId);
  }

  lemma {:induction false} OverdueMoves(c: Core, now: nat)
    requires CoreOk(c) && ClosedIfOverdue(c, now).Ok?
    ensures MovesAlike(c.vals, ClosedIfOverdue(c, now).value.core.vals, ClosedIfOverdue(c, now).value.msgs)
  {
    hide ClosedOpen, ClosedIfOverdue, MovesAlike, SetOk, StakeOk, SlotsOk, ActiveOk, LedgerOk, IndexOk;
    OverdueCases(c, now);
    if ClosedIfOverdue(c, now) == ClosedOpen(c, now) {
      CloseMoves(c, now);
    } else {
      StandsStill(c.vals, c.vals, []);
    }
  }

  lemma {:induction false} MatureStands(c: Core, now: nat, balance: nat, limit: nat)
    requires CoreOk(c)
    ensures var us := MatureDue(c, now, balance, limit).core.vals;
            |us| == |c.vals| && forall i :: 0 <= i < |c.vals| ==>
              us[i].address == c.vals[i].address && us[i].bonded == c.vals[i].bonded
  {
    hide MatureFrom, Released;
    var spoken := SumSeq(c.active, SpokenAt(c.windows));
    ReleasedIs(c.vals, MatureFrom(c.active, c.windows, now, balance, spoken, Max(limit, 1)).release);
  }

  // ---- whole calls ----

  /** Calls that work from the cache as it is. */
  predicate Follows(tx: Tx) {
    || tx.DoBootstrap? || tx.DoClaim? || tx.DoAdvance? || tx.DoCollect?
    || tx.DoSetFee? || tx.DoSetPaused? || tx.DoRebalance?
  }

  lemma {:induction false} BootstrapMoves(c: Core, b: Chain, sender: Addr, token: Addr, funds: seq<Coin>)
    requires Distinct(Addresses(c.vals)) && Bootstrap(c, b, sender, token, funds).Ok?
    ensures var d := Bootstrap(c, b, sender, token, funds).value; MovesAlike(c.vals, d.core.vals, d.msgs)
  {
    hide Bootstrap, MovesAlike;
    var seed, i := BootstrapForm(c, b, sender, token, funds);
    var m := Delegate(c.vals[i].address, seed);
    StandsStill(c.vals, c.vals, [RegisterReceive, Mint(SELF, seed)]);
    DelegateMoves(c.vals, i, seed);
    var us := c.vals[i := c.vals[i].(bonded := c.vals[i].bonded + seed)];
    MovesThen(c.vals, c.vals, us, [RegisterReceive, Mint(SELF, seed)], [m]);
    assert [RegisterReceive, Mint(SELF, seed)] + [m] == [RegisterReceive, Mint(SELF, seed), m];
  }

  lemma {:induction false} ClaimMoves(c: Core, q: Chain, who: Addr, ids: Option<seq<nat>>)
    requires CoreOk(c) && ClaimMatured(c, q, who, ids).Ok?
    ensures var d := ClaimMatured(c, q, who, ids).value; MovesAlike(c.vals, d.core.vals, d.msgs)
  {
    hide MatureDue, ClaimFrom, ClaimMatured, MovesAlike, CoreOk;
    var m, wanted, r := ClaimForm(c, q, who, ids);
    MatureStands(c, q.now, q.balance, U32_MAX);
    StandsStill(c.vals, m.vals, [Send(who, r.paid)]);
  }

  lemma {:induction false} FollowersMove(c: Core, b: Chain, tx: Tx)
    requires CoreOk(c) && Follows(tx) && Handle(c, b, tx).Ok?
    ensures MovesAlike(c.vals, Handle(c, b, tx).value.core.vals, Handle(c, b, tx).value.msgs)
  {
    hide Bootstrap, ClaimMatured, ClosedOpen, MatureDue, MovesAlike, CoreOk, RebalanceFrom;
    SetDistinct(c);
    match tx {
      case DoBootstrap(sender, token, funds) => BootstrapMoves(c, b, sender, token, funds);
      case DoClaim(who, ids) => ClaimMoves(c, b, who, ids);
      case DoAdvance => CloseMoves(c, b.now);
      case DoCollect(limit) =>
        MatureStands(c, b.now, b.balance, if limit.Some? then limit.value else DEFAULT_SYNC_LIMIT);
        StandsStill(c.vals, Handle(c, b, tx).value.core.vals, []);
      case DoRebalance(sender, plan) => RebalanceMoves(c.vals, plan, c.allowlist);
      case DoSetFee(_, _) => StandsStill(c.vals, c.vals, []);
      case DoSetPaused(_, _) => StandsStill(c.vals, c.vals, []);
      case _ =>
    }
  }

  /** How far the cache stands above the chain for a validator of the set. */
  function Drift(s: Sys, i: nat): int
    requires i < |s.core.vals|
  {
    s.core.vals[i].bonded - s.chain.BondedAt(s.core.vals[i].address)
  }

  /** A committed rebalance, advance, bootstrap, claim or collection changes what the chain holds with each
      validator of the set by exactly what it changes in the cache: a drift from slashing stays what it
      was, and none appears. */
  lemma {:induction false} CallsMirror(s: Sys, tx: Tx, i: nat)
    requires SysOk(s) && Commits(s, tx) && Follows(tx) && i < |s.core.vals|
    ensures var t := Transact(s, tx);
            && |t.core.vals| == |s.core.vals| && t.core.vals[i].address == s.core.vals[i].address
            && t.core.vals[i].bonded - s.core.vals[i].bonded
               == t.chain.BondedAt(s.core.vals[i].address) - s.chain.BondedAt(s.core.vals[i].address)
            && Drift(t, i) == Drift(s, i)
  {
    hide CoreOk, ChainOk, SweptOk, Handle, SweptAfter;
    var b, d, a := Attached(s, tx), Handled(s, tx), s.core.vals[i].address;
    FollowersMove(s.core, b, tx);
    assert MovesAt(s.core.vals, d.core.vals, d.msgs, i);
    RunBonds(b, d.msgs, a);
    AttachedDelegations(s, tx);
  }

  // ---- calls that re-read the chain first ----

  lemma {:induction false} SyncedMoves(vs: seq<ValidatorEntry>, us: seq<ValidatorEntry>, ms: seq<Msg>, q: Chain)
    requires Synced(vs, q) && MovesAlike(vs, us, ms) && Run(q, ms).Some?
    ensures Synced(us, Run(q, ms).value)
  {
    forall i | 0 <= i < |us| ensures us[i].bonded == Run(q, ms).value.BondedAt(us[i].address) {
      assert MovesAt(vs, us, ms, i);
      RunBonds(q, ms, vs[i].address);
    }
  }

  lemma {:induction false} DepositMoves(c: Core, b: Chain, sender: Addr, funds: seq<Coin>)
    requires CoreOk(c) && Deposit(c, b, sender, funds).Ok?
    ensures var d := Deposit(c, b, sender, funds).value;
            Refreshed(c, b).Ok? && MovesAlike(Refreshed(c, b).value.vals, d.core.vals, d.msgs)
  {
    hide ClosedIfOverdue, CoreOk, Deposit, MovesAlike, Refreshed;
    var n, r, shares, i, d := DepositForm(c, b, sender, funds);
    RefreshKeepsCore(c, b);
    SetDistinct(r);
    PlacedKeepsCore(r, i, n, shares);
    var m, g := Mint(sender, shares), Delegate(r.vals[i].address, n);
    var p := Placed(r, i, n, shares);
    StandsStill(r.vals, r.vals, [m]);
    DelegateMoves(r.vals, i, n);
    MovesThen(r.vals, r.vals, p.vals, [m], [g]);
    assert [m] + [g] == [m, g];
    OverdueMoves(p, b.now);
    MovesThen(r.vals, p.vals, d.core.vals, [m, g], d.msgs);
  }

  lemma {:induction false} UnbondMoves(c: Core, b: Chain, sender: Addr, from: Addr, n: nat)
    requires CoreOk(c) && Unbond(c, b, sender, from, n).Ok?
    ensures var d := Unbond(c, b, sender, from, n).value;
            Refreshed(c, b).Ok? && MovesAlike(Refreshed(c, b).value.vals, d.core.vals, d.msgs)
  {
    hide ClosedIfOverdue, CoreOk, Unbond, MovesAlike, Refreshed, Promised;
    var r, owed, d := UnbondForm(c, b, sender, from, n);
    RefreshKeepsCore(c, b);
    PromisedKeepsCore(r, from, n, owed);
    PromisedOwes(r, from, n, owed);
    StandsStill(r.vals, r.vals, [Burn(n)]);
    OverdueMoves(Promised(r, from, n, owed), b.now);
    MovesThen(r.vals, r.vals, d.core.vals, [Burn(n)], d.msgs);
  }

  /** After a committed deposit or withdrawal request the cache is the chain: every validator is cached
      with exactly what the chain holds, however stale the cache was before. */
  lemma {:induction false} TradesSync(s: Sys, tx: Tx)
    requires SysOk(s) && Commits(s, tx) && (tx.DoDeposit? || tx.DoUnbond?)
    ensures Synced(Transact(s, tx).core.vals, Transact(s, tx).chain)
  {
    hide CoreOk, ChainOk, SweptOk, Deposit, Unbond, SweptAfter, MovesAlike, Synced, Refreshed;
    var c, b, d := s.core, Attached(s, tx), Handled(s, tx);
    if tx.DoDeposit? {
      DepositMoves(c, b, tx.sender, tx.funds);
    } else {
      UnbondMoves(c, b, if c.config.token.Some? then c.config.token.value else tx.from, tx.from, tx.shares);
    }
    RefreshSyncs(c, b);
    SyncedMoves(Refreshed(c, b).value.vals, d.core.vals, d.msgs, b);
  }

  // ---- any run ----

  /** The cache is nowhere below the chain; and if `exact`, nowhere above it either. */
  ghost predicate Tracks(vs: seq<ValidatorEntry>, q: Chain, exact: bool) {
    forall i :: 0 <= i < |vs| ==> TracksAt(vs[i], q, exact)
  }

  predicate TracksAt(v: ValidatorEntry, q: Chain, exact: bool) {
    q.BondedAt(v.address) <= v.bonded && (exact ==> v.bonded == q.BondedAt(v.address))
  }

  lemma {:induction false} TracksMoves(vs: seq<ValidatorEntry>, us: seq<ValidatorEntry>, ms: seq<Msg>, q: Chain,
        exact: bool)
    requires Tracks(vs, q, exact) && MovesAlike(vs, us, ms) && Run(q, ms).Some?
    ensures Tracks(us, Run(q, ms).value, exact)
  {
    forall i | 0 <= i < |us| ensures TracksAt(us[i], Run(q, ms).value, exact) {
      assert MovesAt(vs, us, ms, i) && TracksAt(vs[i], q, exact);
      RunBonds(q, ms, vs[i].address);
    }
  }

  lemma {:induction false} SameDelegations(vs: seq<ValidatorEntry>, q: Chain, b: Chain, exact: bool)
    requires Tracks(vs, q, exact) && b.delegations == q.delegations
    ensures Tracks(vs, b, exact)
  {
    forall i | 0 <= i < |vs| ensures TracksAt(vs[i], b, exact) {
      assert TracksAt(vs[i], q, exact);
    }
  }

  lemma {:induction false} HarvestMoves(c: Core, q: Chain, limit: Option<nat>) returns (end: nat)
    requires CoreOk(c) && Compound(c, q, limit).Ok?
    ensures c.cursor <= end <= |c.vals|
    ensures var d := Compound(c, q, limit).value;
            MovesAlike(HarvestedSet(c.vals, q, c.cursor, end), d.core.vals, d.msgs)
  {
    hide Compound, Restaked, MovesAlike, CoreOk;
    var harvested, r;
    end, harvested, r := CompoundForm(c, q, limit);
    var vs, slice := HarvestedSet(c.vals, q, c.cursor, end), c.vals[c.cursor..end];
    SetDistinct(c);
    assert Addresses(vs) == Addresses(c.vals);
    WithdrawalsOnly(slice, q);
    StandsStill(vs, vs, WithdrawMsgs(slice, q));
    RestakeMoves(c, vs, q.balance, harvested);
    MovesThen(vs, vs, r.vals, WithdrawMsgs(slice, q), r.msgs);
  }

  lemma {:induction false} RestakeMoves(c: Core, vs: seq<ValidatorEntry>, balance: nat, harvested: nat)
    requires Distinct(Addresses(vs)) && Restaked(c, vs, balance, harvested).Ok?
    ensures var r := Restaked(c, vs, balance, harvested).value; MovesAlike(vs, r.vals, r.msgs)
  {
    hide Restaked, MovesAlike;
    if harvested == 0 {
      RestakesNothing(c, vs, balance);
      StandsStill(vs, vs, []);
    } else {
      var i, fee := RestakeForm(c, vs, balance, harvested);
      var us := vs[i := vs[i].(bonded := vs[i].bonded + harvested)];
      DelegateMoves(vs, i, harvested);
      if fee != 0 {
        StandsStill(us, us, [Mint(c.config.treasury, fee)]);
        MovesThen(vs, us, us, [Delegate(vs[i].address, harvested)], [Mint(c.config.treasury, fee)]);
        assert [Delegate(vs[i].address, harvested)] + [Mint(c.config.treasury, fee)]
            == [Delegate(vs[i].address, harvested), Mint(c.config.treasury, fee)];
      }
    }
  }

  lemma {:induction false} HarvestedTracks(vs: seq<ValidatorEntry>, q: Chain, lo: nat, hi: nat, exact: bool)
    requires Tracks(vs, q, exact)
    ensures Tracks(HarvestedSet(vs, q, lo, hi), q, exact) && Tracks(Reread(vs, q, lo, hi), q, exact)
  {
    var us, rs := HarvestedSet(vs, q, lo, hi), Reread(vs, q, lo, hi);
    forall i | 0 <= i < |vs| ensures TracksAt(us[i], q, exact) && TracksAt(rs[i], q, exact) {
      assert TracksAt(vs[i], q, exact);
    }
  }

  lemma {:induction false} WeightsTrack(s: Sys, sender: Addr, ws: seq<ValidatorInit>, exact: bool)
    requires SysOk(s) && InSet(s) && SetWeights(s.core, sender, ws).Ok? && Tracks(s.core.vals, s.chain, exact)
    ensures Tracks(SetWeights(s.core, sender, ws).value.core.vals, s.chain, exact)
  {
    hide StakeOk, SlotsOk, WindowsOk, ActiveOk, BucketsOk, LedgerOk, IndexOk, ChainOk, SweptOk, WeightsApplied, SetOk;
    var c, us := s.core, SetWeights(s.core, sender, ws).value.core.vals;
    SetWeightsKeeps(c, sender, ws);
    SetDistinct(SetWeights(s.core, sender, ws).value.core);
    NewcomersHaveNothing(c, sender, ws);
    forall i | 0 <= i < |us| ensures TracksAt(us[i], s.chain, exact) {
      ExtendsAt(c.vals, us, i);
      if i < |c.vals| {
        assert TracksAt(c.vals[i], s.chain, exact);
      } else {
        assert us[i].address !in s.chain.delegations;
      }
    }
  }

  lemma {:induction false} NewcomersHaveNothing(c: Core, sender: Addr, ws: seq<ValidatorInit>)
    requires CoreOk(c) && SetWeights(c, sender, ws).Ok?
    ensures var us := SetWeights(c, sender, ws).value.core.vals;
            && |c.vals| <= |us|
            && (forall i :: 0 <= i < |c.vals| ==> us[i].bonded == c.vals[i].bonded)
            && (forall i :: |c.vals| <= i < |us| ==> us[i].bonded == 0)
  {
    ManagedVerdictMeaning(ws, c.allowlist, c.config.limits.maxValidatorWeightBps);
    WeightsKeepSet(c.vals, ws, c.allowlist, c.config.limits.maxValidatorWeightBps);
  }

  /** No call makes the cache stray. */
  lemma {:induction false} CallTracks(s: Sys, tx: Tx, exact: bool)
    requires SysOk(s) && InSet(s) && Commits(s, tx) && Tracks(s.core.vals, s.chain, exact)
    ensures Tracks(Transact(s, tx).core.vals, Transact(s, tx).chain, exact)
  {
    hide CoreOk, ChainOk, SweptOk, Deposit, Unbond, Bootstrap, ClaimMatured, ClosedOpen, MatureDue, Compound, SweptAfter,
         MovesAlike, Tracks, InSet, SetWeights;
    var c, b, d := s.core, Attached(s, tx), Handled(s, tx);
    AttachedDelegations(s, tx);
    SameDelegations(c.vals, s.chain, b, exact);
    if tx.DoDeposit? || tx.DoUnbond? {
      TradesSync(s, tx);
      SyncedTracks(Transact(s, tx).core.vals, Transact(s, tx).chain, exact);
    } else if tx.DoCompound? {
      var end := HarvestMoves(c, b, tx.limit);
      HarvestedTracks(c.vals, b, c.cursor, end, exact);
      TracksMoves(HarvestedSet(c.vals, b, c.cursor, end), d.core.vals, d.msgs, b, exact);
    } else if tx.DoSync? {
      HarvestedTracks(c.vals, b, c.cursor, SweepEnd(c, if tx.limit.Some? then tx.limit.value else DEFAULT_SYNC_LIMIT), exact);
    } else if tx.DoSetWeights? {
      WeightsTrack(s, tx.sender, tx.weights, exact);
      WeightsQuiet(c, tx.sender, tx.weights);
    } else {
      FollowersMove(c, b, tx);
      TracksMoves(c.vals, d.core.vals, d.msgs, b, exact);
    }
  }

  lemma {:induction false} WeightsQuiet(c: Core, sender: Addr, ws: seq<ValidatorInit>)
    requires SetWeights(c, sender, ws).Ok?
    ensures SetWeights(c, sender, ws).value.msgs == []
  {
  }

  lemma {:induction false} SyncedTracks(vs: seq<ValidatorEntry>, q: Chain, exact: bool)
    requires Synced(vs, q)
    ensures Tracks(vs, q, exact)
  {
  }

  lemma {:induction false} EventTracks(vs: seq<ValidatorEntry>, q: Chain, e: Event, exact: bool)
    requires Tracks(vs, q, exact) && (exact ==> !e.SlashStake?)
    ensures Tracks(vs, Happen(q, e), exact)
  {
    forall i | 0 <= i < |vs| ensures TracksAt(vs[i], Happen(q, e), exact) {
      assert TracksAt(vs[i], q, exact);
    }
  }

  /** In every reachable state no validator is cached with less than the chain holds for it; and until a
      delegation is slashed, each is cached with exactly that. */
  lemma {:induction false} OnlySlashingDrifts(s: Sys, steps: seq<Step>, exact: bool)
    requires Fresh(s)
    requires exact ==> forall i :: 0 <= i < |steps| ==> !(steps[i].World? && steps[i].event.SlashStake?)
    ensures Tracks(After(s, steps).core.vals, After(s, steps).chain, exact)
  {
    hide SysOk, InSet, Tracks, Commits, Transact;
    if steps == [] {
      FreshTracks(s, exact);
    } else {
      var init, last := steps[..|steps| - 1], steps[|steps| - 1];
      var m := After(s, init);
      OnlySlashingDrifts(s, init, exact);
      ReachableOk(s, init);
      RunInSet(s, init);
      match last {
        case Do(tx) =>
          if Commits(m, tx) {
            CallTracks(m, tx, exact);
          } else {
            RefusedChangesNothing(m, tx);
          }
        case World(e) => EventTracks(m.core.vals, m.chain, e, exact);
      }
    }
  }

  lemma {:induction false} FreshTracks(s: Sys, exact: bool)
    requires Fresh(s)
    ensures Tracks(s.core.vals, s.chain, exact)
  {
    var m, sender :| Instantiated(m, sender, s.chain.now) == Ok(s.core);
    forall i | 0 <= i < |s.core.vals| ensures TracksAt(s.core.vals[i], s.chain, exact) {
      assert s.core.vals[i] == FreshEntry(m.validators[i]);
    }
  }
}
