/** The contract object (contract.rs, state.rs): its storage cells as fields, its entry points as
    methods that load, loop and save step by step. Each method is tied to what Engine says the whole
    call does. A method that returns an error promises nothing about the fields: the host discards
    the writes of a failed call, as System.Transact does. */
module Contract {
  import opened Prelude
  import opened Sums
  import opened Types
  import opened Math
  import opened Windows
  import opened Validators
  import opened Plans
  import opened Chain
  import opened Engine
  import opened Maturing

  // ---- the window table as stored and as seen ----

  ghost predicate Stored(ws: map<nat, UnbondWindow>, n: nat) {
    forall i: nat :: i in ws <==> i < n
  }

  ghost function Table(ws: map<nat, UnbondWindow>, n: nat): (t: seq<UnbondWindow>)
    requires Stored(ws, n)
    ensures |t| == n
  {
    seq(n, i requires 0 <= i < n => ws[i])
  }

  lemma {:induction false} TableUpdate(ws: map<nat, UnbondWindow>, n: nat, id: nat, w: UnbondWindow)
    requires Stored(ws, n) && id < n
    ensures Stored(ws[id := w], n) && Table(ws[id := w], n) == Table(ws, n)[id := w]
  {
  }

  lemma {:induction false} TableGrows(ws: map<nat, UnbondWindow>, n: nat, w: UnbondWindow)
    requires Stored(ws, n)
    ensures Stored(ws[n := w], n + 1) && Table(ws[n := w], n + 1) == Table(ws, n) + [w]
  {
    assert Stored(ws[n := w], n + 1);
    assert Table(ws[n := w], n + 1)[..n] == Table(ws, n);
  }

  lemma {:induction false} RolledTable(ws: map<nat, UnbondWindow>, n: nat, id: nat, w: UnbondWindow, next: UnbondWindow)
    requires Stored(ws, n) && id < n
    ensures Stored(ws[id := w][n := next], n + 1)
    ensures Table(ws[id := w][n := next], n + 1) == Table(ws, n)[id := w] + [next]
  {
    TableUpdate(ws, n, id, w);
    TableGrows(ws[id := w], n, next);
  }

  // ---- loops against the recursions that specify them ----

  /** A drawn set keeps its addresses. */
  lemma {:induction false} DrawnAddress(vs: seq<ValidatorEntry>, legs: seq<UnbondLeg>, i: nat)
    requires i < |vs|
    ensures Drawn(vs, legs)[i].address == vs[i].address
  {
    if legs != [] {
      DrawnAddress(vs, legs[..|legs| - 1], i);
    }
  }

  lemma {:induction false} OneMoreLeg(vs: seq<ValidatorEntry>, legs: seq<UnbondLeg>, i: nat, window: nat)
    requires i < |legs| && forall k :: 0 <= k < |legs| ==> legs[k].index < |vs|
    ensures var leg, r := legs[i], Drawn(vs, legs[..i]);
            Drawn(vs, legs[..i + 1]) == r[leg.index := r[leg.index].(bonded := SatSub(r[leg.index].bonded, leg.amount),
                                                                  activeUnbondEntries := Min(r[leg.index].activeUnbondEntries + 1, 255))]
    ensures LegAddresses(vs, legs[..i + 1]) == LegAddresses(vs, legs[..i]) + [vs[legs[i].index].address]
    ensures LegMsgs(vs, legs[..i + 1], window) == LegMsgs(vs, legs[..i], window) + [Undelegate(vs[legs[i].index].address, legs[i].amount, window)]
  {
    assert legs[..i + 1][..i] == legs[..i];
  }

  /** What a maturing loop has accumulated, continued by the rest of the list. */
  ghost predicate MaturesOn(whole: Engine.Maturing, rest: Engine.Maturing, matured: seq<nat>, promised: nat,
        realised: nat, release: seq<Addr>) {
    && whole.windows == rest.windows
    && whole.matured == matured + rest.matured
    && whole.promised == promised + rest.promised
    && whole.realised == realised + rest.realised
    && whole.release == release + rest.release
  }

  lemma {:induction false} MaturesOnTake(whole: Engine.Maturing, ids: seq<nat>, i: nat, ws: seq<UnbondWindow>,
        now: nat, balance: nat, spoken: nat, room: nat,
                                         matured: seq<nat>, promised: nat, realised: nat, release: seq<Addr>)
    requires i < |ids| && room != 0 && ids[i] < |ws| && IsMature(ws[ids[i]], now)
    requires MaturesOn(whole, MatureFrom(ids[i..], ws, now, balance, spoken, room), matured, promised, realised, release)
    ensures var w := Mature(ws[ids[i]], SatSub(balance, spoken));
            MaturesOn(whole, MatureFrom(ids[i + 1..], ws[ids[i] := w], now, balance, spoken + w.Payable(), room - 1),
                      matured + [ids[i]], promised + w.scrtOwed, realised + w.Payable(), release + w.validatorsUsed)
  {
    hide MatureFrom;
    var w := Mature(ws[ids[i]], SatSub(balance, spoken));
    MatureFromTakes(ids[i..], ws, now, balance, spoken, room);
    assert ids[i..][0] == ids[i] && ids[i..][1..] == ids[i + 1..];
    var rest := MatureFrom(ids[i + 1..], ws[ids[i] := w], now, balance, spoken + w.Payable(), room - 1);
    assert matured + ([ids[i]] + rest.matured) == (matured + [ids[i]]) + rest.matured;
    assert release + (w.validatorsUsed + rest.release) == (release + w.validatorsUsed) + rest.release;
  }

  lemma {:induction false} MaturesOnSkip(whole: Engine.Maturing, ids: seq<nat>, i: nat, ws: seq<UnbondWindow>,
        now: nat, balance: nat, spoken: nat, room: nat,
                                         matured: seq<nat>, promised: nat, realised: nat, release: seq<Addr>)
    requires i < |ids| && room != 0 && !(ids[i] < |ws| && IsMature(ws[ids[i]], now))
    requires MaturesOn(whole, MatureFrom(ids[i..], ws, now, balance, spoken, room), matured, promised, realised, release)
    ensures MaturesOn(whole, MatureFrom(ids[i + 1..], ws, now, balance, spoken, room), matured, promised, realised, release)
  {
    hide MatureFrom;
    MatureFromSkips(ids[i..], ws, now, balance, spoken, room);
    assert ids[i..][0] == ids[i] && ids[i..][1..] == ids[i + 1..];
  }

  lemma {:induction false} MaturesOnEnd(whole: Engine.Maturing, ids: seq<nat>, i: nat, ws: seq<UnbondWindow>,
        now: nat, balance: nat, spoken: nat, room: nat,
                                        matured: seq<nat>, promised: nat, realised: nat, release: seq<Addr>)
    requires i <= |ids| && (i == |ids| || room == 0)
    requires MaturesOn(whole, MatureFrom(ids[i..], ws, now, balance, spoken, room), matured, promised, realised, release)
    ensures whole == Engine.Maturing(ws, matured, promised, realised, release)
  {
    MatureFromStops(ids[i..], ws, now, balance, spoken, room);
  }

  lemma {:induction false} ReleasedOn(vs: seq<ValidatorEntry>, names: seq<Addr>, j: nat)
    requires j < |names|
    ensures Released(vs, names[j..]) == Released(ReleaseOne(vs, names[j]), names[j + 1..])
  {
    assert names[j..][1..] == names[j + 1..];
  }

  /** What a claim loop has paid and settled, continued by the rest of the list. */
  ghost function ClaimsOn(paid: nat, settled: seq<nat>, rest: Outcome<Claiming>): Outcome<Claiming> {
    match rest
    case Err(e) => Err(e)
    case Ok(r) => Ok(Claiming(r.claims, r.windows, paid + r.paid, settled + r.settled))
  }

  lemma {:induction false} ClaimsOnSkip(who: Addr, ids: seq<nat>, i: nat, m: map<ClaimKey, ClaimRecord>,
        ws: seq<UnbondWindow>)
    requires i < |ids|
    requires var k := ClaimKey(who, ids[i]);
             k !in m || m[k].claimed || (ids[i] < |ws| && ws[ids[i]].state != Matured && ws[ids[i]].state != Unbonding)
    ensures ClaimFrom(who, ids[i..], m, ws) == ClaimFrom(who, ids[i + 1..], m, ws)
  {
    assert ids[i..][1..] == ids[i + 1..];
  }

  lemma {:induction false} ClaimsOnFail(who: Addr, ids: seq<nat>, i: nat, m: map<ClaimKey, ClaimRecord>,
        ws: seq<UnbondWindow>)
    requires i < |ids|
    requires var k := ClaimKey(who, ids[i]);
             k in m && !m[k].claimed && (ids[i] < |ws| ==> ws[ids[i]].state == Unbonding)
    ensures ClaimFrom(who, ids[i..], m, ws) == Err(if ids[i] < |ws| then WindowNotMatured else WindowNotOpen)
  {
  }

  lemma {:induction false} ClaimsOnPay(who: Addr, ids: seq<nat>, i: nat, m: map<ClaimKey, ClaimRecord>,
        ws: seq<UnbondWindow>, paid: nat, settled: seq<nat>)
    requires i < |ids|
    requires var k := ClaimKey(who, ids[i]); k in m && !m[k].claimed && ids[i] < |ws| && ws[ids[i]].state == Matured
    ensures var k := ClaimKey(who, ids[i]);
            var payout := PayoutForClaim(ws[ids[i]], m[k].scrtOwed);
            var w := PaidOut(ws[ids[i]], payout);
            ClaimsOn(paid, settled, ClaimFrom(who, ids[i..], m, ws))
            == ClaimsOn(paid + payout, settled + (if w.state == Settled then [ids[i]] else []),
                        ClaimFrom(who, ids[i + 1..], m[k := m[k].(claimed := true)], ws[ids[i] := w]))
  {
    hide PayoutForClaim, PaidOut;
    assert ids[i..][0] == ids[i] && ids[i..][1..] == ids[i + 1..];
    var k := ClaimKey(who, ids[i]);
    var w := PaidOut(ws[ids[i]], PayoutForClaim(ws[ids[i]], m[k].scrtOwed));
    var rest := ClaimFrom(who, ids[i + 1..], m[k := m[k].(claimed := true)], ws[ids[i] := w]);
    if rest.Ok? {
      var one := if w.state == Settled then [ids[i]] else [];
      assert settled + (one + rest.value.settled) == (settled + one) + rest.value.settled;
    }
  }

  /** Closing a window nobody used. */
  lemma {:induction false} ClosedUnused(c: Core, now: nat, w: UnbondWindow, next: UnbondWindow)
    requires c.openId < |c.windows| && c.windows[c.openId].scrtOwed == 0
    requires w == Close(c.windows[c.openId], now, c.config.params.unbondingPeriodSecs)
    requires next == OpenWindow(|c.windows|, now, c.config.params.unbondWindowSecs)
    ensures ClosedOpen(c, now) == Ok(Done(c.(windows := c.windows[c.openId := w] + [next], openId := |c.windows|), []))
  {
    assert c.windows[c.openId].validatorsUsed + LegAddresses(c.vals, []) == c.windows[c.openId].validatorsUsed;
    assert LegMsgs(c.vals, [], c.openId) == [];
  }

  /** Closing a window that owes something. */
  lemma {:induction false} ClosedUsed(c: Core, now: nat, legs: seq<UnbondLeg>, w: UnbondWindow, next: UnbondWindow)
    requires c.openId < |c.windows| && c.windows[c.openId].scrtOwed != 0
    requires Plan(c.vals, c.windows[c.openId].scrtOwed, c.config.params.maxUnbondEntries) == Ok(legs)
    requires w == Close(c.windows[c.openId].(validatorsUsed := c.windows[c.openId].validatorsUsed + LegAddresses(c.vals, legs)), now,
                        c.config.params.unbondingPeriodSecs)
    requires next == OpenWindow(|c.windows|, now, c.config.params.unbondWindowSecs)
    ensures var owed := c.windows[c.openId].scrtOwed;
            ClosedOpen(c, now)
            == Ok(Done(c.(vals := Drawn(c.vals, legs), windows := c.windows[c.openId := w] + [next], openId := |c.windows|,
                          totals := c.totals.(totalBonded := SatSub(c.totals.totalBonded, owed),
                                              scrtOwedOpen := SatSub(c.totals.scrtOwedOpen, owed),
                                              scrtOwedUnbonding := c.totals.scrtOwedUnbonding + owed),
                          active := c.active + [c.openId]),
                       LegMsgs(c.vals, legs, c.openId)))
  {
  }

  lemma {:induction false} ClosedState(v: UnbondWindow, used: seq<Addr>, w: UnbondWindow, now: nat, u: nat)
    requires w == Close(v.(validatorsUsed := used), now, u)
    ensures w.state == Unbonding <==> v.scrtOwed != 0
  {
  }

  lemma {:induction false} ClosedRefused(c: Core, now: nat)
    requires c.openId < |c.windows| && c.windows[c.openId].scrtOwed != 0
    requires Plan(c.vals, c.windows[c.openId].scrtOwed, c.config.params.maxUnbondEntries).Err?
    ensures ClosedOpen(c, now) == Err(Plan(c.vals, c.windows[c.openId].scrtOwed, c.config.params.maxUnbondEntries).error)
  {
  }

  lemma {:induction false} InstantiatedIs(m: InstantiateMsg, sender: Addr, now: nat)
    ensures Instantiated(m, sender, now)
            == (match InstantiateVerdict(m)
                case Err(e) => Err(e)
                case Ok(_) => Ok(Core(FirstConfig(m, sender), m.allowlist, InitialSet(m.validators), TotalsCache(0, 0, 0, 0, 0, 0, now),
                                      [OpenWindow(0, now, m.params.unbondWindowSecs)], 0, [], 0, map[], map[])))
  {
  }

  method CheckInstantiate(m: InstantiateMsg) returns (r: Outcome<()>)
    ensures r == InstantiateVerdict(m)
  {
    var _ :- ValidateParams(m.params);
    var _ :- ValidateSet(m.validators);
    if |m.allowlist| > MAX_VALIDATORS {
      return Err(TooManyValidators);
    }
    var _ :- ValidateLimits(m.limits);
    var _ :- ValidateManagedWeights(m.validators, m.allowlist, m.limits.maxValidatorWeightBps);
    if m.params.performanceFeeBps > m.limits.maxPerformanceFeeBps {
      return Err(FeeTooHigh);
    }
    r := Ok(());
  }

  /** Apply the legs of an undelegation: stake and slots, the validators used, the messages. */
  method DrawLegs(vals: seq<ValidatorEntry>, legs: seq<UnbondLeg>, used: seq<Addr>, window: nat)
    returns (set_: seq<ValidatorEntry>, names: seq<Addr>, messages: seq<Msg>)
    requires forall k :: 0 <= k < |legs| ==> legs[k].index < |vals|
    ensures set_ == Drawn(vals, legs)
    ensures names == used + LegAddresses(vals, legs)
    ensures messages == LegMsgs(vals, legs, window)
  {
    set_, names, messages := vals, used, [];
    for i := 0 to |legs|
      invariant set_ == Drawn(vals, legs[..i])
      invariant names == used + LegAddresses(vals, legs[..i])
      invariant messages == LegMsgs(vals, legs[..i], window)
    {
      var leg := legs[i];
      OneMoreLeg(vals, legs, i, window);
      DrawnAddress(vals, legs[..i], leg.index);
      var entry := set_[leg.index].(bonded := SatSub(set_[leg.index].bonded, leg.amount),
                                    activeUnbondEntries := Min(set_[leg.index].activeUnbondEntries + 1, 255));
      set_ := set_[leg.index := entry];
      names := names + [entry.address];
      messages := messages + [Undelegate(entry.address, leg.amount, window)];
    }
    assert legs[..|legs|] == legs;
  }

  lemma {:induction false} ClaimsOnEnd(who: Addr, ids: seq<nat>, m: map<ClaimKey, ClaimRecord>,
        ws: seq<UnbondWindow>, paid: nat, settled: seq<nat>)
    ensures ClaimsOn(paid, settled, ClaimFrom(who, ids[|ids|..], m, ws)) == Ok(Claiming(m, ws, paid, settled))
  {
    assert ids[|ids|..] == [] && settled + [] == settled;
  }

  /** Read the delegations of a slice and withdraw what rewards they have. */
  method HarvestSlice(vals: seq<ValidatorEntry>, q: Chain, cursor: nat, end: nat)
    returns (set_: seq<ValidatorEntry>, harvested: nat, messages: seq<Msg>)
    requires cursor <= end <= |vals|
    ensures set_ == HarvestedSet(vals, q, cursor, end)
    ensures harvested == SumSeq(vals[cursor..end], RewardsOn(q))
    ensures messages == WithdrawMsgs(vals[cursor..end], q)
  {
    hide Harvested, HarvestedSet, WithdrawMsgs, RewardsOn, SumSeq;
    set_, harvested, messages := vals, 0, [];
    NoneHarvested(vals, q, cursor);
    for i := cursor to end
      invariant set_ == HarvestedSet(vals, q, cursor, i)
      invariant harvested == SumSeq(vals[cursor..i], RewardsOn(q))
      invariant messages == WithdrawMsgs(vals[cursor..i], q)
    {
      OneMoreHarvested(vals, q, cursor, i);
      var entry := set_[i];
      var rewards := q.RewardsAt(entry.address);
      if entry.address in q.delegations {
        entry := entry.(bonded := q.delegations[entry.address].bonded);
      }
      entry := entry.(pendingRewards := 0);
      set_ := set_[i := entry];
      if rewards != 0 {
        harvested := harvested + rewards;
        messages := messages + [WithdrawReward(entry.address)];
      }
    }
  }

  lemma {:induction false} NoneHarvested(vals: seq<ValidatorEntry>, q: Chain, cursor: nat)
    requires cursor <= |vals|
    ensures HarvestedSet(vals, q, cursor, cursor) == vals
    ensures SumSeq(vals[cursor..cursor], RewardsOn(q)) == 0
    ensures WithdrawMsgs(vals[cursor..cursor], q) == []
  {
  }

  lemma {:induction false} OneMoreHarvested(vals: seq<ValidatorEntry>, q: Chain, cursor: nat, i: nat)
    requires cursor <= i < |vals|
    ensures var v := vals[i];
            var entry := (if v.address in q.delegations then v.(bonded := q.delegations[v.address].bonded) else v).(pendingRewards := 0);
            && HarvestedSet(vals, q, cursor, i)[i] == v
            && HarvestedSet(vals, q, cursor, i + 1) == HarvestedSet(vals, q, cursor, i)[i := entry]
    ensures SumSeq(vals[cursor..i + 1], RewardsOn(q)) == SumSeq(vals[cursor..i], RewardsOn(q)) + q.RewardsAt(vals[i].address)
    ensures WithdrawMsgs(vals[cursor..i + 1], q)
         == if q.RewardsAt(vals[i].address) == 0 then WithdrawMsgs(vals[cursor..i], q)
            else WithdrawMsgs(vals[cursor..i], q) + [WithdrawReward(vals[i].address)]
  {
    var slice := vals[cursor..i + 1];
    assert slice[..|slice| - 1] == vals[cursor..i] && slice[|slice| - 1] == vals[i];
    OneMoreRead(vals, q, cursor, i);
    assert WithdrawMsgs(vals[cursor..i], q) + [] == WithdrawMsgs(vals[cursor..i], q);
  }

  lemma {:induction false} OneMoreRead(vals: seq<ValidatorEntry>, q: Chain, cursor: nat, i: nat)
    requires cursor <= i < |vals|
    ensures HarvestedSet(vals, q, cursor, i + 1) == HarvestedSet(vals, q, cursor, i)[i := Harvested(vals[i], q)]
  {
  }

  method RereadSlice(vals: seq<ValidatorEntry>, q: Chain, cursor: nat, end: nat) returns (set_: seq<ValidatorEntry>)
    requires cursor <= end <= |vals|
    ensures set_ == Reread(vals, q, cursor, end)
  {
    set_ := vals;
    for i := cursor to end
      invariant set_ == Reread(vals, q, cursor, i)
    {
      set_ := set_[i := ReadDelegation(set_[i], q)];
      assert set_ == Reread(vals, q, cursor, i + 1);
    }
  }

  lemma {:induction false} SyncRefused(c: Core, q: Chain, limit: Option<nat>)
    requires c.vals == [] || c.cursor > |c.vals|
    ensures Engine.Sync(c, q, limit) == Err(if c.vals == [] then EmptyValidatorSet else Overflow)
  {
  }

  /** A sync as a whole: re-read a slice, move the cursor, and on completion adopt the supply. */
  lemma {:induction false} SyncIs(c: Core, q: Chain, limit: Option<nat>, end: nat)
    requires c.vals != [] && c.cursor <= |c.vals|
    requires end == SweepEnd(c, if limit.Some? then limit.value else DEFAULT_SYNC_LIMIT)
    ensures var vs := Reread(c.vals, q, c.cursor, end);
            Engine.Sync(c, q, limit)
            == Ok(Done(c.(vals := vs, cursor := if end >= |c.vals| then 0 else end,
                          totals := c.totals.(totalBonded := TotalBonded(vs), pendingRewards := TotalRewards(vs),
                                              totalSupply := if end >= |c.vals| && c.config.token.Some? then q.supply else c.totals.totalSupply,
                                              lastSyncTime := if end >= |c.vals| then q.now else c.totals.lastSyncTime)), []))
  {
    hide TotalBonded, TotalRewards;
  }

  lemma {:induction false} CompoundRefused(c: Core, q: Chain, limit: Option<nat>)
    requires c.vals == [] || c.cursor > |c.vals|
    ensures Engine.Compound(c, q, limit) == Err(if c.vals == [] then EmptyValidatorSet else Overflow)
  {
  }

  lemma {:induction false} RestakeLength(c: Core, vs: seq<ValidatorEntry>, balance: nat, harvested: nat)
    requires Restaked(c, vs, balance, harvested).Ok?
    ensures |Restaked(c, vs, balance, harvested).value.vals| == |vs|
  {
  }

  /** A compound as a whole: harvest a slice, restake, move the cursor. */
  lemma {:induction false} CompoundIs(c: Core, q: Chain, limit: Option<nat>, end: nat, r: Outcome<Restake>)
    requires c.vals != [] && c.cursor <= |c.vals|
    requires end == SweepEnd(c, if limit.Some? then limit.value else DEFAULT_COMPOUND_LIMIT)
    requires r == Restaked(c, HarvestedSet(c.vals, q, c.cursor, end), q.balance, SumSeq(c.vals[c.cursor..end], RewardsOn(q)))
    ensures r.Err? ==> Engine.Compound(c, q, limit) == Err(r.error)
    ensures r.Ok? ==>
            && |r.value.vals| == |c.vals|
            && Engine.Compound(c, q, limit)
               == Ok(Done(c.(vals := r.value.vals, cursor := if end >= |c.vals| then 0 else end,
                             totals := c.totals.(totalBonded := TotalBonded(r.value.vals), pendingRewards := TotalRewards(r.value.vals),
                                                 totalSupply := c.totals.totalSupply + r.value.fee,
                                                 lastSyncTime := if end >= |c.vals| then q.now else c.totals.lastSyncTime)),
                          WithdrawMsgs(c.vals[c.cursor..end], q) + r.value.msgs))
  {
    hide Restaked, TotalBonded, TotalRewards, WithdrawMsgs, SumSeq, RewardsOn;
    if r.Ok? {
      RestakeLength(c, HarvestedSet(c.vals, q, c.cursor, end), q.balance, SumSeq(c.vals[c.cursor..end], RewardsOn(q)));
    }
  }

  /** What a rebalancing loop has emitted, continued by the rest of the plan. */
  ghost function MovesOn(done: seq<Msg>,
        rest: Outcome<(seq<ValidatorEntry>, seq<Msg>)>): Outcome<(seq<ValidatorEntry>, seq<Msg>)> {
    match rest
    case Err(e) => Err(e)
    case Ok(r) => Ok((r.0, done + r.1))
  }

  method MoveStake(vals: seq<ValidatorEntry>, plan: seq<RedelegateStep>, allowlist: seq<Addr>)
    returns (r: Outcome<(seq<ValidatorEntry>, seq<Msg>)>)
    ensures r == RebalanceFrom(vals, plan, allowlist)
  {
    var set_, messages: seq<Msg> := vals, [];
    ghost var whole := RebalanceFrom(vals, plan, allowlist);
    assert plan[0..] == plan;
    assert whole.Ok? ==> [] + whole.value.1 == whole.value.1;
    for i := 0 to |plan|
      invariant whole == MovesOn(messages, RebalanceFrom(set_, plan[i..], allowlist))
    {
      var step := plan[i];
      assert plan[i..][1..] == plan[i + 1..];
      if step.dst !in allowlist {
        return Err(ValidatorNotAllowed);
      }
      var src := Find(set_, step.src);
      if src == |set_| {
        return Err(UnknownValidator);
      }
      if set_[src].bonded < step.amount {
        return Err(InsufficientBalance);
      }
      var dst := Find(set_, step.dst);
      if dst == |set_| {
        return Err(UnknownValidator);
      }
      var emitted := Redelegate(step.src, step.dst, step.amount);
      ghost var rest := RebalanceFrom(Moved(set_, src, dst, step.amount), plan[i + 1..], allowlist);
      assert rest.Ok? ==> messages + ([emitted] + rest.value.1) == (messages + [emitted]) + rest.value.1;
      set_ := Moved(set_, src, dst, step.amount);
      messages := messages + [emitted];
    }
    assert messages + [] == messages;
    r := Ok((set_, messages));
  }

  class LstCore {
    var config: Config
    var allowlist: seq<Addr>
    var validators: seq<ValidatorEntry>
    var totals: TotalsCache
    var windows: map<nat, UnbondWindow>
    var nextWindowId: nat
    var openWindow: nat
    var activeWindows: seq<nat>
    var syncCursor: nat
    var claims: map<ClaimKey, ClaimRecord>
    var claimIndex: map<Addr, seq<nat>>

    /** Every id handed out has a window, and so have the ids in use. */
    ghost predicate Valid()
      reads this
    {
      && Stored(windows, nextWindowId)
      && openWindow < nextWindowId
      && (forall k :: 0 <= k < |activeWindows| ==> activeWindows[k] < nextWindowId)
    }

    ghost function View(): Core
      requires Valid()
      reads this
    {
      Core(config, allowlist, validators, totals, Table(windows, nextWindowId), openWindow, activeWindows, syncCursor, claims, claimIndex)
    }

    /** The call came out as specified: same messages and resulting storage, or the same error. */
    ghost predicate Did(r: Outcome<seq<Msg>>, spec: Outcome<Done>)
      reads this
    {
      match spec
      case Ok(d) => r == Ok(d.msgs) && Valid() && View() == d.core
      case Err(e) => r == Err(e)
    }

    /** A deployment that has not been instantiated holds one window nobody can see. */
    constructor ()
      ensures Valid()
    {
      config := Config("", None, ManagerLimits(0, 0), "", None, "", ProtocolParams(0, 0, 0, 0, 0), false);
      allowlist, validators, totals := [], [], TotalsCache(0, 0, 0, 0, 0, 0, 0);
      windows, nextWindowId, openWindow := map[0 := OpenWindow(0, 0, 0)], 1, 0;
      activeWindows, syncCursor, claims, claimIndex := [], 0, map[], map[];
    }

    method Instantiate(m: InstantiateMsg, sender: Addr, now: nat) returns (r: Outcome<()>)
      modifies this
      ensures match Instantiated(m, sender, now)
              case Ok(c) => r == Ok(()) && Valid() && View() == c
              case Err(e) => r == Err(e)
    {
      hide Instantiated, InstantiateVerdict, InitialSet, FirstConfig;
      InstantiatedIs(m, sender, now);
      var _ :- CheckInstantiate(m);
      config := FirstConfig(m, sender);
      allowlist := m.allowlist;
      validators := InitialSet(m.validators);
      syncCursor := 0;
      activeWindows := [];
      OpenFirst(now, m.params.unbondWindowSecs);
      totals := TotalsCache(0, 0, 0, 0, 0, 0, now);
      claims, claimIndex := map[], map[];
      r := Ok(());
    }

    /** A window is open from the first block. */
    method OpenFirst(now: nat, windowSecs: nat)
      modifies this`windows, this`nextWindowId, this`openWindow
      ensures Stored(windows, nextWindowId) && openWindow == 0 && nextWindowId == 1
      ensures Table(windows, nextWindowId) == [OpenWindow(0, now, windowSecs)]
    {
      var first := OpenWindow(0, now, windowSecs);
      nextWindowId := 1;
      windows := map[first.id := first];
      openWindow := first.id;
    }

    // ---- reading the chain ----

    method RefreshTotals(q: Chain) returns (r: Outcome<TotalsCache>)
      requires Valid()
      modifies this`validators, this`totals
      ensures Valid()
      ensures match Refreshed(old(View()), q)
              case Ok(c) => r == Ok(c.totals) && View() == c
              case Err(e) => r == Err(e)
    {
      var set_ := validators;
      if set_ == [] {
        return Err(EmptyValidatorSet);
      }
      for i := 0 to |set_|
        invariant |set_| == |validators| && set_[i..] == validators[i..]
        invariant set_[..i] == Reread(validators, q, 0, |validators|)[..i]
      {
        set_ := set_[i := ReadDelegation(set_[i], q)];
      }
      assert set_ == Reread(validators, q, 0, |validators|);
      validators := set_;
      totals := totals.(totalBonded := TotalBonded(set_), pendingRewards := TotalRewards(set_),
                        totalSupply := if config.token.Some? then q.supply else totals.totalSupply,
                        lastSyncTime := q.now);
      r := Ok(totals);
    }

    // ---- closing a window ----

    method CloseOpenWindow(now: nat) returns (r: Outcome<seq<Msg>>)
      requires Valid()
      modifies this`validators, this`totals, this`windows, this`nextWindowId, this`openWindow, this`activeWindows
      ensures Did(r, ClosedOpen(old(View()), now))
    {
      hide ClosedOpen, Drawn, LegMsgs, LegAddresses, Plan, Close;
      ghost var c := View();
      var closingId := openWindow;
      var window := windows[closingId];
      var messages: seq<Msg> := [];
      var undelegated := window.scrtOwed;
      ghost var legs: seq<UnbondLeg> := [];
      if undelegated != 0 {
        var plan := PlanUndelegation(validators, undelegated, config.params.maxUnbondEntries);
        if plan.Err? {
          ClosedRefused(c, now);
          return Err(plan.error);
        }
        legs := plan.value;
        PlanSucceeds(validators, undelegated, config.params.maxUnbondEntries);
        var set_, names;
        set_, names, messages := DrawLegs(validators, plan.value, window.validatorsUsed, closingId);
        window := window.(validatorsUsed := names);
        validators := set_;
        totals := totals.(totalBonded := SatSub(totals.totalBonded, undelegated),
                          scrtOwedOpen := SatSub(totals.scrtOwedOpen, undelegated),
                          scrtOwedUnbonding := totals.scrtOwedUnbonding + undelegated);
      }
      ghost var used := window.validatorsUsed;
      window := Close(window, now, config.params.unbondingPeriodSecs);
      ClosedState(c.windows[c.openId], used, window, now, config.params.unbondingPeriodSecs);
      OpenNext(window, now);
      if undelegated == 0 {
        ClosedUnused(c, now, window, OpenWindow(|c.windows|, now, c.config.params.unbondWindowSecs));
      } else {
        ClosedUsed(c, now, legs, window, OpenWindow(|c.windows|, now, c.config.params.unbondWindowSecs));
      }
      r := Ok(messages);
    }

    /** Save the closed window, list it if it is unbonding, and open its successor. */
    method OpenNext(closed: UnbondWindow, now: nat)
      requires Valid()
      modifies this`windows, this`nextWindowId, this`openWindow, this`activeWindows
      ensures Valid()
      ensures var c := old(View());
              View() == c.(windows := c.windows[c.openId := closed] + [OpenWindow(|c.windows|, now, c.config.params.unbondWindowSecs)],
                           openId := |c.windows|,
                           active := if closed.state == Unbonding then c.active + [c.openId] else c.active)
    {
      hide OpenWindow;
      var closingId := openWindow;
      windows := windows[closingId := closed];
      if closed.state == Unbonding {
        activeWindows := activeWindows + [closingId];
      }
      var id := nextWindowId;
      var next := OpenWindow(id, now, config.params.unbondWindowSecs);
      nextWindowId := nextWindowId + 1;
      windows := windows[id := next];
      openWindow := id;
      RolledTable(old(windows), old(nextWindowId), closingId, closed, next);
    }

    method CloseWindowIfOverdue(now: nat) returns (r: Outcome<seq<Msg>>)
      requires Valid()
      modifies this`validators, this`totals, this`windows, this`nextWindowId, this`openWindow, this`activeWindows
      ensures r.Ok? && Did(r, ClosedIfOverdue(old(View()), now))
    {
      var window := windows[openWindow];
      if AssertClosable(window, now).Err? {
        return Ok([]);
      }
      if window.scrtOwed != 0 {
        var plan := PlanUndelegation(validators, window.scrtOwed, config.params.maxUnbondEntries);
        if plan.Err? {
          return Ok([]);
        }
      }
      r := CloseOpenWindow(now);
    }

    method AdvanceWindow(q: Chain) returns (r: Outcome<seq<Msg>>)
      requires Valid()
      modifies this
      ensures Did(r, Engine.AdvanceWindow(old(View()), q))
    {
      var _ :- AssertClosable(windows[openWindow], q.now);
      r := CloseOpenWindow(q.now);
    }

    // ---- deposits and withdrawals ----

    method Bootstrap(q: Chain, sender: Addr, tokenAddr: Addr, funds: seq<Coin>) returns (r: Outcome<seq<Msg>>)
      requires Valid()
      modifies this`config, this`validators, this`totals
      ensures Did(r, Engine.Bootstrap(old(View()), q, sender, tokenAddr, funds))
    {
      if config.deployer.None? {
        return Err(TokenAlreadyRegistered);
      }
      if config.deployer.value != sender {
        return Err(Unauthorized);
      }
      if config.token.Some? {
        return Err(TokenAlreadyRegistered);
      }
      var seed :- ExactFunds(funds, config.bondedDenom);
      if seed < MIN_BOOTSTRAP_SEED {
        return Err(DepositTooSmall);
      }
      config := config.(deployer := None, token := Some(tokenAddr));
      var i :- SelectForDelegation(validators, seed);
      validators := validators[i := validators[i].(bonded := validators[i].bonded + seed)];
      totals := totals.(totalBonded := totals.totalBonded + seed, totalSupply := totals.totalSupply + seed, lastSyncTime := q.now);
      r := Ok([RegisterReceive, Mint(SELF, seed), Delegate(validators[i].address, seed)]);
    }

    method PlaceStake(i: nat, amount: nat, shares: nat)
      requires Valid() && i < |validators|
      modifies this`validators, this`totals
      ensures Valid() && View() == Placed(old(View()), i, amount, shares)
    {
      validators := validators[i := validators[i].(bonded := validators[i].bonded + amount)];
      totals := totals.(totalBonded := totals.totalBonded + amount, totalSupply := totals.totalSupply + shares);
    }

    method Deposit(q: Chain, sender: Addr, funds: seq<Coin>) returns (r: Outcome<seq<Msg>>)
      requires Valid()
      modifies this
      ensures Did(r, Engine.Deposit(old(View()), q, sender, funds))
    {
      hide Refreshed, SharesForDeposit, ClosedIfOverdue, Placed;
      if config.paused {
        return Err(Paused);
      }
      if config.token.None? {
        return Err(TokenNotRegistered);
      }
      var deposit :- ExactFunds(funds, config.bondedDenom);
      if deposit < config.params.minDeposit {
        return Err(DepositTooSmall);
      }
      var current :- RefreshTotals(q);
      var pool := PoolOf(current, q.balance, deposit);
      var shares :- SharesForDeposit(deposit, pool);
      if shares == 0 {
        return Err(ZeroShares);
      }
      if pool.supply + shares > MAX_TOTAL_SUPPLY {
        return Err(CapExceeded);
      }
      var i :- SelectForDelegation(validators, deposit);
      var target := validators[i].address;
      PlaceStake(i, deposit, shares);
      var closing := CloseWindowIfOverdue(q.now);
      r := Ok([Mint(sender, shares), Delegate(target, deposit)] + closing.value);
    }

    /** Add a claim, merging with any the account already holds against the window. */
    method RecordClaim(who: Addr, window: nat, shares: nat, owed: nat)
      requires Valid()
      modifies this`claims, this`claimIndex
      ensures Valid() && View() == Claimed(old(View()), who, window, shares, owed)
    {
      var k := ClaimKey(who, window);
      if k in claims {
        claims := claims[k := claims[k].(sharesBurned := claims[k].sharesBurned + shares, scrtOwed := claims[k].scrtOwed + owed)];
      } else {
        claims := claims[k := ClaimRecord(window, shares, owed, false)];
        claimIndex := claimIndex[who := IndexFor(claimIndex, who) + [window]];
      }
    }

    method RecordPromise(who: Addr, shares: nat, owed: nat)
      requires Valid()
      modifies this`windows, this`claims, this`claimIndex, this`totals
      ensures Valid() && View() == Promised(old(View()), who, shares, owed)
    {
      var window := windows[openWindow];
      window := window.(sharesBurned := window.sharesBurned + shares, scrtOwed := window.scrtOwed + owed);
      TableUpdate(windows, nextWindowId, openWindow, window);
      windows := windows[openWindow := window];
      RecordClaim(who, openWindow, shares, owed);
      totals := totals.(totalSupply := SatSub(totals.totalSupply, shares), scrtOwedOpen := totals.scrtOwedOpen + owed);
    }

    method Receive(q: Chain, sender: Addr, from: Addr, amount: nat) returns (r: Outcome<seq<Msg>>)
      requires Valid()
      modifies this
      ensures Did(r, Unbond(old(View()), q, sender, from, amount))
    {
      hide Refreshed, AssetsForShares, ClosedIfOverdue, Promised;
      if config.token.None? {
        return Err(TokenNotRegistered);
      }
      if sender != config.token.value {
        return Err(Unauthorized);
      }
      if amount == 0 {
        return Err(ZeroAmount);
      }
      var current :- RefreshTotals(q);
      var owed :- AssetsForShares(amount, PoolOf(current, q.balance, 0));
      if owed == 0 {
        return Err(ZeroShares);
      }
      if windows[openWindow].state != Open {
        return Err(WindowNotOpen);
      }
      RecordPromise(from, amount, owed);
      var closing := CloseWindowIfOverdue(q.now);
      r := Ok([Burn(amount)] + closing.value);
    }

    // ---- maturing windows ----

    /** What windows matured earlier still owe out of the balance. */
    method SpokenFor() returns (n: nat)
      requires Valid()
      ensures n == SumSeq(activeWindows, SpokenAt(View().windows))
    {
      n := 0;
      ghost var t := View().windows;
      for i := 0 to |activeWindows|
        invariant n == SumSeq(activeWindows[..i], SpokenAt(t))
      {
        var w := windows[activeWindows[i]];
        assert activeWindows[..i + 1] == activeWindows[..i] + [activeWindows[i]];
        SumSnoc<nat>(activeWindows[..i], activeWindows[i], SpokenAt(t));
        assert w == t[activeWindows[i]];
        if w.state == Matured {
          n := n + w.Outstanding();
        }
      }
      assert activeWindows[..|activeWindows|] == activeWindows;
    }

    method ReleaseSlots(names: seq<Addr>)
      requires Valid()
      modifies this`validators
      ensures validators == Released(old(validators), names)
    {
      for j := 0 to |names|
        invariant Released(old(validators), names) == Released(validators, names[j..])
      {
        ReleasedOn(validators, names, j);
        validators := ReleaseOne(validators, names[j]);
      }
    }

    method MatureDueWindows(q: Chain, limit: nat) returns (matured: seq<nat>)
      requires Valid()
      modifies this`windows, this`validators, this`totals
      ensures Valid()
      ensures var c := MatureDue(old(View()), q.now, q.balance, limit); View() == c.core && matured == c.matured
    {
      hide MatureFrom, Released, SpokenAt, SumSeq;
      var spokenFor: nat := SpokenFor();
      var release: seq<Addr>, promised: nat, realised: nat := [], 0, 0;
      matured := [];
      var room := Max(limit, 1);
      ghost var t0 := View().windows;
      ghost var whole := MatureFrom(activeWindows, t0, q.now, q.balance, spokenFor, room);
      assert activeWindows[0..] == activeWindows;
      assert [] + whole.matured == whole.matured && [] + whole.release == whole.release;
      var i := 0;
      while i < |activeWindows| && |matured| < room
        invariant i <= |activeWindows| && |matured| <= room && Valid()
        invariant MaturesOn(whole, MatureFrom(activeWindows[i..], Table(windows, nextWindowId), q.now, q.balance, spokenFor, room - |matured|),
                            matured, promised, realised, release)
        invariant matured == [] ==> windows == old(windows)
        modifies this`windows
      {
        hide MaturesOn;
        var id := activeWindows[i];
        var window := windows[id];
        ghost var t := Table(windows, nextWindowId);
        if IsMature(window, q.now) {
          MaturesOnTake(whole, activeWindows, i, t, q.now, q.balance, spokenFor, room - |matured|, matured, promised, realised, release);
          window := Mature(window, SatSub(q.balance, spokenFor));
          spokenFor := spokenFor + window.Payable();
          promised := promised + window.scrtOwed;
          realised := realised + window.Payable();
          release := release + window.validatorsUsed;
          TableUpdate(windows, nextWindowId, id, window);
          windows := windows[id := window];
          matured := matured + [id];
        } else {
          MaturesOnSkip(whole, activeWindows, i, t, q.now, q.balance, spokenFor, room - |matured|, matured, promised, realised, release);
        }
        i := i + 1;
      }
      MaturesOnEnd(whole, activeWindows, i, Table(windows, nextWindowId), q.now, q.balance, spokenFor, room - |matured|,
                   matured, promised, realised, release);
      assert whole.matured == matured && whole.windows == Table(windows, nextWindowId);
      if matured != [] {
        ReleaseSlots(release);
        totals := totals.(scrtOwedUnbonding := SatSub(totals.scrtOwedUnbonding, promised),
                          scrtOwedMatured := totals.scrtOwedMatured + realised);
      }
    }

    method CollectMatured(q: Chain, limit: Option<nat>) returns (r: Outcome<seq<Msg>>)
      requires Valid()
      modifies this
      ensures Did(r, Engine.CollectMatured(old(View()), q, limit))
    {
      hide MatureDue;
      var matured := MatureDueWindows(q, if limit.Some? then limit.value else DEFAULT_SYNC_LIMIT);
      r := Ok([]);
    }

    // ---- claims ----

    /** The claim loop: mark, pay out of the window, settle it when drained. */
    method PayClaims(who: Addr, ids: seq<nat>) returns (r: Outcome<(nat, seq<nat>)>)
      requires Valid()
      modifies this`claims, this`windows
      ensures match ClaimFrom(who, ids, old(claims), old(View()).windows)
              case Ok(x) => r == Ok((x.paid, x.settled)) && Valid() && claims == x.claims && View().windows == x.windows
              case Err(e) => r == Err(e)
    {
      hide ClaimFrom;
      var paid, settled: seq<nat> := 0, [];
      ghost var whole := ClaimFrom(who, ids, claims, View().windows);
      assert ids[0..] == ids;
      assert whole.Ok? ==> [] + whole.value.settled == whole.value.settled;
      for i := 0 to |ids|
        invariant Valid()
        invariant whole == ClaimsOn(paid, settled, ClaimFrom(who, ids[i..], claims, Table(windows, nextWindowId)))
      {
        var id, k := ids[i], ClaimKey(who, ids[i]);
        ghost var t := Table(windows, nextWindowId);
        if k !in claims || claims[k].claimed {
          ClaimsOnSkip(who, ids, i, claims, t);
          continue;
        }
        if id !in windows {
          ClaimsOnFail(who, ids, i, claims, t);
          return Err(WindowNotOpen);
        }
        var window := windows[id];
        if window.state == Unbonding {
          ClaimsOnFail(who, ids, i, claims, t);
          return Err(WindowNotMatured);
        }
        if window.state != Matured {
          ClaimsOnSkip(who, ids, i, claims, t);
          continue;
        }
        ClaimsOnPay(who, ids, i, claims, t, paid, settled);
        var payout := PayoutForClaim(window, claims[k].scrtOwed);
        claims := claims[k := claims[k].(claimed := true)];
        window := window.(scrtClaimed := window.scrtClaimed + payout);
        if IsDrained(window) {
          window := window.(state := Settled);
          settled := settled + [id];
        } else {
          assert settled + [] == settled;
        }
        TableUpdate(windows, nextWindowId, id, window);
        windows := windows[id := window];
        paid := paid + payout;
      }
      ClaimsOnEnd(who, ids, claims, Table(windows, nextWindowId), paid, settled);
      r := Ok((paid, settled));
    }

    /** Drop settled windows from the active list. */
    method PruneSettled(settled: seq<nat>)
      requires Valid()
      modifies this`activeWindows
      ensures Valid() && activeWindows == Without(old(activeWindows), settled)
    {
      var kept: seq<nat> := [];
      for i := 0 to |activeWindows|
        invariant kept == Without(activeWindows[..i], settled)
        invariant forall k :: 0 <= k < |kept| ==> kept[k] < nextWindowId
      {
        assert activeWindows[..i + 1][..i] == activeWindows[..i];
        if activeWindows[i] !in settled {
          kept := kept + [activeWindows[i]];
        }
      }
      assert activeWindows[..|activeWindows|] == activeWindows;
      activeWindows := kept;
    }

    method ClaimMatured(q: Chain, who: Addr, ids: Option<seq<nat>>) returns (r: Outcome<seq<Msg>>)
      requires Valid()
      modifies this
      ensures Did(r, Engine.ClaimMatured(old(View()), q, who, ids))
    {
      hide MatureDue, ClaimFrom, Without;
      var matured := MatureDueWindows(q, U32_MAX);
      var wanted := if ids.Some? then ids.value else IndexFor(claimIndex, who);
      var paidAndSettled :- PayClaims(who, wanted);
      var (paid, settled) := paidAndSettled;
      if paid == 0 {
        return Err(NothingToClaim);
      }
      totals := totals.(scrtOwedMatured := SatSub(totals.scrtOwedMatured, paid));
      PruneSettled(settled);
      r := Ok([Send(who, paid)]);
    }

    /** The part of the pending-claims query that says what can be collected now. */
    method ClaimableNow(who: Addr) returns (total: nat)
      requires Valid()
      ensures total == TotalClaimableNow(View(), who)
    {
      total := 0;
      var index := IndexFor(claimIndex, who);
      ghost var f := ClaimableAt(who, claims, View().windows);
      for i := 0 to |index|
        invariant total == SumSeq(index[..i], f)
      {
        var id, k := index[i], ClaimKey(who, index[i]);
        assert index[..i + 1] == index[..i] + [id];
        SumSnoc<nat>(index[..i], id, f);
        if k in claims && id in windows {
          var payable := PayoutForClaim(windows[id], claims[k].scrtOwed);
          if !claims[k].claimed && windows[id].state == Matured {
            total := total + payable;
          }
        }
      }
      assert index[..|index|] == index;
    }

    // ---- upkeep ----

    method Sync(q: Chain, limit: Option<nat>) returns (r: Outcome<seq<Msg>>)
      requires Valid()
      modifies this`validators, this`totals, this`syncCursor
      ensures Did(r, Engine.Sync(old(View()), q, limit))
    {
      hide Engine.Sync, Reread, TotalBonded, TotalRewards;
      ghost var c := View();
      if validators == [] {
        SyncRefused(c, q, limit);
        return Err(EmptyValidatorSet);
      }
      var cursor := syncCursor;
      if cursor > |validators| {
        SyncRefused(c, q, limit);
        return Err(Overflow);
      }
      var end := Min(cursor + Max(if limit.Some? then limit.value else DEFAULT_SYNC_LIMIT, 1), |validators|);
      var set_ := RereadSlice(validators, q, cursor, end);
      SyncIs(c, q, limit, end);
      SaveSweep(set_, end, q.now, 0);
      if end >= |set_| && config.token.Some? {
        totals := totals.(totalSupply := q.supply);
      }
      r := Ok([]);
    }

    method Compound(q: Chain, limit: Option<nat>) returns (r: Outcome<seq<Msg>>)
      requires Valid()
      modifies this`validators, this`totals, this`syncCursor
      ensures Did(r, Engine.Compound(old(View()), q, limit))
    {
      hide Restaked, WithdrawMsgs, HarvestedSet, TotalBonded, TotalRewards, Engine.Compound, RewardsOn;
      ghost var c := View();
      if validators == [] {
        CompoundRefused(c, q, limit);
        return Err(EmptyValidatorSet);
      }
      var cursor := syncCursor;
      if cursor > |validators| {
        CompoundRefused(c, q, limit);
        return Err(Overflow);
      }
      var end := Min(cursor + Max(if limit.Some? then limit.value else DEFAULT_COMPOUND_LIMIT, 1), |validators|);
      var set_, harvested, messages := HarvestSlice(validators, q, cursor, end);
      var restake := RestakeHarvest(set_, q.balance, harvested);
      CompoundIs(c, q, limit, end, restake);
      if restake.Err? {
        return Err(restake.error);
      }
      SaveSweep(restake.value.vals, end, q.now, restake.value.fee);
      r := Ok(messages + restake.value.msgs);
    }

    /** Store what a sweep leaves, and where the next one starts. */
    method SaveSweep(set_: seq<ValidatorEntry>, end: nat, now: nat, minted: nat)
      requires Valid()
      modifies this`validators, this`totals, this`syncCursor
      ensures Valid()
      ensures var c := old(View());
              View() == c.(vals := set_, cursor := if end >= |set_| then 0 else end,
                           totals := c.totals.(totalBonded := TotalBonded(set_), pendingRewards := TotalRewards(set_),
                                               totalSupply := c.totals.totalSupply + minted,
                                               lastSyncTime := if end >= |set_| then now else c.totals.lastSyncTime))
    {
      var done := end >= |set_|;
      validators := set_;
      syncCursor := if done then 0 else end;
      totals := totals.(totalBonded := TotalBonded(set_), pendingRewards := TotalRewards(set_));
      totals := totals.(totalSupply := totals.totalSupply + minted);
      if done {
        totals := totals.(lastSyncTime := now);
      }
    }

    /** Restake a harvest where it is most needed, and take the fee as shares. */
    method RestakeHarvest(vals: seq<ValidatorEntry>, balance: nat, harvested: nat) returns (r: Outcome<Restake>)
      requires Valid()
      ensures r == Restaked(View(), vals, balance, harvested)
    {
      var set_, messages: seq<Msg>, fee := vals, [], 0;
      if harvested != 0 {
        var before := PoolTotals(TotalBonded(set_), TotalRewards(set_), balance, totals.OwedBacked(), totals.totalSupply);
        var target :- SelectForDelegation(set_, harvested);
        set_ := set_[target := set_[target].(bonded := set_[target].bonded + harvested)];
        messages := [Delegate(set_[target].address, harvested)];
        assert messages + [] == messages;
        fee :- FeeSharesForRewards(harvested, config.params.performanceFeeBps, before);
        if fee != 0 {
          if config.token.None? {
            return Err(TokenNotRegistered);
          }
          messages := messages + [Mint(config.treasury, fee)];
        }
      }
      r := Ok(Restake(set_, messages, fee));
    }

    // ---- the manager ----

    method SetWeights(sender: Addr, weights: seq<ValidatorInit>) returns (r: Outcome<seq<Msg>>)
      requires Valid()
      modifies this`validators
      ensures Did(r, Engine.SetWeights(old(View()), sender, weights))
    {
      if sender != config.manager {
        return Err(Unauthorized);
      }
      var _ :- ValidateManagedWeights(weights, allowlist, config.limits.maxValidatorWeightBps);
      var set_ := ApplyWeights(validators, weights);
      validators := set_;
      r := Ok([]);
    }

    method SetPerformanceFee(sender: Addr, bps: nat) returns (r: Outcome<seq<Msg>>)
      requires Valid()
      modifies this`config
      ensures Did(r, Engine.SetPerformanceFee(old(View()), sender, bps))
    {
      if sender != config.manager {
        return Err(Unauthorized);
      }
      if bps > config.limits.maxPerformanceFeeBps {
        return Err(FeeTooHigh);
      }
      config := config.(params := config.params.(performanceFeeBps := bps));
      r := Ok([]);
    }

    method SetPaused(sender: Addr, paused: bool) returns (r: Outcome<seq<Msg>>)
      requires Valid()
      modifies this`config
      ensures Did(r, Engine.SetPaused(old(View()), sender, paused))
    {
      if sender != config.manager {
        return Err(Unauthorized);
      }
      config := config.(paused := paused);
      r := Ok([]);
    }

    method Rebalance(sender: Addr, plan: seq<RedelegateStep>) returns (r: Outcome<seq<Msg>>)
      requires Valid()
      modifies this`validators
      ensures Did(r, Engine.Rebalance(old(View()), sender, plan))
    {
      hide RebalanceFrom;
      if sender != config.manager {
        return Err(Unauthorized);
      }
      var moved :- MoveStake(validators, plan, allowlist);
      validators := moved.0;
      r := Ok(moved.1);
    }
  }
}
