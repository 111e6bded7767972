/** The part of the chain the contract sees: its delegations and their rewards, its unbonding
    entries, its balance, the derivative token's supply, and block time. */
module Chain {
  import opened Prelude
  import opened Sums
  import opened Types

  datatype Delegation = Delegation(bonded: nat, rewards: nat)

  /** One unbonding entry. Released entries stay in the log, so that what was undelegated, what was
      slashed on the way and what came back can be compared. `window` says which window the
      undelegation was issued for; the chain never reads it. */
  datatype UnbondEntry = UnbondEntry(
    validator: Addr, original: nat, amount: nat, completesAt: nat, window: nat, released: bool)

  datatype Chain = Chain(
    now: nat, balance: nat, delegations: map<Addr, Delegation>, queue: seq<UnbondEntry>,
    supply: nat, ownTokens: nat, unbondTime: nat)
  {
    /** What the staking query reports; `None` reads as zero. */
    function BondedAt(v: Addr): nat { if v in delegations then delegations[v].bonded else 0 }

    function RewardsAt(v: Addr): nat { if v in delegations then delegations[v].rewards else 0 }
  }

  datatype Msg =
    | Mint(recipient: Addr, shares: nat)
    | Burn(shares: nat)
    | RegisterReceive
    | Delegate(validator: Addr, amount: nat)
    | Undelegate(validator: Addr, amount: nat, window: nat)
    | Redelegate(src: Addr, dst: Addr, amount: nat)
    | WithdrawReward(validator: Addr)
    | Send(recipient: Addr, amount: nat)

  const SELF: Addr := "contract"

  /** Live entries against one validator. */
  function LiveOn(v: Addr): UnbondEntry -> nat {
    (e: UnbondEntry) => if e.validator == v && !e.released then 1 else 0
  }

  function LiveEntries(c: Chain, v: Addr): nat { SumSeq(c.queue, LiveOn(v)) }

  /** A change to a delegation first pays out the rewards it has earned. */
  function PayRewards(c: Chain, v: Addr): Chain {
    if v in c.delegations then
      c.(balance := c.balance + c.delegations[v].rewards,
         delegations := c.delegations[v := c.delegations[v].(rewards := 0)])
    else c
  }

  /** Put a delegation's stake at `bonded`; an emptied delegation disappears. */
  function SetBonded(c: Chain, v: Addr, bonded: nat): Chain {
    if bonded == 0 then c.(delegations := c.delegations - {v})
    else c.(delegations := c.delegations[v := Delegation(bonded, c.RewardsAt(v))])
  }

  /** Run one message; `None` is a rejection, which reverts the transaction. */
  function Exec(c: Chain, m: Msg): Option<Chain> {
    match m
    case Mint(to, n) =>
      Some(c.(supply := c.supply + n, ownTokens := if to == SELF then c.ownTokens + n else c.ownTokens))
    case Burn(n) =>
      if n > c.ownTokens || n > c.supply then None
      else Some(c.(supply := c.supply - n, ownTokens := c.ownTokens - n))
    case RegisterReceive => Some(c)
    case Delegate(v, n) =>
      if n == 0 || n > c.balance then None else
        var p := PayRewards(c, v);
        Some(SetBonded(p.(balance := p.balance - n), v, p.BondedAt(v) + n))
    case Undelegate(v, n, w) =>
      if n == 0 || n > c.BondedAt(v) || LiveEntries(c, v) >= CHAIN_MAX_UNBOND_ENTRIES then None else
        var p := PayRewards(c, v);
        Some(SetBonded(p.(queue := p.queue + [UnbondEntry(v, n, n, c.now + c.unbondTime, w, false)]),
                       v, p.BondedAt(v) - n))
    case Redelegate(a, b, n) =>
      if n == 0 || n > c.BondedAt(a) || a == b then None else
        var p := PayRewards(PayRewards(c, a), b);
        Some(SetBonded(SetBonded(p, a, p.BondedAt(a) - n), b, p.BondedAt(b) + n))
    case WithdrawReward(v) =>
      if v !in c.delegations then None else Some(PayRewards(c, v))
    case Send(to, n) =>
      if n > c.balance then None else Some(c.(balance := c.balance - n))
  }

  function Run(c: Chain, ms: seq<Msg>): Option<Chain>
    decreases |ms|
  {
    if ms == [] then Some(c) else
      match Exec(c, ms[0])
      case None => None
      case Some(d) => Run(d, ms[1..])
  }

  lemma {:induction false} RunConcat(c: Chain, ms: seq<Msg>, ns: seq<Msg>)
    ensures Run(c, ms + ns) == (match Run(c, ms) case None => None case Some(d) => Run(d, ns))
    decreases |ms|
  {
    if ms == [] {
      assert ms + ns == ns;
    } else {
      assert (ms + ns)[1..] == ms[1..] + ns;
      if Exec(c, ms[0]).Some? {
        RunConcat(Exec(c, ms[0]).value, ms[1..], ns);
      }
    }
  }

  // ---- what messages can do to each part of the chain ----

  function Paid(m: Msg): nat {
    match m case Delegate(_, n) => n case Send(_, n) => n case _ => 0
  }

  function Sent(m: Msg): nat { if m.Send? then m.amount else 0 }

  function Minted(m: Msg): nat { if m.Mint? then m.shares else 0 }

  function Burned(m: Msg): nat { if m.Burn? then m.shares else 0 }

  /** The unbonding entry a message creates, if it is an undelegation. */
  function EntryOf(m: Msg, at: nat): seq<UnbondEntry> {
    if m.Undelegate? then [UnbondEntry(m.validator, m.amount, m.amount, at, m.window, false)] else []
  }

  /** The unbonding entries a list of messages creates. */
  function NewEntries(ms: seq<Msg>, at: nat): seq<UnbondEntry> {
    if ms == [] then [] else NewEntries(ms[..|ms| - 1], at) + EntryOf(ms[|ms| - 1], at)
  }

  lemma {:induction false} NewEntriesConcat(ms: seq<Msg>, ns: seq<Msg>, at: nat)
    ensures NewEntries(ms + ns, at) == NewEntries(ms, at) + NewEntries(ns, at)
  {
    hide EntryOf;
    if ns == [] {
      assert ms + ns == ms;
      assert NewEntries(ms, at) + [] == NewEntries(ms, at);
    } else {
      var init, last := ns[..|ns| - 1], ns[|ns| - 1];
      NewEntriesConcat(ms, init, at);
      assert (ms + ns)[..|ms + ns| - 1] == ms + init;
      Associate(NewEntries(ms, at), NewEntries(init, at), EntryOf(last, at));
    }
  }

  lemma {:induction false} Associate<T>(a: seq<T>, b: seq<T>, c: seq<T>)
    ensures (a + b) + c == a + (b + c)
  {
  }

  /** `d` follows `c`: nothing changed but what these amounts and entries account for. */
  ghost predicate Follows(c: Chain, d: Chain, entries: seq<UnbondEntry>, paid: nat, burned: nat, minted: nat) {
    && d.now == c.now && d.unbondTime == c.unbondTime
    && d.queue == c.queue + entries
    && d.balance + paid >= c.balance
    && d.supply + burned == c.supply + minted
    && d.ownTokens + burned >= c.ownTokens
    && (c.ownTokens <= c.supply ==> d.ownTokens <= d.supply)
  }

  lemma {:induction false} ExecFrame(c: Chain, m: Msg)
    requires Exec(c, m).Some?
    ensures Follows(c, Exec(c, m).value, NewEntries([m], c.now + c.unbondTime), Paid(m), Burned(m), Minted(m))
  {
    assert [m][..0] == [];
    assert c.queue + [] == c.queue;
  }

  lemma {:induction false} FollowsCompose(c: Chain, d: Chain, e: Chain, s: seq<UnbondEntry>, t: seq<UnbondEntry>,
                                          p: nat, b: nat, m: nat, q: nat, f: nat, n: nat)
    requires Follows(c, d, s, p, b, m) && Follows(d, e, t, q, f, n)
    ensures Follows(c, e, s + t, p + q, b + f, m + n)
  {
  }

  /** The effect of a whole message list on everything except the delegations. */
  lemma {:induction false} RunFrame(c: Chain, ms: seq<Msg>)
    requires Run(c, ms).Some?
    ensures Follows(c, Run(c, ms).value, NewEntries(ms, c.now + c.unbondTime),
                    SumSeq(ms, Paid), SumSeq(ms, Burned), SumSeq(ms, Minted))
    decreases |ms|
  {
    if ms == [] {
      assert c.queue + [] == c.queue;
    } else {
      var at := c.now + c.unbondTime;
      var d := Exec(c, ms[0]).value;
      var e := Run(d, ms[1..]).value;
      ExecFrame(c, ms[0]);
      RunFrame(d, ms[1..]);
      SumCons(ms, Paid);
      SumCons(ms, Burned);
      SumCons(ms, Minted);
      FollowsCompose(c, d, e, NewEntries([ms[0]], at), NewEntries(ms[1..], at), Paid(ms[0]), Burned(ms[0]), Minted(ms[0]),
                     SumSeq(ms[1..], Paid), SumSeq(ms[1..], Burned), SumSeq(ms[1..], Minted));
      NewEntriesSplit(ms, at);
    }
  }

  lemma {:induction false} NewEntriesSplit(ms: seq<Msg>, at: nat)
    requires ms != []
    ensures NewEntries(ms, at) == NewEntries([ms[0]], at) + NewEntries(ms[1..], at)
  {
    NewEntriesConcat([ms[0]], ms[1..], at);
    assert [ms[0]] + ms[1..] == ms;
  }
}
