/** The lifecycle of a batched unbonding window (windows.rs). A window is a value loaded from
    storage, changed locally and saved back, so each step returns the changed window. */
module Windows {
  import opened Prelude
  import opened Types

  function OpenWindow(id: nat, now: nat, windowSecs: nat): UnbondWindow {
    UnbondWindow(id, now, now + windowSecs, 0, 0, 0, None, 0, [], Open)
  }

  function AssertClosable(w: UnbondWindow, now: nat): Outcome<()> {
    if w.state != Open then Err(WindowNotOpen)
    else if now < w.closesAt then Err(WindowNotClosed)
    else Ok(())
  }

  /** A window nobody used settles at once; a used one starts its unbonding period. */
  function Close(w: UnbondWindow, now: nat, unbondingSecs: nat): UnbondWindow {
    if w.scrtOwed == 0 then w.(state := Settled, scrtRealised := Some(0))
    else w.(state := Unbonding, maturesAt := now + unbondingSecs)
  }

  predicate IsMature(w: UnbondWindow, now: nat) {
    w.state == Unbonding && now >= w.maturesAt
  }

  /** Record what a window received, capped by what is there. */
  function Mature(w: UnbondWindow, available: nat): UnbondWindow {
    w.(scrtRealised := Some(Min(w.scrtOwed, available)), state := Matured)
  }

  /** `owed` scaled by how much of `promised` was realised. */
  function Scaled(owed: nat, realised: nat, promised: nat): nat {
    if realised == promised then owed
    else if promised == 0 then 0
    else MulDiv(owed, realised, promised)
  }

  function PayoutForClaim(w: UnbondWindow, claimOwed: nat): nat {
    Scaled(claimOwed, w.Payable(), w.scrtOwed)
  }

  predicate IsDrained(w: UnbondWindow) {
    w.scrtClaimed >= w.Payable()
  }
}
