/** The add-funds dialog (src/components/customer/BalanceManager.tsx): the
    amount typed or picked, the balance previewed, and the credit applied to
    the session's user. */
module Balance {
  import opened Js
  import opened Types
  import opened Auth

  /** The quick-add buttons, in display order. */
  const QuickAmounts: seq<real> := [1000.0, 5000.0, 10000.0, 25000.0, 50000.0]

  /** The credit goes through only for a signed-in user and a positive amount. */
  function MayAddFunds(user: Option<User>, amount: real): (b: bool)
    ensures b ==> user.Some? && PreviewBalance(user, amount) > user.value.balance
    ensures user.Some? && !b ==> PreviewBalance(user, amount) <= user.value.balance
  {
    user.Some? && amount > 0.0
  }

  /** The confirm button is disabled exactly when the amount is not positive;
      with a user signed in, that is exactly when confirming would do nothing. */
  function ConfirmDisabled(amount: real): (d: bool)
    ensures d <==> amount <= 0.0
    ensures forall u: User :: d <==> !MayAddFunds(Some(u), amount)
  {
    amount <= 0.0
  }

  /** The new balance previewed: the current one (0 without a user) plus the
      amount. */
  function PreviewBalance(user: Option<User>, amount: real): (b: real)
    ensures user.None? ==> b == amount
    ensures user.Some? ==> b - user.value.balance == amount
    ensures amount > 0.0 && user.Some? ==> b > user.value.balance
  {
    OrNumber(if user.Some? then Some(user.value.balance) else None, 0.0) + amount
  }

  /** Every quick amount is positive, so picking one enables the confirm
      button. */
  lemma QuickAmountsEnableConfirm(k: int)
    requires 0 <= k < |QuickAmounts|
    ensures QuickAmounts[k] > 0.0 && !ConfirmDisabled(QuickAmounts[k])
  {
  }

  class BalanceManager {
    var addAmount: real
    var isDialogOpen: bool
    const session: Session

    constructor (session: Session)
      ensures this.session == session && addAmount == 0.0 && !isDialogOpen
    {
      this.session := session;
      addAmount := 0.0;
      isDialogOpen := false;
    }

    /** The amount field: text that is not a number reads as 0. */
    method SetAmountInput(parsed: Option<real>)
      modifies this`addAmount
      ensures addAmount == NumberInput(parsed)
    {
      addAmount := NumberInput(parsed);
    }

    /** A quick-add button sets the amount to its value. */
    method QuickAdd(k: int)
      requires 0 <= k < |QuickAmounts|
      modifies this`addAmount
      ensures addAmount in QuickAmounts && addAmount == QuickAmounts[k]
      ensures !ConfirmDisabled(addAmount)
    {
      addAmount := QuickAmounts[k];
      QuickAmountsEnableConfirm(k);
    }

    /** Add funds: without a user or with a non-positive amount nothing
        happens. Otherwise the balance becomes the previewed one and no other
        field of the user changes; the amount resets and the dialog closes. */
    method HandleAddFunds()
      requires session.Valid()
      modifies this, session
      ensures session.Valid()
      ensures !MayAddFunds(old(session.user), old(addAmount)) ==>
                session.user == old(session.user) && addAmount == old(addAmount) && isDialogOpen == old(isDialogOpen)
      ensures MayAddFunds(old(session.user), old(addAmount)) ==>
                session.user == Some(old(session.user).value.(balance := old(PreviewBalance(session.user, addAmount)))) &&
                addAmount == 0.0 && !isDialogOpen
      ensures session.storedToken == old(session.storedToken) && session.isLoading == old(session.isLoading)
    {
      if session.user.None? || addAmount <= 0.0 {
        return;
      }
      var u := session.user.value;
      session.UpdateUser(BalancePatch(u.balance + addAmount));
      MergeLaws(u, EmptyPatch, EmptyPatch, u.balance + addAmount);
      addAmount := 0.0;
      isDialogOpen := false;
    }
  }
}
