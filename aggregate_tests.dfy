/**
 * The aggregate's given/when/then scenarios: replay the given events from the
 * initial state, handle the command, compare with the expected outcome.
 */
module AggregateTests {
  import opened Wrappers
  import opened Commands
  import opened Events
  import opened Aggregate

  /**
   * The outcome of handling cmd after the given history. The opened flag plays
   * no part in it, and after a balance-carrying event the outcome is decided by
   * the balance that event carries.
   */
  function When(given: seq<Event>, cmd: Command): (r: Result<seq<Event>, BankAccountError>)
    ensures r == Handle(AccountState(false, Replay(Initial, given).balance), cmd)
    ensures given != [] && !given[|given| - 1].AccountOpened? ==>
      r == Handle(AccountState(false, given[|given| - 1].balance), cmd)
  {
    Handle(Replay(Initial, given), cmd)
  }

  lemma TestDepositMoney()
    ensures When([], DepositMoney(100.0)) == Ok([CustomerDepositedMoney(100.0, 100.0)])
  {
  }

  lemma TestDepositMoneyWithBalance()
    ensures When([CustomerDepositedMoney(200.0, 200.0)], DepositMoney(100.0)) ==
      Ok([CustomerDepositedMoney(100.0, 300.0)])
  {
  }

  lemma TestWithdrawMoney()
    ensures When([CustomerDepositedMoney(200.0, 200.0)], WithdrawMoney(100.0)) ==
      Ok([CustomerWithdrewCash(100.0, 100.0)])
  {
  }

  lemma TestWithdrawMoneyFundsNotAvailable()
    ensures When([], WithdrawMoney(200.0)) == Err(FromMessage("Insufficient funds"))
  {
  }

  /** The withdrawal scenario through the aggregate object: load the history, then handle. */
  method WithdrawAfterLoad() returns (outcome: Result<seq<Event>, BankAccountError>)
    ensures outcome == Ok([CustomerWithdrewCash(100.0, 100.0)])
  {
    var account := Load([CustomerDepositedMoney(200.0, 200.0)]);
    outcome := Handle(account.State(), WithdrawMoney(100.0));
  }

}
