/**
 * The command-execution cycle that drives the aggregate: for each command,
 * handle it against the current state; on success record the emitted events
 * and apply them, on rejection record nothing.
 */
module Execution {
  import opened Wrappers
  import opened Commands
  import opened Events
  import opened Aggregate

  /** Where a run of commands ends: the state reached and the events recorded on the way. */
  datatype Run = Run(state: AccountState, history: seq<Event>)

  /**
   * Executes the commands in order from state s. Every command adds at most one
   * event to the history, and only deposits and withdrawals are ever recorded.
   */
  function Execute(s: AccountState, cmds: seq<Command>): (r: Run)
    ensures |r.history| <= |cmds|
    ensures forall i :: 0 <= i < |r.history| ==>
      r.history[i].CustomerDepositedMoney? || r.history[i].CustomerWithdrewCash?
    decreases |cmds|
  {
    if cmds == [] then Run(s, [])
    else
      match Handle(s, cmds[0])
      case Ok(events) =>
        var rest := Execute(Replay(s, events), cmds[1..]);
        Run(rest.state, events + rest.history)
      case Err(_) => Execute(s, cmds[1..])
  }

  /** The state a run reaches is the state obtained by replaying its recorded
      history from where it started, as rebuilding from the store does. */
  lemma {:induction false} ExecuteStateIsReplay(s: AccountState, cmds: seq<Command>)
    ensures Execute(s, cmds).state == Replay(s, Execute(s, cmds).history)
    decreases |cmds|
  {
    if cmds != [] {
      match Handle(s, cmds[0])
      case Ok(events) =>
        var next := Replay(s, events);
        ExecuteStateIsReplay(next, cmds[1..]);
        ReplayAppend(s, events, Execute(next, cmds[1..]).history);
      case Err(_) =>
        ExecuteStateIsReplay(s, cmds[1..]);
    }
  }

  /** Every history the aggregate produces is chained from the balance it started at. */
  lemma {:induction false} ExecuteChained(s: AccountState, cmds: seq<Command>)
    ensures Chained(s.balance, Execute(s, cmds).history)
    decreases |cmds|
  {
    if cmds != [] {
      match Handle(s, cmds[0])
      case Ok(events) =>
        var next := Replay(s, events);
        HandleThenApply(s, cmds[0]);
        ReplayChained(s, events);
        ExecuteChained(next, cmds[1..]);
        ChainedAppend(s.balance, events, Execute(next, cmds[1..]).history);
      case Err(_) =>
        ExecuteChained(s, cmds[1..]);
    }
  }

  /**
   * Replaying any history the aggregate produced from the initial state gives a
   * balance equal to the sum of the signed amounts of its deposits and withdrawals,
   * and an account that is still not opened.
   */
  lemma ReplayOfExecutedHistory(cmds: seq<Command>)
    ensures Replay(Initial, Execute(Initial, cmds).history).balance ==
      NetAmount(Execute(Initial, cmds).history)
    ensures !Replay(Initial, Execute(Initial, cmds).history).isOpen
  {
    ExecuteChained(Initial, cmds);
    ReplayChained(Initial, Execute(Initial, cmds).history);
  }

  /** Deposit 1000 then withdraw 500 from a new account: both are accepted and the balance ends at 500. */
  lemma DepositThenWithdrawScenario()
    ensures Execute(Initial, [DepositMoney(1000.0), WithdrawMoney(500.0)]).history ==
      [CustomerDepositedMoney(1000.0, 1000.0), CustomerWithdrewCash(500.0, 500.0)]
    ensures Execute(Initial, [DepositMoney(1000.0), WithdrawMoney(500.0)]).state.balance == 500.0
  {
  }

}
