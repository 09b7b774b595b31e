# Bank account aggregate (event-sourced), modelled in Dafny

This project models the `BankAccount` aggregate of a small CQRS / event-sourcing
example written in Rust. The aggregate is a state machine with two fields:
`opened` (named `isOpen` here, because `opened` is a Dafny keyword) and `balance`.

- `handle` checks a command against the current state. It returns either a list of
  events or an error, and it never changes the state.
- `apply` changes the state. It is the only operation that does.

The account's history is its sequence of events, and its state is rebuilt by
folding `apply` over that history.

Files, one module each:

- `events.dfy` (`Events`): the four event variants and their `event_type` and
  `event_version` tags. Also the error type, with its `From<&str>` and `Display`.
- `commands.dfy` (`Commands`): the four command variants.
- `wrappers.dfy` (`Wrappers`): the `Result` type that `handle` returns.
- `aggregate.dfy` (`Aggregate`):
  - `Handle` is a pure function on a snapshot of the two fields, since `handle` takes `&self`.
  - The `BankAccount` class has the two fields. Its `Apply` method assigns them in place.
  - `Evolve` is the value-level specification of `Apply`, and `Replay` is the left fold of `Evolve`.
  - `Load` rebuilds an object by applying a stored history one event at a time.
  - The lemmas link handling, applying and replaying.
- `execution.dfy` (`Execution`): the load → handle → apply cycle that runs commands
  one after another, and the deposit-then-withdraw scenario.
- `aggregate_tests.dfy` (`AggregateTests`): the aggregate's four given/when/then tests.

`f64` amounts and balances are modelled as exact `real` numbers.

## Model

| member | source | states |
|---|---|---|
| Events.EventType | src/domain/events.rs:43-52 | each variant gets its own name as its tag, and only that variant gets it |
| Events.EventTypeIdentifiesVariant | src/domain/events.rs:43-52 | two events have equal type tags exactly when they are the same variant |
| Events.EventVersion | src/domain/events.rs:54-56 | every event's version is "1.0" |
| Events.EventVersionUniform | src/domain/events.rs:54-56 | all events have the same version, "1.0", whatever their variant or payload |
| Events.EventEqualityIsStructural | src/domain/events.rs:22-40 | two events are equal exactly when they are the same variant with equal field values (the derived `PartialEq`) |
| Events.FromMessage | src/domain/events.rs:70-74 | the error built from a message carries that message unchanged |
| Events.Display | src/domain/events.rs:62-66 | an error displays as exactly its message, character for character |
| Events.DisplayFromMessage | src/domain/events.rs:62-74 | displaying an error built from a message gives back the message; two errors are equal exactly when their messages are |
| Aggregate.Handle | src/domain/aggregate.rs:42-67 | a withdrawal fails exactly when balance − amount < 0; the error is "Insufficient funds" and no events are emitted; an accepted withdrawal emits exactly one `CustomerWithdrewCash{amount, balance − amount}` with a non-negative balance; a deposit always emits exactly one `CustomerDepositedMoney{amount, balance + amount}`; `OpenAccount` and `WriteCheck` succeed with no events |
| Aggregate.BankAccount.constructor | src/domain/aggregate.rs:17-21 | the default account is not opened and has balance 0 |
| Aggregate.BankAccount.Apply | src/domain/aggregate.rs:73-84 | `AccountOpened` sets the opened flag and keeps the balance; every other event sets the balance to the balance it carries, verbatim, and keeps the flag |
| Aggregate.Evolve | src/domain/aggregate.rs:73-84 | the value form of `apply`: the new state is open exactly when the old one was or the event is `AccountOpened`; its balance is the old one after `AccountOpened` and the event's carried balance after any other event. `BankAccount.Apply` is proved to produce exactly this state |
| Aggregate.Replay | src/domain/aggregate.rs:69-84 | the fold of `apply` over a history: the account is open exactly when it started open or some event is `AccountOpened`; the balance is the starting one when no event carries a balance, and the balance carried by the last event when that event carries one |
| Aggregate.Load | src/domain/aggregate.rs:69-84 | applying a stored history event by event to a fresh default account gives the state that `Replay` computes from the initial state |
| Aggregate.ReplayAppend | src/domain/aggregate.rs:73-84 | replaying a concatenated history equals replaying the second part from the state the first part reaches |
| Aggregate.ReplaySnoc | src/domain/aggregate.rs:73-84 | replaying one more event is applying it to the state replayed so far |
| Aggregate.ReplayChained | src/domain/aggregate.rs:73-84 | when each event carries the previous balance moved by its own amount, replaying ends at the start balance plus the signed sum of the amounts |
| Aggregate.ChainedAppend | src/domain/aggregate.rs:73-84 | consistent histories compose: a consistent history followed by one that starts where it ended is consistent, and the signed sums add |
| Aggregate.HandleThenApply | src/domain/aggregate.rs:42-84 | applying the events of an accepted command moves the balance by exactly the deposit (+) or withdrawal (−) amount, or leaves it unchanged; the flag is unchanged; after a withdrawal the balance is ≥ 0; the emitted events are consistent with the current balance |
| Execution.Execute | src/queries.rs:31-43 | running commands one after another through handle and apply records at most one event per command, and only deposit and withdrawal events, so no produced history ever opens the account |
| Execution.ExecuteStateIsReplay | src/queries.rs:31-43 | the state a run reaches equals replaying its recorded history from the starting state, which is how the store rebuilds the aggregate before each command |
| Execution.ExecuteChained | src/domain/aggregate.rs:42-84 | every history produced by running commands through handle and apply is consistent with the balance it started from |
| Execution.ReplayOfExecutedHistory | src/domain/aggregate.rs:42-84 | replaying any produced history from the initial state gives a balance equal to the signed sum of its deposits and withdrawals, and an account that is not opened |
| Execution.DepositThenWithdrawScenario | src/queries.rs:31-43 | deposit 1000 then withdraw 500 on a new account: both are accepted, producing the two expected events and a final balance of 500 |
| AggregateTests.When | src/domain/aggregate.rs:107-166 | the given/when step of the tests: handling a command after a history depends only on the replayed balance, not on the opened flag, and after a balance-carrying event only on the balance that the last event carries |
| AggregateTests.TestDepositMoney | src/domain/aggregate.rs:109-120 | with no history, depositing 100 emits `CustomerDepositedMoney{100, 100}` |
| AggregateTests.TestDepositMoneyWithBalance | src/domain/aggregate.rs:122-139 | after a deposit to 200, depositing 100 emits `CustomerDepositedMoney{100, 300}` |
| AggregateTests.TestWithdrawMoney | src/domain/aggregate.rs:141-158 | after a deposit to 200, withdrawing 100 emits `CustomerWithdrewCash{100, 100}` |
| AggregateTests.TestWithdrawMoneyFundsNotAvailable | src/domain/aggregate.rs:160-166 | with no history, withdrawing 200 fails with "Insufficient funds" |
| AggregateTests.WithdrawAfterLoad | src/domain/aggregate.rs:141-158 | the same withdrawal test, with the history loaded into a `BankAccount` object before handling |

Two consequences of the code:

- `apply` copies each event's carried balance without recomputing it (src/domain/aggregate.rs:78-81). So replaying deposits and withdrawals gives the signed sum of their amounts only when the carried balances are consistent. `ReplayChained` states this under that condition, and `ReplayOfExecutedHistory` proves it for every history that `handle` can produce.
- `handle` takes a `_services` argument (src/domain/aggregate.rs:45) that it never uses, so `Handle` does not take one.

## Left out

- `aggregate_type` (the constant `"bank_account"`, used to route to the store) has no behaviour to verify.
- The services stubs `_atm_withdrawal` and `_validate_check` (src/services.rs) always return `Ok` and are never called by `handle`.
- The logging query in src/queries.rs prints with `println!`. That is I/O. Only its command scenario is modelled.
- The async machinery and the event store (`MemStore`, `CqrsFramework`, `TestFramework`) are library code. `Execute`, `Load` and `When` model how they drive the aggregate, not their internals (persistence, sequence numbers, optimistic concurrency).
- serde serialisation and the `Debug`/`Clone` derives are generated code with no visible logic.
- IEEE-754 behaviour of `f64` is not modelled: rounding, infinities and NaN. A NaN amount would pass the `balance < 0` test. Amounts here are exact reals.
- Commands with negative amounts are not rejected by the code, and they are not rejected here either. So a negative deposit can make the balance negative, and `Handle` only guarantees a non-negative balance after a withdrawal.
