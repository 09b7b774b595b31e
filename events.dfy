/**
 * Domain events of the bank account, their type and version tags, and the
 * string-carrying error that a rejected command reports.
 */
module Events {

  /** Facts that already happened. Every balance-changing event carries the
      balance the account has after it. */
  datatype Event =
    | AccountOpened(accountId: string)
    | CustomerDepositedMoney(amount: real, balance: real)
    | CustomerWithdrewCash(amount: real, balance: real)
    | CustomerWroteCheck(checkNumber: string, amount: real, balance: real)

  /** True when both events are built by the same variant. */
  predicate SameVariant(a: Event, b: Event) {
    (a.AccountOpened? && b.AccountOpened?) ||
    (a.CustomerDepositedMoney? && b.CustomerDepositedMoney?) ||
    (a.CustomerWithdrewCash? && b.CustomerWithdrewCash?) ||
    (a.CustomerWroteCheck? && b.CustomerWroteCheck?)
  }

  /** The name under which the event store files an event: the variant's own name. */
  function EventType(e: Event): (r: string)
    ensures |r| > 0
    ensures e.AccountOpened? <==> r == "AccountOpened"
    ensures e.CustomerDepositedMoney? <==> r == "CustomerDepositedMoney"
    ensures e.CustomerWithdrewCash? <==> r == "CustomerWithdrewCash"
    ensures e.CustomerWroteCheck? <==> r == "CustomerWroteCheck"
  {
    match e
    case AccountOpened(_) => "AccountOpened"
    case CustomerDepositedMoney(_, _) => "CustomerDepositedMoney"
    case CustomerWithdrewCash(_, _) => "CustomerWithdrewCash"
    case CustomerWroteCheck(_, _, _) => "CustomerWroteCheck"
  }

  /** Every event is at schema version 1.0. */
  function EventVersion(e: Event): (r: string)
    ensures r == "1.0"
  {
    "1.0"
  }

  /** Distinct variants get distinct type tags, and the same variant always the same tag. */
  lemma EventTypeIdentifiesVariant(a: Event, b: Event)
    ensures EventType(a) == EventType(b) <==> SameVariant(a, b)
  {
  }

  /** All events share one version, whatever their variant or payload. */
  lemma EventVersionUniform(a: Event, b: Event)
    ensures EventVersion(a) == EventVersion(b) == "1.0"
  {
  }

  /** Events compare structurally: equal exactly when they are built by the same
      variant from equal field values. */
  lemma EventEqualityIsStructural(a: Event, b: Event)
    ensures a == b <==>
      match a
      case AccountOpened(id) => b.AccountOpened? && b.accountId == id
      case CustomerDepositedMoney(am, bal) =>
        b.CustomerDepositedMoney? && b.amount == am && b.balance == bal
      case CustomerWithdrewCash(am, bal) =>
        b.CustomerWithdrewCash? && b.amount == am && b.balance == bal
      case CustomerWroteCheck(n, am, bal) =>
        b.CustomerWroteCheck? && b.checkNumber == n && b.amount == am && b.balance == bal
  {
  }

  /** The error a rejected command reports: a human-readable message and nothing else. */
  datatype BankAccountError = BankAccountError(message: string)

  /** Builds an error from a message, keeping the message unchanged. */
  function FromMessage(message: string): (r: BankAccountError)
    ensures r.message == message
  {
    BankAccountError(message)
  }

  /** The text an error displays: its message, with nothing added. */
  function Display(err: BankAccountError): (r: string)
    ensures |r| == |err.message|
    ensures forall i :: 0 <= i < |r| ==> r[i] == err.message[i]
  {
    err.message
  }

  /** Displaying an error built from a message gives back that message, so two
      messages give equal errors only when they are the same message. */
  lemma DisplayFromMessage(m1: string, m2: string)
    ensures Display(FromMessage(m1)) == m1
    ensures FromMessage(m1) == FromMessage(m2) <==> m1 == m2
  {
  }

}
