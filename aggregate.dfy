/**
 * The BankAccount aggregate: a two-field state machine. Commands are checked
 * against the current state by Handle, which proposes events and never changes
 * anything; events are the only thing that changes the state, through Apply.
 */
module Aggregate {
  import opened Wrappers
  import opened Commands
  import opened Events

  /** A snapshot of the aggregate's two fields. */
  datatype AccountState = AccountState(isOpen: bool, balance: real)

  /** The state of an account with no history: not opened, zero balance. */
  const Initial := AccountState(false, 0.0)

  /** The message of the one rejection the aggregate knows. */
  const InsufficientFunds := FromMessage("Insufficient funds")

  /**
   * Validates a command against the current state. A withdrawal that would
   * take the balance below zero is rejected and emits nothing; any other
   * withdrawal and every deposit emit one event carrying the new balance;
   * opening an account and writing a check emit no events at all.
   */
  function Handle(s: AccountState, cmd: Command): (r: Result<seq<Event>, BankAccountError>)
    ensures r.Err? <==> cmd.WithdrawMoney? && s.balance - cmd.amount < 0.0
    ensures r.Err? ==> r.error == InsufficientFunds && Display(r.error) == "Insufficient funds"
    ensures r.Ok? ==> |r.value| == (if cmd.DepositMoney? || cmd.WithdrawMoney? then 1 else 0)
    ensures r.Ok? && cmd.DepositMoney? ==>
      r.value[0] == CustomerDepositedMoney(cmd.amount, s.balance + cmd.amount)
    ensures r.Ok? && cmd.WithdrawMoney? ==>
      r.value[0] == CustomerWithdrewCash(cmd.amount, s.balance - cmd.amount) &&
      r.value[0].balance >= 0.0
  {
    match cmd
    case WithdrawMoney(amount) =>
      var balance := s.balance - amount;
      if balance < 0.0 then Err(InsufficientFunds)
      else Ok([CustomerWithdrewCash(amount, balance)])
    case DepositMoney(amount) =>
      var balance := s.balance + amount;
      Ok([CustomerDepositedMoney(amount, balance)])
    case _ => Ok([])
  }

  /** The state after one event: opening sets the flag, every other event
      installs the balance it carries, as recorded. */
  function Evolve(s: AccountState, e: Event): (r: AccountState)
    ensures r.isOpen == (s.isOpen || e.AccountOpened?)
    ensures r.balance == if e.AccountOpened? then s.balance else e.balance
  {
    match e
    case AccountOpened(_) => s.(isOpen := true)
    case CustomerDepositedMoney(_, balance) => s.(balance := balance)
    case CustomerWithdrewCash(_, balance) => s.(balance := balance)
    case CustomerWroteCheck(_, _, balance) => s.(balance := balance)
  }

  /**
   * Left fold of Evolve: the state reached by applying the events in order.
   * The account is open exactly when it was open or some event opened it; its
   * balance is the one carried by the last balance-carrying event, or the
   * starting balance when no event carries one.
   */
  function Replay(s: AccountState, events: seq<Event>): (r: AccountState)
    ensures r.isOpen <==> s.isOpen || exists i :: 0 <= i < |events| && events[i].AccountOpened?
    ensures (forall i :: 0 <= i < |events| ==> events[i].AccountOpened?) ==> r.balance == s.balance
    ensures events != [] && !events[|events| - 1].AccountOpened? ==>
      r.balance == events[|events| - 1].balance
    decreases |events|
  {
    if events == [] then s else Replay(Evolve(s, events[0]), events[1..])
  }

  /** The aggregate object; Apply is the only operation that assigns its fields. */
  class BankAccount {
    var isOpen: bool
    var balance: real

    /** The fields as a value. */
    function State(): AccountState
      reads this
    {
      AccountState(isOpen, balance)
    }

    /** The default account. */
    constructor ()
      ensures !isOpen && balance == 0.0
      ensures State() == Initial
    {
      isOpen := false;
      balance := 0.0;
    }

    /** Applies one event in place, trusting its carried balance. */
    method Apply(e: Event)
      modifies this
      ensures e.AccountOpened? ==> isOpen && balance == old(balance)
      ensures !e.AccountOpened? ==> balance == e.balance && isOpen == old(isOpen)
      ensures State() == Evolve(old(State()), e)
    {
      match e {
        case AccountOpened(_) =>
          isOpen := true;
        case CustomerDepositedMoney(_, b) =>
          balance := b;
        case CustomerWithdrewCash(_, b) =>
          balance := b;
        case CustomerWroteCheck(_, _, b) =>
          balance := b;
      }
    }
  }

  /** Rebuilds an aggregate from its stored history, as the event store does on load. */
  method Load(history: seq<Event>) returns (account: BankAccount)
    ensures fresh(account)
    ensures account.State() == Replay(Initial, history)
  {
    account := new BankAccount();
    var i := 0;
    while i < |history|
      invariant 0 <= i <= |history|
      invariant account.State() == Replay(Initial, history[..i])
    {
      ReplaySnoc(Initial, history[..i], history[i]);
      assert history[..i] + [history[i]] == history[..i + 1];
      account.Apply(history[i]);
      i := i + 1;
    }
    assert history[..i] == history;
  }

  /** Replaying a concatenation replays the first part, then the second from where it ended. */
  lemma {:induction false} ReplayAppend(s: AccountState, a: seq<Event>, b: seq<Event>)
    ensures Replay(s, a + b) == Replay(Replay(s, a), b)
    decreases |a|
  {
    if a != [] {
      assert (a + b)[0] == a[0];
      assert (a + b)[1..] == a[1..] + b;
      ReplayAppend(Evolve(s, a[0]), a[1..], b);
    } else {
      assert a + b == b;
    }
  }

  /** Replaying one more event is applying it to the replayed state. */
  lemma ReplaySnoc(s: AccountState, a: seq<Event>, e: Event)
    ensures Replay(s, a + [e]) == Evolve(Replay(s, a), e)
  {
    ReplayAppend(s, a, [e]);
  }

  /** The signed amount by which an event moves the balance. */
  function Delta(e: Event): (r: real) {
    match e
    case AccountOpened(_) => 0.0
    case CustomerDepositedMoney(amount, _) => amount
    case CustomerWithdrewCash(amount, _) => -amount
    case CustomerWroteCheck(_, amount, _) => -amount
  }

  /** The sum of the signed amounts of the events, in order. */
  function NetAmount(events: seq<Event>): (r: real)
    decreases |events|
  {
    if events == [] then 0.0 else Delta(events[0]) + NetAmount(events[1..])
  }

  /** The events, starting from balance b, each carry the previous balance moved by their own amount. */
  predicate Chained(b: real, events: seq<Event>)
    decreases |events|
  {
    events == [] ||
    ((events[0].AccountOpened? || events[0].balance == b + Delta(events[0])) &&
     Chained(b + Delta(events[0]), events[1..]))
  }

  /** Replaying a chained history ends at the start balance plus the signed amounts,
      and never touches the opened flag unless an AccountOpened event is present. */
  lemma {:induction false} ReplayChained(s: AccountState, events: seq<Event>)
    requires Chained(s.balance, events)
    ensures Replay(s, events).balance == s.balance + NetAmount(events)
    decreases |events|
  {
    if events != [] {
      var next := Evolve(s, events[0]);
      assert next.balance == s.balance + Delta(events[0]);
      ReplayChained(next, events[1..]);
    }
  }

  /** Chains compose: a concatenation is chained when both parts are, the second
      starting where the first ends. */
  lemma {:induction false} ChainedAppend(b: real, x: seq<Event>, y: seq<Event>)
    requires Chained(b, x)
    requires Chained(b + NetAmount(x), y)
    ensures Chained(b, x + y)
    ensures NetAmount(x + y) == NetAmount(x) + NetAmount(y)
    decreases |x|
  {
    if x == [] {
      assert x + y == y;
    } else {
      assert (x + y)[0] == x[0];
      assert (x + y)[1..] == x[1..] + y;
      ChainedAppend(b + Delta(x[0]), x[1..], y);
    }
  }

  /**
   * Handling a command and applying what it emits: the events are chained from
   * the current balance, the balance moves by exactly the command's signed amount,
   * the opened flag does not change, and after a withdrawal the balance is not negative.
   */
  lemma HandleThenApply(s: AccountState, cmd: Command)
    requires Handle(s, cmd).Ok?
    ensures Chained(s.balance, Handle(s, cmd).value)
    ensures Replay(s, Handle(s, cmd).value) ==
      AccountState(s.isOpen, s.balance + (match cmd
                                          case DepositMoney(a) => a
                                          case WithdrawMoney(a) => -a
                                          case _ => 0.0))
    ensures cmd.WithdrawMoney? ==> Replay(s, Handle(s, cmd).value).balance >= 0.0
  {
  }

}
