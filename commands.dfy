/**
 * The requests a client sends to a bank account. A command carries only the
 * data needed to express the intent; it holds no logic of its own.
 */
module Commands {

  datatype Command =
    | OpenAccount(accountId: string)
    | DepositMoney(amount: real)
    | WithdrawMoney(amount: real)
    | WriteCheck(checkNumber: string, amount: real)

}
