/** Transactions as the scheduler sees them, and the messages it exchanges with its workers. */
module Messages {
  type TransactionId = nat
  type BatchId = nat

  datatype Pubkey = Pubkey(value: nat)

  /** One account key of a message, with the message's `is_writable` answer for its index.
      The same key may be listed more than once. */
  datatype AccountAccess = AccountAccess(key: Pubkey, writable: bool)

  datatype Transaction = Transaction(accounts: seq<AccountAccess>, data: seq<nat>)

  datatype MaxAge = MaxAge(epochInvalidationSlot: nat, altInvalidationSlot: nat)

  datatype TransactionTTL = TransactionTTL(transaction: Transaction, maxAge: MaxAge)

  datatype SchedulingBatch = SchedulingBatch(
    batchId: BatchId, ids: seq<TransactionId>, transactions: seq<Transaction>, maxAges: seq<MaxAge>)

  datatype SchedulingBatchResult = SchedulingBatchResult(batch: SchedulingBatch, retryableIndexes: seq<nat>)

  /** The accounts something reads and the accounts it writes. */
  datatype Access = Access(readSet: set<Pubkey>, writeSet: set<Pubkey>) {
    function Plus(other: Access): Access {
      Access(readSet + other.readSet, writeSet + other.writeSet)
    }
  }

  /** Two accesses conflict when one writes an account the other reads or writes. */
  predicate Conflict(a: Access, b: Access) {
    !(a.writeSet !! b.writeSet && a.writeSet !! b.readSet && a.readSet !! b.writeSet)
  }

  /** The writable keys of a message, in order. */
  function WriteKeys(accounts: seq<AccountAccess>): (keys: seq<Pubkey>)
    ensures forall k :: k in keys <==> AccountAccess(k, true) in accounts
  {
    if accounts == [] then []
    else if accounts[0].writable then [accounts[0].key] + WriteKeys(accounts[1..])
    else WriteKeys(accounts[1..])
  }

  /** The other keys of a message, in order. */
  function ReadKeys(accounts: seq<AccountAccess>): (keys: seq<Pubkey>)
    ensures forall k :: k in keys <==> AccountAccess(k, false) in accounts
  {
    if accounts == [] then []
    else if accounts[0].writable then ReadKeys(accounts[1..])
    else [accounts[0].key] + ReadKeys(accounts[1..])
  }

  function AccessOf(tx: Transaction): (a: Access)
    ensures forall k :: k in a.writeSet <==> AccountAccess(k, true) in tx.accounts
    ensures forall k :: k in a.readSet <==> AccountAccess(k, false) in tx.accounts
  {
    Access(set k | k in ReadKeys(tx.accounts), set k | k in WriteKeys(tx.accounts))
  }
}
