/** `ReadWriteAccountSet`: the accounts of the transactions found unschedulable so far in a pass. */
module ReadWriteSets {
  import opened Messages

  /** Some later access of the message is to an account it wrote, or writes one it accessed. */
  predicate SelfConflict(accounts: seq<AccountAccess>) {
    exists i, j :: 0 <= i < j < |accounts| && accounts[i].key == accounts[j].key &&
      (accounts[i].writable || accounts[j].writable)
  }

  class ReadWriteAccountSet {
    var readSet: set<Pubkey>
    var writeSet: set<Pubkey>

    ghost function Locked(): Access
      reads this
    {
      Access(readSet, writeSet)
    }

    constructor ()
      ensures Locked() == Access({}, {})
    {
      readSet, writeSet := {}, {};
    }

    predicate CanRead(key: Pubkey)
      reads this
    {
      key !in writeSet
    }

    predicate CanWrite(key: Pubkey)
      reads this
    {
      key !in writeSet && key !in readSet
    }

    /** True iff the message conflicts with nothing collected here. */
    predicate CheckLocks(tx: Transaction)
      reads this
      ensures CheckLocks(tx) <==> !Conflict(Locked(), AccessOf(tx))
    {
      var ok := forall i :: 0 <= i < |tx.accounts| ==>
        if tx.accounts[i].writable then CanWrite(tx.accounts[i].key) else CanRead(tx.accounts[i].key);
      assert ok <==> !Conflict(Locked(), AccessOf(tx)) by { CheckIsConflict(tx, ok); }
      ok
    }

    lemma CheckIsConflict(tx: Transaction, ok: bool)
      requires ok <==> forall i :: 0 <= i < |tx.accounts| ==>
        if tx.accounts[i].writable then CanWrite(tx.accounts[i].key) else CanRead(tx.accounts[i].key)
      ensures ok <==> !Conflict(Locked(), AccessOf(tx))
    {
      var a := AccessOf(tx);
      if ok {
        forall k | k in a.writeSet ensures CanWrite(k) {
          var i :| 0 <= i < |tx.accounts| && tx.accounts[i] == AccountAccess(k, true);
        }
        forall k | k in a.readSet ensures CanRead(k) {
          var i :| 0 <= i < |tx.accounts| && tx.accounts[i] == AccountAccess(k, false);
        }
      } else {
        var i :| 0 <= i < |tx.accounts| &&
          !(if tx.accounts[i].writable then CanWrite(tx.accounts[i].key) else CanRead(tx.accounts[i].key));
        var x := tx.accounts[i];
        assert x == AccountAccess(x.key, x.writable);
        assert x.key in if x.writable then a.writeSet else a.readSet;
      }
    }

    /** Adds every access of the message. The answer says whether each was available when its turn
        came, so a message that lists an account twice can get in its own way. */
    method TakeLocks(tx: Transaction) returns (allAvailable: bool)
      modifies this
      ensures Locked() == old(Locked()).Plus(AccessOf(tx))
      ensures allAvailable <==> old(CheckLocks(tx)) && !SelfConflict(tx.accounts)
    {
      allAvailable := true;
      ghost var before := Locked();
      for i := 0 to |tx.accounts|
        invariant Locked() == before.Plus(AccessOf(Transaction(tx.accounts[..i], [])))
        invariant allAvailable <==>
          !(Conflict(before, AccessOf(Transaction(tx.accounts[..i], []))) || SelfConflict(tx.accounts[..i]))
      {
        TakeNext(before, tx.accounts, i);
        var key := tx.accounts[i].key;
        var available: bool;
        if tx.accounts[i].writable {
          available := AddWrite(key);
        } else {
          available := AddRead(key);
        }
        allAvailable := allAvailable && available;
      }
      assert tx.accounts[..|tx.accounts|] == tx.accounts;
      assert AccessOf(Transaction(tx.accounts, [])) == AccessOf(tx);
    }

    method AddRead(key: Pubkey) returns (available: bool)
      modifies this
      ensures available <==> old(CanRead(key))
      ensures readSet == old(readSet) + {key} && writeSet == old(writeSet)
    {
      available := CanRead(key);
      readSet := readSet + {key};
    }

    method AddWrite(key: Pubkey) returns (available: bool)
      modifies this
      ensures available <==> old(CanWrite(key))
      ensures writeSet == old(writeSet) + {key} && readSet == old(readSet)
    {
      available := CanWrite(key);
      writeSet := writeSet + {key};
    }
  }

  lemma TakeNext(before: Access, accounts: seq<AccountAccess>, i: nat)
    requires i < |accounts|
    ensures var a := AccessOf(Transaction(accounts[..i], []));
            var b := AccessOf(Transaction(accounts[..i + 1], []));
            var key := accounts[i].key;
            var p := before.Plus(a);
            && before.Plus(b) == (if accounts[i].writable then Access(p.readSet, p.writeSet + {key})
                                  else Access(p.readSet + {key}, p.writeSet))
            && (Conflict(before, b) || SelfConflict(accounts[..i + 1]) <==>
                  || Conflict(before, a) || SelfConflict(accounts[..i])
                  || key in before.writeSet + a.writeSet
                  || (accounts[i].writable && key in before.readSet + a.readSet))
  {
    var key := accounts[i].key;
    var a, b := AccessOf(Transaction(accounts[..i], [])), AccessOf(Transaction(accounts[..i + 1], []));
    assert accounts[..i + 1] == accounts[..i] + [accounts[i]];
    AccessNext(accounts[..i], accounts[i]);
    assert before.Plus(b) == before.Plus(if accounts[i].writable then Access(a.readSet, a.writeSet + {key})
                                         else Access(a.readSet + {key}, a.writeSet));
    SelfConflictNext(accounts[..i], accounts[i]);
  }

  lemma AccessNext(xs: seq<AccountAccess>, x: AccountAccess)
    ensures var a := AccessOf(Transaction(xs, []));
            AccessOf(Transaction(xs + [x], [])) ==
            if x.writable then Access(a.readSet, a.writeSet + {x.key}) else Access(a.readSet + {x.key}, a.writeSet)
  {
    var a, b := AccessOf(Transaction(xs, [])), AccessOf(Transaction(xs + [x], []));
    assert forall y :: y in xs + [x] <==> y in xs || y == x;
    assert x == AccountAccess(x.key, x.writable);
  }

  lemma SelfConflictNext(xs: seq<AccountAccess>, x: AccountAccess)
    ensures var a := AccessOf(Transaction(xs, []));
            SelfConflict(xs + [x]) <==>
            SelfConflict(xs) || x.key in a.writeSet || (x.writable && x.key in a.readSet)
  {
    var a := AccessOf(Transaction(xs, []));
    var ys := xs + [x];
    if SelfConflict(ys) {
      var i, j :| 0 <= i < j < |ys| && ys[i].key == ys[j].key && (ys[i].writable || ys[j].writable);
      assert ys[i] == xs[i] == AccountAccess(xs[i].key, xs[i].writable);
      if j < |xs| { assert ys[j] == xs[j]; }
    }
    if SelfConflict(xs) {
      var i, j :| 0 <= i < j < |xs| && xs[i].key == xs[j].key && (xs[i].writable || xs[j].writable);
      assert ys[i] == xs[i] && ys[j] == xs[j];
    }
    if x.key in a.writeSet || (x.writable && x.key in a.readSet) {
      var y := AccountAccess(x.key, x.key in a.writeSet);
      var i :| 0 <= i < |xs| && xs[i] == y;
      assert ys[i] == y && ys[|xs|] == x;
    }
  }
}
