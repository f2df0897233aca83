/** The customer-level roll-up of account statuses: the "most critical"
    account status decides, in the priority order
    DROPPED > IN_PROGRESS > SCHEDULED > COMPLETED/EXCLUDED > NOT_IN_SCOPE. */
module CustomerStatusRollup {
  import M = MigrationModel

  datatype CustomerStatus = Dropped | InProgress | Scheduled | Completed | Excluded | NotInScope

  /** Some account of `accounts` has status `s`. */
  predicate AnyHas(accounts: seq<M.Account>, s: M.MigrationStatus)
  {
    exists i :: 0 <= i < |accounts| && accounts[i].migrationStatus == s
  }

  /** Every account of `accounts` has status `s`. */
  predicate AllHave(accounts: seq<M.Account>, s: M.MigrationStatus)
  {
    forall i :: 0 <= i < |accounts| ==> accounts[i].migrationStatus == s
  }

  /** What a single account says about its customer. */
  function Contribution(s: M.MigrationStatus): CustomerStatus
  {
    match s
    case NotMigrated => Dropped
    case InProgress => InProgress
    case Scheduled => Scheduled
    case Migrated => Completed
    case Excluded => Excluded
  }

  /** Combines the verdicts of two groups of accounts: the more critical one
      wins; two different terminal verdicts fall to NOT_IN_SCOPE. */
  function Join(a: CustomerStatus, b: CustomerStatus): CustomerStatus
  {
    if a == Dropped || b == Dropped then Dropped
    else if a == InProgress || b == InProgress then InProgress
    else if a == Scheduled || b == Scheduled then Scheduled
    else if a == b then a
    else NotInScope
  }

  /** The customer status of a non-empty list of accounts, scanning the
      accounts once and joining their contributions. */
  function Derive(accounts: seq<M.Account>): (r: CustomerStatus)
    requires |accounts| > 0
    ensures r == Dropped <==> AnyHas(accounts, M.NotMigrated)
    ensures r == InProgress <==>
      !AnyHas(accounts, M.NotMigrated) && AnyHas(accounts, M.InProgress)
    ensures r == Scheduled <==>
      !AnyHas(accounts, M.NotMigrated) && !AnyHas(accounts, M.InProgress) && AnyHas(accounts, M.Scheduled)
    ensures r == Completed <==> AllHave(accounts, M.Migrated)
    ensures r == Excluded <==> AllHave(accounts, M.Excluded)
  {
    var head := Contribution(accounts[0].migrationStatus);
    if |accounts| == 1 then head
    else
      var tail := accounts[1..];
      var r := Join(head, Derive(tail));
      assert forall s :: AnyHas(accounts, s) <==> accounts[0].migrationStatus == s || AnyHas(tail, s) by {
        forall s ensures AnyHas(accounts, s) <==> accounts[0].migrationStatus == s || AnyHas(tail, s) {
          if AnyHas(tail, s) {
            var j :| 0 <= j < |tail| && tail[j].migrationStatus == s;
            assert accounts[j + 1].migrationStatus == s;
          }
        }
      }
      assert forall s :: AllHave(accounts, s) <==> accounts[0].migrationStatus == s && AllHave(tail, s) by {
        forall s ensures AllHave(accounts, s) <==> accounts[0].migrationStatus == s && AllHave(tail, s) {
          if accounts[0].migrationStatus == s && AllHave(tail, s) {
            forall i | 0 < i < |accounts| ensures accounts[i].migrationStatus == s {
              assert accounts[i] == tail[i - 1];
            }
          }
        }
      }
      r
  }

  /** Any remaining mix of terminal statuses yields NOT_IN_SCOPE. */
  lemma DeriveNotInScope(accounts: seq<M.Account>)
    requires |accounts| > 0
    ensures Derive(accounts) == NotInScope <==>
      && !AnyHas(accounts, M.NotMigrated)
      && !AnyHas(accounts, M.InProgress)
      && !AnyHas(accounts, M.Scheduled)
      && !AllHave(accounts, M.Migrated)
      && !AllHave(accounts, M.Excluded)
  {
  }

  /** The roll-up of a concatenation is the join of the roll-ups: the
      verdict does not depend on how the accounts are grouped. */
  lemma {:induction false} DeriveAppend(a: seq<M.Account>, b: seq<M.Account>)
    requires |a| > 0 && |b| > 0
    ensures Derive(a + b) == Join(Derive(a), Derive(b))
  {
    var ab := a + b;
    forall s ensures AnyHas(ab, s) <==> AnyHas(a, s) || AnyHas(b, s) {
      if AnyHas(a, s) {
        var i :| 0 <= i < |a| && a[i].migrationStatus == s;
        assert ab[i] == a[i];
      }
      if AnyHas(b, s) {
        var i :| 0 <= i < |b| && b[i].migrationStatus == s;
        assert ab[|a| + i] == b[i];
      }
      if AnyHas(ab, s) {
        var i :| 0 <= i < |ab| && ab[i].migrationStatus == s;
        if i < |a| { assert a[i] == ab[i]; } else { assert b[i - |a|] == ab[i]; }
      }
    }
    forall s ensures AllHave(ab, s) <==> AllHave(a, s) && AllHave(b, s) {
      if AllHave(ab, s) {
        forall i | 0 <= i < |a| ensures a[i].migrationStatus == s { assert ab[i] == a[i]; }
        forall i | 0 <= i < |b| ensures b[i].migrationStatus == s { assert ab[|a| + i] == b[i]; }
      }
      if AllHave(a, s) && AllHave(b, s) {
        forall i | 0 <= i < |ab| ensures ab[i].migrationStatus == s {
          if i < |a| { assert a[i] == ab[i]; } else { assert b[i - |a|] == ab[i]; }
        }
      }
    }
    DeriveNotInScope(a);
    DeriveNotInScope(b);
    DeriveNotInScope(ab);
  }

  /** Reordering the accounts does not change the customer status. */
  lemma {:induction false} DeriveOrderIndependent(a: seq<M.Account>, b: seq<M.Account>)
    requires |a| > 0 && |b| > 0 && multiset(a) == multiset(b)
    ensures Derive(a) == Derive(b)
  {
    forall s ensures AnyHas(a, s) <==> AnyHas(b, s) {
      if AnyHas(a, s) {
        var i :| 0 <= i < |a| && a[i].migrationStatus == s;
        assert a[i] in multiset(a);
        var j :| 0 <= j < |b| && b[j] == a[i];
      }
      if AnyHas(b, s) {
        var j :| 0 <= j < |b| && b[j].migrationStatus == s;
        assert b[j] in multiset(b);
        var i :| 0 <= i < |a| && a[i] == b[j];
      }
    }
    forall s ensures AllHave(a, s) <==> AllHave(b, s) {
      if AllHave(a, s) {
        forall j | 0 <= j < |b| ensures b[j].migrationStatus == s {
          assert b[j] in multiset(a);
          var i :| 0 <= i < |a| && a[i] == b[j];
        }
      }
      if AllHave(b, s) {
        forall i | 0 <= i < |a| ensures a[i].migrationStatus == s {
          assert a[i] in multiset(b);
          var j :| 0 <= j < |b| && b[j] == a[i];
        }
      }
    }
    DeriveNotInScope(a);
    DeriveNotInScope(b);
  }

  /** Worked cases of the priority order on small account lists. */
  lemma DeriveExamples(a: M.Account, b: M.Account)
    ensures a.migrationStatus == M.NotMigrated ==> Derive([a, b]) == Dropped
    ensures a.migrationStatus == M.Migrated && b.migrationStatus == M.Migrated ==> Derive([a, b]) == Completed
    ensures a.migrationStatus == M.Excluded && b.migrationStatus == M.Excluded ==> Derive([a, b]) == Excluded
    ensures a.migrationStatus == M.Migrated && b.migrationStatus == M.Excluded ==> Derive([a, b]) == NotInScope
  {
  }
}
