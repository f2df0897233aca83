/** The per-request decision context: the queries rule conditions ask about
    the customer's accounts, the two decision maps the rule actions write,
    and the default fill-in that runs after the rules. */
module RulesContext {
  import opened MigrationModel
  import CS = CustomerStatusRollup

  // ---------------------------------------------------------------------
  // Queries over the account list
  // ---------------------------------------------------------------------

  /** Some account has type `t`. */
  function HasAccountType(accounts: seq<Account>, t: AccountType): (r: bool)
    ensures r <==> exists i :: 0 <= i < |accounts| && accounts[i].accountType == t
  {
    if accounts == [] then false
    else
      var r := accounts[0].accountType == t || HasAccountType(accounts[1..], t);
      assert r ==> exists i :: 0 <= i < |accounts| && accounts[i].accountType == t by {
        if r && accounts[0].accountType != t {
          var j :| 0 <= j < |accounts[1..]| && accounts[1..][j].accountType == t;
          assert accounts[j + 1].accountType == t;
        }
      }
      assert (exists i :: 0 <= i < |accounts| && accounts[i].accountType == t) ==> r by {
        if exists i :: 0 <= i < |accounts| && accounts[i].accountType == t {
          var i :| 0 <= i < |accounts| && accounts[i].accountType == t;
          if i > 0 { assert accounts[1..][i - 1].accountType == t; }
        }
      }
      r
  }

  function HasSavingsOrCD(accounts: seq<Account>): (r: bool)
    ensures r <==> exists i :: 0 <= i < |accounts| && accounts[i].accountType in {Savings, CD}
  {
    HasAccountType(accounts, Savings) || HasAccountType(accounts, CD)
  }

  function HasChecking(accounts: seq<Account>): (r: bool)
    ensures r <==> exists i :: 0 <= i < |accounts| && accounts[i].accountType in {Checking}
  {
    HasAccountType(accounts, Checking)
  }

  function HasLendingOrIRA(accounts: seq<Account>): (r: bool)
    ensures r <==> exists i :: 0 <= i < |accounts| && accounts[i].accountType in {Lending, IRA}
  {
    HasAccountType(accounts, Lending) || HasAccountType(accounts, IRA)
  }

  /** An account takes part in a migration wave: its wave is present and
      not NOT_APPLICABLE. */
  predicate IsMigratable(a: Account)
  {
    a.migrationWave.Some? && a.migrationWave.value != NotApplicable
  }

  /** The wave of the first migratable account, or NOT_APPLICABLE. */
  function CurrentWave(accounts: seq<Account>): (w: MigrationWave)
    ensures w == NotApplicable <==> forall i :: 0 <= i < |accounts| ==> !IsMigratable(accounts[i])
    ensures w != NotApplicable ==>
      exists i :: 0 <= i < |accounts| && IsMigratable(accounts[i]) && accounts[i].migrationWave == Some(w)
        && forall j :: 0 <= j < i ==> !IsMigratable(accounts[j])
  {
    if accounts == [] then NotApplicable
    else if IsMigratable(accounts[0]) then accounts[0].migrationWave.value
    else
      var w := CurrentWave(accounts[1..]);
      assert w == NotApplicable <==> forall i :: 0 <= i < |accounts| ==> !IsMigratable(accounts[i]) by {
        if w == NotApplicable {
          forall i | 0 < i < |accounts| ensures !IsMigratable(accounts[i]) {
            assert accounts[i] == accounts[1..][i - 1];
          }
        } else {
          var k :| 0 <= k < |accounts[1..]| && IsMigratable(accounts[1..][k]);
          assert accounts[k + 1] == accounts[1..][k];
        }
      }
      assert w != NotApplicable ==>
        exists i :: 0 <= i < |accounts| && IsMigratable(accounts[i]) && accounts[i].migrationWave == Some(w)
          && forall j :: 0 <= j < i ==> !IsMigratable(accounts[j]) by {
        if w != NotApplicable {
          var tail := accounts[1..];
          var k :| 0 <= k < |tail| && IsMigratable(tail[k]) && tail[k].migrationWave == Some(w)
            && forall j :: 0 <= j < k ==> !IsMigratable(tail[j]);
          assert accounts[k + 1] == tail[k];
          forall j | 0 <= j < k + 1 ensures !IsMigratable(accounts[j]) {
            if j > 0 { assert accounts[j] == tail[j - 1]; }
          }
        }
      }
      w
  }

  /** The types of the migratable accounts, in account order. */
  function MigratableAccountTypes(accounts: seq<Account>): (r: seq<AccountType>)
    ensures |r| <= |accounts|
    ensures forall t :: t in r <==>
      exists i :: 0 <= i < |accounts| && IsMigratable(accounts[i]) && accounts[i].accountType == t
  {
    if accounts == [] then []
    else
      var rest := MigratableAccountTypes(accounts[1..]);
      var r := if IsMigratable(accounts[0]) then [accounts[0].accountType] + rest else rest;
      assert forall t :: t in r <==>
        exists i :: 0 <= i < |accounts| && IsMigratable(accounts[i]) && accounts[i].accountType == t by {
        forall t ensures t in r <==>
          exists i :: 0 <= i < |accounts| && IsMigratable(accounts[i]) && accounts[i].accountType == t {
          if t in rest {
            var k :| 0 <= k < |accounts[1..]| && IsMigratable(accounts[1..][k]) && accounts[1..][k].accountType == t;
            assert accounts[k + 1] == accounts[1..][k];
          }
          if exists i :: 0 <= i < |accounts| && IsMigratable(accounts[i]) && accounts[i].accountType == t {
            var i :| 0 <= i < |accounts| && IsMigratable(accounts[i]) && accounts[i].accountType == t;
            if i > 0 { assert accounts[1..][i - 1] == accounts[i]; }
          }
        }
      }
      r
  }

  /** Filtering distributes over concatenation: the filter keeps the
      relative order of the accounts. */
  lemma {:induction false} MigratableAccountTypesAppend(a: seq<Account>, b: seq<Account>)
    ensures MigratableAccountTypes(a + b) == MigratableAccountTypes(a) + MigratableAccountTypes(b)
  {
    if a == [] {
      assert a + b == b;
    } else {
      assert (a + b)[1..] == a[1..] + b;
      MigratableAccountTypesAppend(a[1..], b);
    }
  }

  /** A single account contributes its type exactly when it is migratable. */
  lemma MigratableAccountTypesSingle(a: Account)
    ensures MigratableAccountTypes([a]) == if IsMigratable(a) then [a.accountType] else []
  {
  }

  /** There is a current wave exactly when some account type is migratable. */
  lemma {:induction false} CurrentWaveIffMigratable(accounts: seq<Account>)
    ensures CurrentWave(accounts) != NotApplicable <==> |MigratableAccountTypes(accounts)| > 0
  {
    var types := MigratableAccountTypes(accounts);
    if CurrentWave(accounts) != NotApplicable {
      var i :| 0 <= i < |accounts| && IsMigratable(accounts[i]);
      assert accounts[i].accountType in types;
    }
    if |types| > 0 {
      assert types[0] in types;
    }
  }

  // ---------------------------------------------------------------------
  // The two decision maps and the actions rules perform on them
  // ---------------------------------------------------------------------

  const DefaultReason := "Default: Feature enabled (not specified in rules)"

  /** The context's feature -> enabled map and its feature -> reason map. */
  datatype Decisions = Decisions(enabled: map<string, bool>, reasons: map<string, string>)
  {
    /** Both maps have the same keys. */
    predicate InStep()
    {
      enabled.Keys == reasons.Keys
    }
  }

  const NoDecisions := Decisions(map[], map[])

  /** Feature `f` is recorded with verdict `e` and reason `r` in both maps. */
  predicate Has(d: Decisions, f: string, e: bool, r: string)
  {
    f in d.enabled && d.enabled[f] == e && f in d.reasons && d.reasons[f] == r
  }

  /** `d` and `d'` say the same about feature `f`, in both maps. */
  predicate Agree(d: Decisions, d': Decisions, f: string)
  {
    && (f in d.enabled <==> f in d'.enabled)
    && (f in d.enabled ==> d.enabled[f] == d'.enabled[f])
    && (f in d.reasons <==> f in d'.reasons)
    && (f in d.reasons ==> d.reasons[f] == d'.reasons[f])
  }

  /** One `setFeatureStatus(f, e, r)`: records the pair for `f`, last write wins. */
  function Put(d: Decisions, f: string, e: bool, r: string): (d': Decisions)
    ensures Has(d', f, e, r)
    ensures forall g :: g != f ==> Agree(d, d', g)
    ensures d.InStep() ==> d'.InStep()
  {
    Decisions(d.enabled[f := e], d.reasons[f := r])
  }

  /** Java's `trim().isEmpty()`: every character is at most U+0020. */
  predicate IsBlank(s: string)
  {
    forall i :: 0 <= i < |s| ==> s[i] <= ' '
  }

  function UpperAscii(c: char): char
  {
    if 'a' <= c <= 'z' then (c as int - 32) as char else c
  }

  /** `"enabled".equalsIgnoreCase(status)`, with case folded over ASCII letters. */
  predicate SaysEnabled(status: string)
  {
    var word := "enabled";
    |status| == |word| && forall i :: 0 <= i < |word| ==> UpperAscii(status[i]) == UpperAscii(word[i])
  }

  /** A status string keeps its meaning when written in capitals. */
  lemma SaysEnabledIgnoresCase(status: string)
    ensures SaysEnabled(status) <==> SaysEnabled(seq(|status|, i requires 0 <= i < |status| => UpperAscii(status[i])))
  {
  }

  /** A status that says "enabled" is never blank, so it is always recorded. */
  lemma SaysEnabledNotBlank(status: string)
    requires SaysEnabled(status)
    ensures !IsBlank(status)
  {
    assert UpperAscii(status[0]) == 'E';
  }

  /** The four fixed feature setters `setFeature1` .. `setFeature4`. */
  datatype FeatureSlot = Feature1 | Feature2 | Feature3 | Feature4

  function SlotName(slot: FeatureSlot): string
  {
    match slot
    case Feature1 => "feature1"
    case Feature2 => "feature2"
    case Feature3 => "feature3"
    case Feature4 => "feature4"
  }

  /** The reason `setFeatureN` records: wave, slot name and the raw status. */
  function SlotReason(wave: MigrationWave, slot: FeatureSlot, status: string): string
  {
    WaveText(wave) + ": " + SlotName(slot) + " " + status
  }

  /** What `setFeatureN(status)` does to the maps, given the current wave. */
  function SetSlotFeature(d: Decisions, wave: MigrationWave, slot: FeatureSlot, status: Option<string>): (d': Decisions)
    ensures status.None? || IsBlank(status.value) ==> d' == d
    ensures status.Some? && !IsBlank(status.value) ==>
      Has(d', SlotName(slot), SaysEnabled(status.value), SlotReason(wave, slot, status.value))
      && forall g :: g != SlotName(slot) ==> Agree(d, d', g)
  {
    if status.None? || IsBlank(status.value) then d
    else Put(d, SlotName(slot), SaysEnabled(status.value), SlotReason(wave, slot, status.value))
  }

  /** Records the same pair for every feature of `features`, in order
      (`suppressAllFeatures` / `enableAllFeatures`). */
  function SetAll(d: Decisions, features: seq<string>, e: bool, r: string): (d': Decisions)
    ensures forall f :: f in features ==> Has(d', f, e, r)
    ensures forall f :: f !in features ==> Agree(d, d', f)
    ensures d.InStep() ==> d'.InStep()
    decreases |features|
  {
    if features == [] then d
    else
      var d1 := Put(d, features[0], e, r);
      var d' := SetAll(d1, features[1..], e, r);
      assert forall f :: f !in features ==> Agree(d, d1, f) && Agree(d1, d', f);
      d'
  }

  /** `applyDefaults`: every requested feature without a decision is enabled
      with the default reason; decided features are left alone. */
  function Defaults(d: Decisions, features: seq<string>): (d': Decisions)
    ensures forall f :: f in d.enabled || f !in features ==> Agree(d, d', f)
    ensures forall f :: f in features && f !in d.enabled ==> Has(d', f, true, DefaultReason)
    ensures forall f :: f in features ==> f in d'.enabled
    ensures d.InStep() ==> d'.InStep()
    decreases |features|
  {
    if features == [] then d
    else
      var f := features[0];
      Defaults(if f in d.enabled then d else Put(d, f, true, DefaultReason), features[1..])
  }

  /** When every feature is already decided, the defaults change nothing. */
  lemma {:induction false} DefaultsNoop(d: Decisions, features: seq<string>)
    requires forall f :: f in features ==> f in d.enabled
    ensures Defaults(d, features) == d
  {
    if features != [] {
      DefaultsNoop(d, features[1..]);
    }
  }

  /** Applying the defaults twice is the same as applying them once. */
  lemma DefaultsIdempotent(d: Decisions, features: seq<string>)
    ensures Defaults(Defaults(d, features), features) == Defaults(d, features)
  {
    DefaultsNoop(Defaults(d, features), features);
  }

  /** A method a rule's action may call on the context. */
  datatype Action =
    | SetFeatureStatus(feature: string, enabled: bool, reason: string)
    | SetNumberedFeature(slot: FeatureSlot, status: Option<string>)
    | SuppressAllFeatures(suppressReason: string)
    | EnableAllFeatures(enableReason: string)

  /** The pair action `a` records for feature `f`, or None if it leaves `f` alone. */
  function Writes(a: Action, wave: MigrationWave, requested: seq<string>, f: string): Option<(bool, string)>
  {
    match a
    case SetFeatureStatus(g, e, r) => if g == f then Some((e, r)) else None
    case SetNumberedFeature(slot, status) =>
      if f == SlotName(slot) && status.Some? && !IsBlank(status.value)
      then Some((SaysEnabled(status.value), SlotReason(wave, slot, status.value)))
      else None
    case SuppressAllFeatures(r) => if f in requested then Some((false, r)) else None
    case EnableAllFeatures(r) => if f in requested then Some((true, r)) else None
  }

  /** The effect of one action on the maps. */
  function ApplyAction(d: Decisions, wave: MigrationWave, requested: seq<string>, a: Action): (d': Decisions)
    ensures forall f :: Writes(a, wave, requested, f).Some? ==>
      Has(d', f, Writes(a, wave, requested, f).value.0, Writes(a, wave, requested, f).value.1)
    ensures forall f :: Writes(a, wave, requested, f).None? ==> Agree(d, d', f)
    ensures d.InStep() ==> d'.InStep()
  {
    match a
    case SetFeatureStatus(f, e, r) => Put(d, f, e, r)
    case SetNumberedFeature(slot, status) => SetSlotFeature(d, wave, slot, status)
    case SuppressAllFeatures(r) => SetAll(d, requested, false, r)
    case EnableAllFeatures(r) => SetAll(d, requested, true, r)
  }

  /** One rule-firing pass: the actions of the matching rules, in firing order. */
  function Fire(d: Decisions, wave: MigrationWave, requested: seq<string>, actions: seq<Action>): (d': Decisions)
    ensures d.InStep() ==> d'.InStep()
    decreases |actions|
  {
    if actions == [] then d
    else Fire(ApplyAction(d, wave, requested, actions[0]), wave, requested, actions[1..])
  }

  /** Firing two batches one after the other is firing their concatenation. */
  lemma {:induction false} FireAppend(d: Decisions, wave: MigrationWave, requested: seq<string>,
                                     xs: seq<Action>, ys: seq<Action>)
    ensures Fire(d, wave, requested, xs + ys) == Fire(Fire(d, wave, requested, xs), wave, requested, ys)
    decreases |xs|
  {
    if xs == [] {
      assert xs + ys == ys;
    } else {
      assert (xs + ys)[1..] == xs[1..] + ys;
      FireAppend(ApplyAction(d, wave, requested, xs[0]), wave, requested, xs[1..], ys);
    }
  }

  /** Actions that do not write `f` leave its entries as they were. */
  lemma {:induction false} FireUntouched(d: Decisions, wave: MigrationWave, requested: seq<string>,
                                        actions: seq<Action>, f: string)
    requires forall k :: 0 <= k < |actions| ==> Writes(actions[k], wave, requested, f).None?
    ensures Agree(d, Fire(d, wave, requested, actions), f)
    decreases |actions|
  {
    if actions != [] {
      var d1 := ApplyAction(d, wave, requested, actions[0]);
      FireUntouched(d1, wave, requested, actions[1..], f);
    }
  }

  /** Last write wins: the final entry of `f` is the one written by the last
      action that writes it. */
  lemma LastWriteWins(d: Decisions, wave: MigrationWave, requested: seq<string>,
                      before: seq<Action>, a: Action, after: seq<Action>, f: string)
    requires Writes(a, wave, requested, f).Some?
    requires forall k :: 0 <= k < |after| ==> Writes(after[k], wave, requested, f).None?
    ensures Has(Fire(d, wave, requested, before + [a] + after), f,
                Writes(a, wave, requested, f).value.0, Writes(a, wave, requested, f).value.1)
  {
    FireAppend(d, wave, requested, before + [a], after);
    FireAppend(d, wave, requested, before, [a]);
    var d1 := Fire(d, wave, requested, before);
    assert Fire(d1, wave, requested, [a]) == ApplyAction(d1, wave, requested, a);
    FireUntouched(ApplyAction(d1, wave, requested, a), wave, requested, after, f);
  }

  // ---------------------------------------------------------------------
  // The context object
  // ---------------------------------------------------------------------

  class CustomerMigrationContext {
    const customerId: string
    const accounts: seq<Account>
    const requestedFeatures: seq<string>
    var customerStatus: Option<CS.CustomerStatus>
    var featureDecisions: map<string, bool>
    var decisionReasons: map<string, string>

    /** The two decision maps have the same keys. */
    predicate Valid()
      reads this
    {
      featureDecisions.Keys == decisionReasons.Keys
    }

    function State(): Decisions
      reads this
    {
      Decisions(featureDecisions, decisionReasons)
    }

    /** A fresh context: no status derived yet, no decisions. */
    constructor (customerId: string, accounts: seq<Account>, requestedFeatures: seq<string>)
      ensures this.customerId == customerId && this.accounts == accounts
      ensures this.requestedFeatures == requestedFeatures
      ensures customerStatus == None && State() == NoDecisions && Valid()
    {
      this.customerId := customerId;
      this.accounts := accounts;
      this.requestedFeatures := requestedFeatures;
      customerStatus := None;
      featureDecisions := map[];
      decisionReasons := map[];
    }

    /** Records the rolled-up status of the accounts. */
    method DeriveCustomerStatus()
      requires |accounts| > 0
      modifies this`customerStatus
      ensures customerStatus == Some(CS.Derive(accounts))
    {
      customerStatus := Some(CS.Derive(accounts));
    }

    method SetFeatureStatus(feature: string, enabled: bool, reason: string)
      requires Valid()
      modifies this`featureDecisions, this`decisionReasons
      ensures Valid()
      ensures State() == Put(old(State()), feature, enabled, reason)
    {
      featureDecisions := featureDecisions[feature := enabled];
      decisionReasons := decisionReasons[feature := reason];
    }

    /** `setFeature1` .. `setFeature4`, selected by `slot`. */
    method SetFeature(slot: FeatureSlot, status: Option<string>)
      requires Valid()
      modifies this`featureDecisions, this`decisionReasons
      ensures Valid()
      ensures State() == SetSlotFeature(old(State()), CurrentWave(accounts), slot, status)
    {
      if status.Some? && !IsBlank(status.value) {
        var s := status.value;
        SetFeatureStatus(SlotName(slot), SaysEnabled(s), WaveText(CurrentWave(accounts)) + ": " + SlotName(slot) + " " + s);
      }
    }

    method ApplyDefaults()
      requires Valid()
      modifies this`featureDecisions, this`decisionReasons
      ensures Valid()
      ensures State() == Defaults(old(State()), requestedFeatures)
    {
      var i := 0;
      while i < |requestedFeatures|
        invariant 0 <= i <= |requestedFeatures|
        invariant Valid()
        invariant Defaults(State(), requestedFeatures[i..]) == Defaults(old(State()), requestedFeatures)
      {
        var feature := requestedFeatures[i];
        if feature !in featureDecisions {
          featureDecisions := featureDecisions[feature := true];
          decisionReasons := decisionReasons[feature := DefaultReason];
        }
        i := i + 1;
      }
    }

    method SuppressAllFeatures(reason: string)
      requires Valid()
      modifies this`featureDecisions, this`decisionReasons
      ensures Valid()
      ensures State() == SetAll(old(State()), requestedFeatures, false, reason)
    {
      SetAllRequested(false, reason);
    }

    method EnableAllFeatures(reason: string)
      requires Valid()
      modifies this`featureDecisions, this`decisionReasons
      ensures Valid()
      ensures State() == SetAll(old(State()), requestedFeatures, true, reason)
    {
      SetAllRequested(true, reason);
    }

    /** The loop shared by the two legacy bulk setters. */
    method SetAllRequested(enabled: bool, reason: string)
      requires Valid()
      modifies this`featureDecisions, this`decisionReasons
      ensures Valid()
      ensures State() == SetAll(old(State()), requestedFeatures, enabled, reason)
    {
      var i := 0;
      while i < |requestedFeatures|
        invariant 0 <= i <= |requestedFeatures|
        invariant Valid()
        invariant SetAll(State(), requestedFeatures[i..], enabled, reason)
               == SetAll(old(State()), requestedFeatures, enabled, reason)
      {
        var feature := requestedFeatures[i];
        featureDecisions := featureDecisions[feature := enabled];
        decisionReasons := decisionReasons[feature := reason];
        i := i + 1;
      }
    }

    /** A rule's action calling one of the setters above. */
    method Perform(a: Action)
      requires Valid()
      modifies this`featureDecisions, this`decisionReasons
      ensures Valid()
      ensures State() == ApplyAction(old(State()), CurrentWave(accounts), requestedFeatures, a)
    {
      match a
      case SetFeatureStatus(f, e, r) => SetFeatureStatus(f, e, r);
      case SetNumberedFeature(slot, status) => SetFeature(slot, status);
      case SuppressAllFeatures(r) => SuppressAllFeatures(r);
      case EnableAllFeatures(r) => EnableAllFeatures(r);
    }
  }
}
