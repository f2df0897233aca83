/** The orchestration of one request: build a fresh context, derive the
    customer status, fire the rules, apply the defaults and project the
    decision maps into the response. The account list (fetched over HTTP in
    the system) and the actions of the rules that fire (chosen by the rule
    engine) are inputs. */
module FeatureDecisionService {
  import opened MigrationModel
  import CS = CustomerStatusRollup
  import opened RulesContext

  /** The verdict for one feature. */
  datatype FeatureStatus = FeatureStatus(feature: string, enabled: bool, reason: string)

  datatype FeatureCheckResponse = FeatureCheckResponse(customerId: string, features: seq<FeatureStatus>)

  datatype CustomerAccountsResponse = CustomerAccountsResponse(
    customerId: string,
    customerStatus: CS.CustomerStatus,
    accounts: seq<Account>,
    featureSuppressionInfo: Option<map<string, FeatureStatus>>)

  /** The reason the response builder falls back to for a feature missing
      from the reason map. */
  const FallbackReason := "Default: Feature enabled"

  /** The response builder's read of one feature: `getOrDefault(f, true)` and
      `getOrDefault(f, FallbackReason)`. */
  function StatusOf(d: Decisions, f: string): FeatureStatus
  {
    FeatureStatus(f,
      if f in d.enabled then d.enabled[f] else true,
      if f in d.reasons then d.reasons[f] else FallbackReason)
  }

  /** The decision maps at the end of a request: the rules' actions fired on
      empty maps, then the defaults for the requested features. */
  function Outcome(accounts: seq<Account>, features: seq<string>, actions: seq<Action>): (d: Decisions)
    ensures d.InStep()
    ensures forall f :: f in features ==> f in d.enabled && f in d.reasons
  {
    Defaults(Fire(NoDecisions, CurrentWave(accounts), features, actions), features)
  }

  /** With no rule firing, every requested feature gets the default verdict. */
  lemma OutcomeWithoutRules(accounts: seq<Account>, features: seq<string>)
    ensures forall f :: f in features ==> Has(Outcome(accounts, features, []), f, true, DefaultReason)
  {
  }

  /** A requested feature that no fired action writes gets the default verdict. */
  lemma OutcomeUntouchedIsDefault(accounts: seq<Account>, features: seq<string>, actions: seq<Action>, f: string)
    requires f in features
    requires forall k :: 0 <= k < |actions| ==> Writes(actions[k], CurrentWave(accounts), features, f).None?
    ensures Has(Outcome(accounts, features, actions), f, true, DefaultReason)
  {
    FireUntouched(NoDecisions, CurrentWave(accounts), features, actions, f);
  }

  /** A feature written by a fired action keeps the value of the last such
      action: the defaults never override a rule's decision. */
  lemma OutcomeLastWriteWins(accounts: seq<Account>, features: seq<string>,
                             before: seq<Action>, a: Action, after: seq<Action>, f: string)
    requires Writes(a, CurrentWave(accounts), features, f).Some?
    requires forall k :: 0 <= k < |after| ==> Writes(after[k], CurrentWave(accounts), features, f).None?
    ensures Has(Outcome(accounts, features, before + [a] + after), f,
                Writes(a, CurrentWave(accounts), features, f).value.0,
                Writes(a, CurrentWave(accounts), features, f).value.1)
  {
    LastWriteWins(NoDecisions, CurrentWave(accounts), features, before, a, after, f);
  }

  /** One rule-firing pass over the context: the actions of the rules that
      fire, performed in firing order. */
  method FireAllRules(context: CustomerMigrationContext, actions: seq<Action>)
    requires context.Valid()
    modifies context`featureDecisions, context`decisionReasons
    ensures context.Valid()
    ensures context.State() ==
      Fire(old(context.State()), CurrentWave(context.accounts), context.requestedFeatures, actions)
  {
    var i := 0;
    while i < |actions|
      invariant 0 <= i <= |actions|
      invariant context.Valid()
      invariant Fire(context.State(), CurrentWave(context.accounts), context.requestedFeatures, actions[i..])
             == Fire(old(context.State()), CurrentWave(context.accounts), context.requestedFeatures, actions)
    {
      context.Perform(actions[i]);
      i := i + 1;
    }
  }

  /** `checkFeatures`: one verdict per requested feature, in request order,
      each read from the maps after the defaults. */
  method CheckFeatures(customerId: string, accounts: seq<Account>, features: seq<string>, actions: seq<Action>)
    returns (response: FeatureCheckResponse)
    requires |accounts| > 0
    ensures response.customerId == customerId
    ensures |response.features| == |features|
    ensures forall i :: 0 <= i < |features| ==>
      var d := Outcome(accounts, features, actions);
      response.features[i] == FeatureStatus(features[i], d.enabled[features[i]], d.reasons[features[i]])
  {
    var context := new CustomerMigrationContext(customerId, accounts, features);
    context.DeriveCustomerStatus();
    FireAllRules(context, actions);
    context.ApplyDefaults();
    var d := context.State();
    response := FeatureCheckResponse(customerId, seq(|features|, i requires 0 <= i < |features| => StatusOf(d, features[i])));
  }

  /** The `featureSuppressionInfo` map: the response builder's read of each
      requested feature, keyed by the feature's name. */
  method SuppressionInfo(d: Decisions, features: seq<string>) returns (info: map<string, FeatureStatus>)
    ensures info.Keys == set f | f in features
    ensures forall f :: f in features ==> f in info && info[f] == StatusOf(d, f)
  {
    info := map[];
    var i := 0;
    while i < |features|
      invariant 0 <= i <= |features|
      invariant info.Keys == set j | 0 <= j < i :: features[j]
      invariant forall f :: f in info ==> info[f] == StatusOf(d, f)
    {
      info := info[features[i] := StatusOf(d, features[i])];
      i := i + 1;
    }
    assert (set j | 0 <= j < |features| :: features[j]) == set f | f in features by {
      forall f | f in features ensures f in set j | 0 <= j < |features| :: features[j] {
        var j :| 0 <= j < |features| && features[j] == f;
      }
    }
  }

  /** `getAccountsWithFeatures`: the accounts and their rolled-up status,
      and, when asked for with a non-empty feature list, the verdicts keyed
      by feature name. */
  method GetAccountsWithFeatures(customerId: string, accounts: seq<Account>, withFeatures: bool,
                                 features: Option<seq<string>>, actions: seq<Action>)
    returns (response: CustomerAccountsResponse)
    requires |accounts| > 0
    ensures response.customerId == customerId
    ensures response.customerStatus == CS.Derive(accounts)
    ensures response.accounts == accounts
    ensures response.featureSuppressionInfo.Some? <==> withFeatures && features.Some? && |features.value| > 0
    ensures response.featureSuppressionInfo.Some? ==>
      var info := response.featureSuppressionInfo.value;
      var d := Outcome(accounts, features.value, actions);
      && info.Keys == set f | f in features.value
      && forall f :: f in features.value ==> f in info && info[f] == FeatureStatus(f, d.enabled[f], d.reasons[f])
  {
    var requested := if features.Some? then features.value else [];
    var context := new CustomerMigrationContext(customerId, accounts, requested);
    context.DeriveCustomerStatus();
    var status := context.customerStatus.value;
    if withFeatures && features.Some? && |features.value| > 0 {
      FireAllRules(context, actions);
      context.ApplyDefaults();
      var info := SuppressionInfo(context.State(), requested);
      response := CustomerAccountsResponse(customerId, status, accounts, Some(info));
    } else {
      response := CustomerAccountsResponse(customerId, status, accounts, None);
    }
  }
}
