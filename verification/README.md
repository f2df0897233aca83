# Feature-decision engine of the account-migration service

This project models, in Dafny, the part of the migration service that decides
which features a bank customer may use while their accounts are migrated to a
new system. For a customer it takes the account records and the list of
requested feature names. It returns one verdict per feature: an enabled flag
and a human-readable reason.

The model follows the three source files of the engine:

- `migration_model.dfy` (module `MigrationModel`) holds the account record and its
  enumerations: account type, per-account migration status and migration wave.
- `customer_status.dfy` (module `CustomerStatusRollup`) reduces the account
  statuses to one customer status. The most critical status wins, in the order
  DROPPED > IN_PROGRESS > SCHEDULED > COMPLETED/EXCLUDED > NOT_IN_SCOPE.
  `Derive` scans the accounts once and joins the verdict of each account. Its
  contract is the priority rule stated in both directions. Lemmas show that the
  verdict does not depend on how the accounts are ordered or grouped.
- `context.dfy` (module `RulesContext`) is the per-request decision context:
  - the queries that rule conditions ask about the accounts (account-type
    presence, current wave, migratable account types);
  - the two decision maps (feature to enabled flag, feature to reason) as a
    `Decisions` value, with pure functions for every setter the rules call and
    for the default fill-in;
  - the class `CustomerMigrationContext`, whose methods update the two map
    fields in place and are proved to match those functions while keeping the
    maps' key sets equal.
- `feature_service.dfy` (module `FeatureDecisionService`) runs one request.
  It builds a fresh context, derives the status, fires the rules, applies the
  defaults, and projects the maps into an ordered verdict list (`checkFeatures`)
  or into a map keyed by feature name (`getAccountsWithFeatures`).

The rule engine compiles its rules from an external decision table, and its
conditions are not part of this model. One rule-firing pass is therefore an
input: the ordered sequence of context actions performed by the rules that
fire. Each action is `SetFeatureStatus(f, enabled, reason)`,
`SetNumberedFeature(slot, status)` (one of `setFeature1`..`setFeature4`),
`SuppressAllFeatures(reason)` or `EnableAllFeatures(reason)`. The account list,
which the system fetches over HTTP, is also an input.

Notes on the code's behaviour:

- The context has the generic `setFeatureStatus` and four fixed setters
  `setFeature1`..`setFeature4`
  (src/main/java/com/bank/migration/model/rules/CustomerMigrationContext.java:69-100).
  Both are modelled. The four fixed setters are one setter selected by a
  `FeatureSlot`.
- The current wave and the migratable types skip an account whose wave is null
  and an account whose wave is NOT_APPLICABLE
  (CustomerMigrationContext.java:53-54, 62-63).
- The API client rejects a missing account list but not an empty one
  (src/main/java/com/bank/migration/service/MigrationApiClient.java:30).
  `Derive` therefore requires a non-empty list, and so do the two service
  methods that call it. The model has no error path for an empty list.
- The response builder falls back to `true` / "Default: Feature enabled" for a
  feature missing from the maps
  (src/main/java/com/bank/migration/service/FeatureDecisionService.java:63-64).
  The model keeps this fallback in `StatusOf` and proves it is never reached,
  because the defaults step has already decided every requested feature.

## Model

| member | source | states |
|---|---|---|
| CustomerStatusRollup.Derive | src/main/java/com/bank/migration/model/rules/CustomerStatus.java:3-42 | For a non-empty account list, the result is DROPPED iff some account is NOT_MIGRATED. It is IN_PROGRESS iff none is NOT_MIGRATED and some is IN_PROGRESS. It is SCHEDULED iff none is NOT_MIGRATED or IN_PROGRESS and some is SCHEDULED. It is COMPLETED iff all accounts are MIGRATED, and EXCLUDED iff all are EXCLUDED |
| CustomerStatusRollup.DeriveNotInScope | src/main/java/com/bank/migration/model/rules/CustomerStatus.java:38-42 | NOT_IN_SCOPE is the result exactly for the remaining mixes: no NOT_MIGRATED, IN_PROGRESS or SCHEDULED account, and the accounts neither all MIGRATED nor all EXCLUDED |
| CustomerStatusRollup.DeriveAppend | src/main/java/com/bank/migration/model/rules/CustomerStatus.java:3-6 | The status of two groups of accounts taken together is the more critical of the two groups' statuses. Two different terminal statuses give NOT_IN_SCOPE |
| CustomerStatusRollup.DeriveOrderIndependent | src/main/java/com/bank/migration/model/rules/CustomerStatus.java:3-6 | Two account lists with the same elements, in any order, have the same customer status |
| CustomerStatusRollup.DeriveExamples | src/main/java/com/bank/migration/model/rules/CustomerStatus.java:8-42 | Worked cases: a NOT_MIGRATED account forces DROPPED. MIGRATED+MIGRATED gives COMPLETED, EXCLUDED+EXCLUDED gives EXCLUDED, and MIGRATED+EXCLUDED gives NOT_IN_SCOPE |
| RulesContext.HasAccountType | src/main/java/com/bank/migration/model/rules/CustomerMigrationContext.java:33-36 | True exactly when some account has the given type |
| RulesContext.HasSavingsOrCD | src/main/java/com/bank/migration/model/rules/CustomerMigrationContext.java:38-40 | True exactly when some account's type is SAVINGS or CD |
| RulesContext.HasChecking | src/main/java/com/bank/migration/model/rules/CustomerMigrationContext.java:42-44 | True exactly when some account's type is CHECKING |
| RulesContext.HasLendingOrIRA | src/main/java/com/bank/migration/model/rules/CustomerMigrationContext.java:46-48 | True exactly when some account's type is LENDING or IRA |
| RulesContext.CurrentWave | src/main/java/com/bank/migration/model/rules/CustomerMigrationContext.java:50-58 | NOT_APPLICABLE exactly when no account has a wave that is present and not NOT_APPLICABLE. Otherwise the result is the wave of the first such account |
| RulesContext.MigratableAccountTypes | src/main/java/com/bank/migration/model/rules/CustomerMigrationContext.java:60-66 | The result is no longer than the account list. A type occurs in it exactly when some account of that type has a present, non-NOT_APPLICABLE wave |
| RulesContext.MigratableAccountTypesAppend | src/main/java/com/bank/migration/model/rules/CustomerMigrationContext.java:60-66 | The filter of a concatenation is the concatenation of the filters, so account order is preserved |
| RulesContext.MigratableAccountTypesSingle | src/main/java/com/bank/migration/model/rules/CustomerMigrationContext.java:62-64 | A single account contributes its type exactly when its wave is present and not NOT_APPLICABLE. Together with the append lemma this fixes the whole list |
| RulesContext.CurrentWaveIffMigratable | src/main/java/com/bank/migration/model/rules/CustomerMigrationContext.java:50-66 | There is a current wave exactly when the list of migratable account types is non-empty |
| RulesContext.Put | src/main/java/com/bank/migration/model/rules/CustomerMigrationContext.java:69-72 | Afterwards the feature maps to the given flag and reason in both maps. Every other feature is unchanged in both maps. Equal key sets stay equal |
| RulesContext.SaysEnabledIgnoresCase | src/main/java/com/bank/migration/model/rules/CustomerMigrationContext.java:76 | Whether a status means "enabled" does not change when the status is written in capitals |
| RulesContext.SaysEnabledNotBlank | src/main/java/com/bank/migration/model/rules/CustomerMigrationContext.java:75-76 | A status equal to "enabled" ignoring case is never blank after trimming, so it is always recorded |
| RulesContext.SetSlotFeature | src/main/java/com/bank/migration/model/rules/CustomerMigrationContext.java:74-100 | A null or blank status changes nothing. Any other status records "featureN" as enabled iff the status equals "enabled" ignoring case, with reason `<current wave>: featureN <status>`. No other feature changes |
| RulesContext.SetAll | src/main/java/com/bank/migration/model/rules/CustomerMigrationContext.java:113-127 | Every requested feature gets the given flag and reason. Every other feature is unchanged. Equal key sets stay equal |
| RulesContext.Defaults | src/main/java/com/bank/migration/model/rules/CustomerMigrationContext.java:103-110 | Features already in the decision map, and features not requested, are unchanged. Every requested feature without a decision becomes (true, "Default: Feature enabled (not specified in rules)"). Afterwards every requested feature is decided. Equal key sets stay equal |
| RulesContext.DefaultsNoop | src/main/java/com/bank/migration/model/rules/CustomerMigrationContext.java:103-110 | When every requested feature is already decided, applying the defaults changes nothing |
| RulesContext.DefaultsIdempotent | src/main/java/com/bank/migration/model/rules/CustomerMigrationContext.java:103-110 | Applying the defaults twice gives the same maps as applying them once |
| RulesContext.ApplyAction | src/main/java/com/bank/migration/model/rules/CustomerMigrationContext.java:69-127 | Each feature the action writes (per `Writes`) gets exactly the written flag and reason. Every other feature is unchanged. Equal key sets stay equal |
| RulesContext.Fire | src/main/java/com/bank/migration/service/FeatureDecisionService.java:46-53 | A rule-firing pass keeps the key sets of the two maps equal |
| RulesContext.FireAppend | src/main/java/com/bank/migration/service/FeatureDecisionService.java:46-53 | Firing two batches of actions one after the other equals firing their concatenation |
| RulesContext.FireUntouched | src/main/java/com/bank/migration/model/rules/CustomerMigrationContext.java:69-127 | Actions that do not write a feature leave its entries in both maps as they were |
| RulesContext.LastWriteWins | src/main/java/com/bank/migration/model/rules/CustomerMigrationContext.java:69-72 | After a pass, a feature holds the flag and reason of the last action that wrote it |
| RulesContext.CustomerMigrationContext.constructor | src/main/java/com/bank/migration/model/rules/CustomerMigrationContext.java:20-30 | A fresh context holds the given customer, accounts and requested features. Both maps start empty, as their `@Builder.Default` values are. The derived status, which is inferred from the service (see "## Left out"), starts absent |
| RulesContext.CustomerMigrationContext.DeriveCustomerStatus | src/main/java/com/bank/migration/service/FeatureDecisionService.java:42 | Records the rolled-up status of the context's accounts |
| RulesContext.CustomerMigrationContext.SetFeatureStatus | src/main/java/com/bank/migration/model/rules/CustomerMigrationContext.java:69-72 | The new maps are `Put` of the old ones, and the key sets stay equal |
| RulesContext.CustomerMigrationContext.SetFeature | src/main/java/com/bank/migration/model/rules/CustomerMigrationContext.java:74-100 | The new maps are `SetSlotFeature` of the old ones at the accounts' current wave, and the key sets stay equal |
| RulesContext.CustomerMigrationContext.ApplyDefaults | src/main/java/com/bank/migration/model/rules/CustomerMigrationContext.java:103-110 | The loop over the requested features leaves the maps equal to `Defaults` of the old ones, and the key sets stay equal |
| RulesContext.CustomerMigrationContext.SuppressAllFeatures | src/main/java/com/bank/migration/model/rules/CustomerMigrationContext.java:113-119 | Every requested feature is disabled with the given reason (`SetAll` with false). No other feature changes |
| RulesContext.CustomerMigrationContext.EnableAllFeatures | src/main/java/com/bank/migration/model/rules/CustomerMigrationContext.java:121-127 | Every requested feature is enabled with the given reason (`SetAll` with true). No other feature changes |
| RulesContext.CustomerMigrationContext.SetAllRequested | src/main/java/com/bank/migration/model/rules/CustomerMigrationContext.java:115-118 | The forEach loop shared by the two bulk setters leaves the maps equal to `SetAll` of the old ones |
| RulesContext.CustomerMigrationContext.Perform | src/main/java/com/bank/migration/model/rules/CustomerMigrationContext.java:69-127 | Calling the setter an action names leaves the maps equal to `ApplyAction` of the old ones |
| FeatureDecisionService.Outcome | src/main/java/com/bank/migration/service/FeatureDecisionService.java:42-56 | After the rules and the defaults, both maps have the same keys and every requested feature is a key of both |
| FeatureDecisionService.OutcomeWithoutRules | src/main/java/com/bank/migration/service/FeatureDecisionService.java:55-56 | With no rule firing, every requested feature is (true, "Default: Feature enabled (not specified in rules)") |
| FeatureDecisionService.OutcomeUntouchedIsDefault | src/main/java/com/bank/migration/service/FeatureDecisionService.java:55-56 | A requested feature that no fired action writes ends with the default verdict |
| FeatureDecisionService.OutcomeLastWriteWins | src/main/java/com/bank/migration/service/FeatureDecisionService.java:46-56 | A feature written by a fired action ends with the flag and reason of the last action that wrote it. The defaults never override it |
| FeatureDecisionService.FireAllRules | src/main/java/com/bank/migration/service/FeatureDecisionService.java:46-53 | Performing the actions in order leaves the context's maps equal to `Fire` of the old ones, with equal key sets |
| FeatureDecisionService.CheckFeatures | src/main/java/com/bank/migration/service/FeatureDecisionService.java:27-74 | Echoes the customer id. Returns one verdict per requested feature, in request order, duplicates included. Each verdict names its feature and carries the flag and reason found in the maps after the defaults, so the getOrDefault fallback is never taken |
| FeatureDecisionService.SuppressionInfo | src/main/java/com/bank/migration/service/FeatureDecisionService.java:117-125 | The map's keys are exactly the requested features, and each value is the response builder's read of its key |
| FeatureDecisionService.GetAccountsWithFeatures | src/main/java/com/bank/migration/service/FeatureDecisionService.java:76-132 | Echoes the customer id, the derived customer status and the account list. The verdict map is present iff features were asked for with a non-null, non-empty list. When present, its keys are exactly the requested features, and each value names its key and carries that feature's flag and reason after the rules and the defaults |

## Left out

- The HTTP call that fetches the accounts, with its URL templating and error mapping, is left out. The fetched list is a parameter.
- Rule compilation from the external decision table, and the rule engine's matching and firing strategy, are left out. Their conditions are not visible. A firing pass is the ordered sequence of actions it performs.
- HTTP routing, header and path extraction and request validation are left out. They are transport only.
- The response and request classes are modelled only as datatypes with the fields the engine fills. JSON annotations and builders are not modelled.
- Logging and the disposal of the rule session are not modelled.
- The account's `migrationDate` is not modelled. No decision logic reads it.
- Null account types and null migration statuses are not modelled. Null waves, null feature-status strings and a null feature list are modelled as `Option`.
- The Java enums AccountType, MigrationStatus and MigrationWave are not among the visible files. The model defines them itself, in migration_model.dfy, as closed types:
  - AccountType has the five types the engine names (SAVINGS, CD, CHECKING, LENDING, IRA).
  - MigrationStatus has the five statuses the customer-status roll-up names (NOT_MIGRATED, SCHEDULED, IN_PROGRESS, MIGRATED, EXCLUDED). `Derive`'s contract depends on this closure: if the Java enum had further constants, an account with one of them would fall under none of the rules the roll-up documents.
  - MigrationWave is NOT_APPLICABLE or a named wave, whose name is its text in reasons.
- MigrationModel.WaveText: a `Wave` is not restricted to names that differ from "NOT_APPLICABLE" or from each other. So `Wave("NOT_APPLICABLE")` renders like `NotApplicable`, while two constants of a Java enum always render differently. Only the reason text of `setFeature1`..`setFeature4` depends on this; the wave comparisons do not.
- The context's `customerStatus` field and its `deriveCustomerStatus` method are not declared in the visible class (CustomerMigrationContext.java:20-30). The model infers both from the service's calls `context.deriveCustomerStatus()` and `context.getCustomerStatus()` (FeatureDecisionService.java:42-43, 90-91, 96). In the model they are `CustomerMigrationContext.customerStatus`, which the constructor leaves empty, and `CustomerMigrationContext.DeriveCustomerStatus`, which records `Derive` of the accounts. The method's body is not part of this model: `Derive` is defined from the priority order the status enumeration documents, and it requires a non-empty account list.
- A rule-firing pass is assumed to consist only of calls to the four modelled setter kinds: `setFeatureStatus`, `setFeature1`..`setFeature4`, `suppressAllFeatures` and `enableAllFeatures`. The class's Lombok `@Data` annotation (CustomerMigrationContext.java:16) also generates public accessors. The setters `setFeatureDecisions`, `setDecisionReasons`, `setAccounts`, `setRequestedFeatures` and `setCustomerId` are not modelled, nor are the getters that hand out the live maps. A rule action could call them. Two guarantees hold only for passes made of the modelled setters:
  - Equal key sets. `Valid`, `Fire`, `FireAllRules` and `Outcome` promise that the two maps keep equal key sets. A direct `put` on a map returned by a getter, or a map replaced through a setter, can break this.
  - Fixed wave. `Fire` and `FireAllRules` evaluate the current wave once, for the whole pass. A rule calling `setAccounts` in the middle of a pass would change it.
- RulesContext.SaysEnabled: folds case over ASCII letters only. Java's equalsIgnoreCase also folds other Unicode letters, but no non-ASCII letter folds to a letter of "enabled".
