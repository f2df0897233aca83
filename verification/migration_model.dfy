/** The account records the engine reasons over, as the migration API
    delivers them: one record per account of a customer. */
module MigrationModel {

  /** Stands in for a Java reference that may be null. */
  datatype Option<+T> = None | Some(value: T)

  /** The account kinds the decision engine distinguishes. */
  datatype AccountType = Savings | CD | Checking | Lending | IRA

  /** Per-account migration progress. */
  datatype MigrationStatus = NotMigrated | Scheduled | InProgress | Migrated | Excluded

  /** The migration batch an account belongs to, or the sentinel NOT_APPLICABLE. */
  datatype MigrationWave = NotApplicable | Wave(name: string)

  /** The text a wave contributes when it is concatenated into a reason
      (the enum constant's name). */
  function WaveText(w: MigrationWave): string
  {
    match w
    case NotApplicable => "NOT_APPLICABLE"
    case Wave(name) => name
  }

  /** One account record; the wave may be absent (null). */
  datatype Account = Account(
    accountId: string,
    accountType: AccountType,
    migrationStatus: MigrationStatus,
    migrationWave: Option<MigrationWave>)
}
