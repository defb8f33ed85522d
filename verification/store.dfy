/**
 * The database rows the worker reads and writes (the `emails` and
 * `email_accounts` tables of alembic/versions/001_initial_schema.py).
 *
 * Times are plain integers supplied by the caller; nullable columns are
 * `Option`s.  The store is write-through: an assignment to a row is what a
 * later read sees.
 */
module Storage {
  import opened Common

  /** A row of `emails`, keyed by its id in the store. */
  datatype Email = Email(
    accountId: int,
    messageId: string,
    subject: Option<string>,
    sender: Option<string>,
    dateReceived: Option<int>,
    bodyPreview: Option<string>,
    hasAttachments: bool,
    attachmentCount: int,
    category: Category,
    confidence: Option<int>,
    reason: Option<string>,
    status: Status,
    archivedFolder: Option<string>,
    isDeleted: bool,
    deletedAt: Option<int>,
    processedAt: Option<int>,
    processingTimeMs: Option<int>,
    createdAt: int)

  /** A row of `email_accounts`, keyed by its id in the store. */
  datatype Account = Account(
    kind: AccountType,
    emailAddress: string,
    encryptedCredentials: string,
    lastSync: Option<int>,
    lastError: Option<string>,
    totalProcessed: Option<int>)

  /** The unique index on `emails.message_id`: no two rows share a message id. */
  ghost predicate UniqueMessageIds(emails: map<int, Email>) {
    forall i, j :: i in emails && j in emails && emails[i].messageId == emails[j].messageId ==> i == j
  }

  /** The rows respect the unique index and every id lies below the next id to hand out. */
  ghost predicate ValidRows(emails: map<int, Email>, nextId: int) {
    (forall id :: id in emails ==> id < nextId) && UniqueMessageIds(emails)
  }

  class Store {
    var emails: map<int, Email>
    var accounts: map<int, Account>
    /** The id the next inserted email receives. */
    var nextId: int

    ghost predicate Valid()
      reads this
    {
      ValidRows(emails, nextId)
    }

    constructor(accounts: map<int, Account>)
      ensures Valid()
      ensures emails == map[] && this.accounts == accounts
    {
      emails := map[];
      this.accounts := accounts;
      nextId := 1;
    }
  }
}
