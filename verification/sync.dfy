/**
 * Mailbox synchronisation (worker/tasks/email_sync.py): storing fetched
 * emails without duplicates, the connector choice with its legacy IMAP
 * credentials, and the paths of `sync_account`.
 *
 * Decryption, the provider's fetch and the refreshed credentials are inputs;
 * time is an integer.  A save that raises is rolled back as a whole.
 */
module Sync {
  import opened Common
  import opened Storage
  import opened Connectors

  // ---------------------------------------------------------------------------
  // _save_emails
  // ---------------------------------------------------------------------------

  /** An email as a connector's `fetch_emails` reports it. */
  datatype FetchedEmail = FetchedEmail(
    messageId: string,
    subject: Option<string>,
    sender: Option<string>,
    dateReceived: Option<int>,
    body: Option<string>,
    hasAttachments: bool,
    attachmentCount: int)

  const PreviewLength := 500

  /** The stored preview: the first 500 characters of a non-empty body, else "". */
  function Preview(body: Option<string>): (r: string)
    ensures |r| <= PreviewLength
    ensures body.Some? ==> r <= body.value
    ensures body.Some? && |body.value| <= PreviewLength ==> r == body.value
  {
    if body.Some? && body.value != "" then Prefix(body.value, PreviewLength) else ""
  }

  /** The row inserted for a fetched email at time `now`: PENDING, with the schema's defaults elsewhere. */
  function Inserted(accountId: int, d: FetchedEmail, now: int): Email {
    Email(accountId, d.messageId, d.subject, d.sender, d.dateReceived, Some(Preview(d.body)),
          d.hasAttachments, d.attachmentCount, UNKNOWN, None, None, PENDING, None, false, None, None, None, now)
  }

  /** The account already has a row with this message id. */
  predicate HeldByAccount(emails: map<int, Email>, accountId: int, messageId: string) {
    exists id :: id in emails && emails[id].accountId == accountId && emails[id].messageId == messageId
  }

  /** Some row, of any account, has this message id. */
  predicate HeldByAny(emails: map<int, Email>, messageId: string) {
    exists id :: id in emails && emails[id].messageId == messageId
  }

  /**
   * The rows and the next id while saving, how many rows were inserted, and
   * the message id whose insertion violated the unique index, if any.
   */
  datatype Saving = Saving(emails: map<int, Email>, nextId: int, count: nat, clash: Option<string>)

  /**
   * One fetched email: skipped when the account already holds it; otherwise
   * inserted, unless another account holds the same message id, which makes
   * the unique index reject the save.
   */
  function SaveStep(s: Saving, accountId: int, d: FetchedEmail, now: int): Saving {
    if s.clash.Some? || HeldByAccount(s.emails, accountId, d.messageId) then s
    else if HeldByAny(s.emails, d.messageId) then s.(clash := Some(d.messageId))
    else Saving(s.emails[s.nextId := Inserted(accountId, d, now)], s.nextId + 1, s.count + 1, None)
  }

  function SaveAll(s: Saving, accountId: int, fetched: seq<FetchedEmail>, now: int): Saving {
    if fetched == [] then s
    else SaveStep(SaveAll(s, accountId, fetched[..|fetched| - 1], now), accountId, fetched[|fetched| - 1], now)
  }

  lemma {:induction false} SaveAllAppend(s: Saving, accountId: int, a: seq<FetchedEmail>, b: seq<FetchedEmail>, now: int)
    ensures SaveAll(s, accountId, a + b, now) == SaveAll(SaveAll(s, accountId, a, now), accountId, b, now)
  {
    if b != [] {
      assert (a + b)[..|a + b| - 1] == a + b[..|b| - 1];
      SaveAllAppend(s, accountId, a, b[..|b| - 1], now);
    } else {
      assert a + b == a;
    }
  }

  lemma {:induction false} ClashSticks(s: Saving, accountId: int, fetched: seq<FetchedEmail>, now: int)
    requires s.clash.Some?
    ensures SaveAll(s, accountId, fetched, now) == s
  {
    if fetched != [] {
      ClashSticks(s, accountId, fetched[..|fetched| - 1], now);
    }
  }

  /** The state of the rows after a save starting from `s0` (see `SaveAllShape`). */
  ghost predicate SavedFrom(s0: Saving, s: Saving, accountId: int) {
    ValidRows(s.emails, s.nextId)
    && s.count >= s0.count && s.nextId - s0.nextId == s.count - s0.count
    && (forall id :: id in s.emails <==> id in s0.emails || s0.nextId <= id < s.nextId)
    && (forall id :: id in s0.emails ==> s.emails[id] == s0.emails[id])
    && (forall id :: id in s.emails && id !in s0.emails ==>
          s.emails[id].accountId == accountId && s.emails[id].status == PENDING
          && s.emails[id].bodyPreview.Some? && |s.emails[id].bodyPreview.value| <= PreviewLength)
  }

  lemma StepKeepsSaved(s0: Saving, s: Saving, accountId: int, d: FetchedEmail, now: int)
    requires SavedFrom(s0, s, accountId)
    ensures SavedFrom(s0, SaveStep(s, accountId, d, now), accountId)
  {
    var t := SaveStep(s, accountId, d, now);
    if s.clash.None? && !HeldByAccount(s.emails, accountId, d.messageId) && !HeldByAny(s.emails, d.messageId) {
      assert s.nextId !in s.emails;
    }
  }

  /**
   * A save keeps the unique index and the id counter sound, keeps every
   * existing row as it was, and adds exactly `count` rows under the next ids,
   * each of them PENDING, of this account, with a preview of at most 500
   * characters.
   */
  lemma {:induction false} SaveAllShape(s0: Saving, accountId: int, fetched: seq<FetchedEmail>, now: int)
    requires ValidRows(s0.emails, s0.nextId)
    ensures SavedFrom(s0, SaveAll(s0, accountId, fetched, now), accountId)
    ensures SaveAll(s0, accountId, fetched, now).count - s0.count <= |fetched|
  {
    if fetched != [] {
      SaveAllShape(s0, accountId, fetched[..|fetched| - 1], now);
      StepKeepsSaved(s0, SaveAll(s0, accountId, fetched[..|fetched| - 1], now), accountId, fetched[|fetched| - 1], now);
    }
  }

  /** A row held by the account stays held through one step. */
  lemma HeldStaysHeldStep(s: Saving, accountId: int, d: FetchedEmail, messageId: string, now: int)
    requires ValidRows(s.emails, s.nextId)
    requires HeldByAccount(s.emails, accountId, messageId)
    ensures HeldByAccount(SaveStep(s, accountId, d, now).emails, accountId, messageId)
  {
    var id :| id in s.emails && s.emails[id].accountId == accountId && s.emails[id].messageId == messageId;
    var t := SaveStep(s, accountId, d, now);
    assert id in t.emails && t.emails[id] == s.emails[id];
  }

  /** After a save that was not rejected, the account holds every fetched message id. */
  lemma {:induction false} SaveAllCovers(s: Saving, accountId: int, fetched: seq<FetchedEmail>, now: int)
    requires s.clash.None? && ValidRows(s.emails, s.nextId)
    ensures var t := SaveAll(s, accountId, fetched, now);
            t.clash.None? ==> forall k :: 0 <= k < |fetched| ==> HeldByAccount(t.emails, accountId, fetched[k].messageId)
  {
    if fetched != [] {
      var front, last := fetched[..|fetched| - 1], fetched[|fetched| - 1];
      SaveAllCovers(s, accountId, front, now);
      var m := SaveAll(s, accountId, front, now);
      var t := SaveStep(m, accountId, last, now);
      SaveAllShape(s, accountId, front, now);
      if t.clash.None? {
        forall k | 0 <= k < |front|
          ensures HeldByAccount(t.emails, accountId, fetched[k].messageId)
        {
          assert fetched[k] == front[k];
          HeldStaysHeldStep(m, accountId, last, fetched[k].messageId, now);
        }
        if !HeldByAccount(m.emails, accountId, last.messageId) {
          assert t.emails[m.nextId].messageId == last.messageId;
        }
      }
    }
  }

  /** Saving a batch whose every message id the account already holds changes nothing. */
  lemma {:induction false} HeldBatchSkipped(s: Saving, accountId: int, fetched: seq<FetchedEmail>, now: int)
    requires s.clash.None?
    requires forall k :: 0 <= k < |fetched| ==> HeldByAccount(s.emails, accountId, fetched[k].messageId)
    ensures SaveAll(s, accountId, fetched, now) == s
  {
    if fetched != [] {
      HeldBatchSkipped(s, accountId, fetched[..|fetched| - 1], now);
    }
  }

  /** Saving the same batch a second time inserts nothing. */
  lemma SaveTwiceInsertsOnce(emails: map<int, Email>, nextId: int, accountId: int, fetched: seq<FetchedEmail>, now: int)
    requires ValidRows(emails, nextId)
    ensures var t := SaveAll(Saving(emails, nextId, 0, None), accountId, fetched, now);
            t.clash.None? ==>
              SaveAll(Saving(t.emails, t.nextId, 0, None), accountId, fetched, now) == Saving(t.emails, t.nextId, 0, None)
  {
    var t := SaveAll(Saving(emails, nextId, 0, None), accountId, fetched, now);
    if t.clash.None? {
      SaveAllCovers(Saving(emails, nextId, 0, None), accountId, fetched, now);
      HeldBatchSkipped(Saving(t.emails, t.nextId, 0, None), accountId, fetched, now);
    }
  }

  /** The account after a successful save: synced now, its total grown by `count`, its error cleared. */
  function Synced(a: Account, count: nat, now: int): (r: Account)
    ensures r.totalProcessed.Some? && r.totalProcessed.value == a.totalProcessed.GetOr(0) + count
    ensures r.lastSync == Some(now) && r.lastError.None?
    ensures r.(lastSync := a.lastSync, totalProcessed := a.totalProcessed, lastError := a.lastError) == a
  {
    a.(lastSync := Some(now), totalProcessed := Some(a.totalProcessed.GetOr(0) + count), lastError := None)
  }

  const DuplicateMessagePrefix := "duplicate key value violates unique constraint \"ix_emails_message_id\": "

  /**
   * `_save_emails`: insert the fetched emails the account does not hold yet,
   * then update the account, in one transaction; an empty batch does nothing.
   */
  method SaveEmails(store: Store, accountId: int, fetched: seq<FetchedEmail>, now: int) returns (r: Result<nat>)
    requires ValidRows(store.emails, store.nextId)
    modifies store
    ensures ValidRows(store.emails, store.nextId)
    ensures fetched == [] ==>
              r == Ok(0) && store.emails == old(store.emails) && store.accounts == old(store.accounts)
              && store.nextId == old(store.nextId)
    ensures var s := SaveAll(Saving(old(store.emails), old(store.nextId), 0, None), accountId, fetched, now);
            fetched != [] ==>
              if s.clash.Some? then
                r == Err(DuplicateMessagePrefix + s.clash.value)
                && store.emails == old(store.emails) && store.accounts == old(store.accounts)
                && store.nextId == old(store.nextId)
              else
                r == Ok(s.count) && store.emails == s.emails && store.nextId == s.nextId
                && store.accounts == (if accountId in old(store.accounts)
                                      then old(store.accounts)[accountId := Synced(old(store.accounts)[accountId], s.count, now)]
                                      else old(store.accounts))
  {
    if fetched == [] {
      return Ok(0);
    }
    ghost var s0 := Saving(store.emails, store.nextId, 0, None);
    var emails0, nextId0 := store.emails, store.nextId;
    var count := 0;
    var i := 0;
    while i < |fetched|
      invariant 0 <= i <= |fetched|
      invariant SaveAll(s0, accountId, fetched[..i], now) == Saving(store.emails, store.nextId, count, None)
      invariant store.accounts == old(store.accounts)
    {
      assert fetched[..i + 1] == fetched[..i] + [fetched[i]];
      SaveAllAppend(s0, accountId, fetched[..i], [fetched[i]], now);
      assert [fetched[i]][..0] == [];
      var d := fetched[i];
      if HeldByAccount(store.emails, accountId, d.messageId) {
        i := i + 1;
        continue;
      }
      if HeldByAny(store.emails, d.messageId) {
        ghost var clashed := SaveAll(s0, accountId, fetched[..i + 1], now);
        assert fetched == fetched[..i + 1] + fetched[i + 1..];
        SaveAllAppend(s0, accountId, fetched[..i + 1], fetched[i + 1..], now);
        ClashSticks(clashed, accountId, fetched[i + 1..], now);
        store.emails, store.nextId := emails0, nextId0;
        return Err(DuplicateMessagePrefix + d.messageId);
      }
      store.emails := store.emails[store.nextId := Inserted(accountId, d, now)];
      store.nextId := store.nextId + 1;
      count := count + 1;
      i := i + 1;
    }
    assert fetched[..i] == fetched;
    SaveAllShape(s0, accountId, fetched, now);
    if accountId in store.accounts {
      store.accounts := store.accounts[accountId := Synced(store.accounts[accountId], count, now)];
    }
    r := Ok(count);
  }

  /** `_update_account_error`: record the message on the account, if it exists. */
  method UpdateAccountError(store: Store, accountId: int, message: string)
    modifies store
    ensures store.accounts == if accountId in old(store.accounts)
                              then old(store.accounts)[accountId := old(store.accounts)[accountId].(lastError := Some(message))]
                              else old(store.accounts)
    ensures store.emails == old(store.emails) && store.nextId == old(store.nextId)
  {
    if accountId in store.accounts {
      store.accounts := store.accounts[accountId := store.accounts[accountId].(lastError := Some(message))];
    }
  }

  // ---------------------------------------------------------------------------
  // _get_connector
  // ---------------------------------------------------------------------------

  /** What `decrypt_credentials` yields: a JSON object, or (legacy format) a bare string, or something else. */
  datatype Decrypted = DecryptedObject(credentials: Credentials) | DecryptedText(text: string) | DecryptedOther

  const LegacyImapPort := 993

  /** The IMAP server guessed from the address of a legacy account. */
  function LegacyHost(email: string): (host: string)
    ensures IsSubstring("@gmail.com", email) ==> host == "imap.gmail.com"
    ensures !IsSubstring("@gmail.com", email) && (IsSubstring("@outlook.com", email) || IsSubstring("@hotmail.com", email))
            ==> host == "outlook.office365.com"
    ensures host == "imap.gmail.com" || host == "outlook.office365.com"
  {
    if IsSubstring("@gmail.com", email) then "imap.gmail.com"
    else if IsSubstring("@outlook.com", email) || IsSubstring("@hotmail.com", email) then "outlook.office365.com"
    else "imap.gmail.com"
  }

  /** The credentials built for a legacy IMAP account from its password. */
  function LegacyCredentials(email: string, password: string): (c: Credentials)
    ensures c.Keys == {"type", "imap_server", "imap_port", "username", "password", "use_ssl"}
    ensures c["imap_port"] == CNumber(993) && c["use_ssl"] == CFlag(true)
    ensures c["username"] == CText(email) && c["password"] == CText(password)
    ensures c["imap_server"] == CText(LegacyHost(email)) && c["type"] == CText("imap")
  {
    map["type" := CText("imap"), "imap_server" := CText(LegacyHost(email)), "imap_port" := CNumber(LegacyImapPort),
        "username" := CText(email), "password" := CText(password), "use_ssl" := CFlag(true)]
  }

  /** A connector of some kind with its credentials, or the exception `_get_connector` raised. */
  datatype Made =
    | MadeImap(credentials: Credentials)
    | MadeGmail(decrypted: Decrypted)
    | MadeMicrosoft(decrypted: Decrypted)
    | MadeValueError(message: string)  // a `ValueError`
    | MadeRaised(message: string)      // any other exception

  /**
   * `_get_connector`: `decrypted` is what `decrypt_credentials` returned or
   * raised; `password` is what `decrypt_password` returns or raises, asked
   * only for a legacy value that is neither an object nor a string.
   */
  function GetConnector(kind: AccountType, email: string, decrypted: Result<Decrypted>, password: Result<string>): Made {
    if kind.IMAP? then
      if decrypted.Err? then MadeValueError("Failed to decrypt credentials: " + decrypted.error)
      else
        match decrypted.value
        case DecryptedObject(c) => MadeImap(c)
        case DecryptedText(t) => MadeImap(LegacyCredentials(email, t))
        case DecryptedOther =>
          if password.Err? then MadeRaised(password.error) else MadeImap(LegacyCredentials(email, password.value))
    else if kind.GMAIL? then
      if decrypted.Err? then MadeValueError("Failed to decrypt Gmail credentials: " + decrypted.error)
      else MadeGmail(decrypted.value)
    else
      if decrypted.Err? then MadeValueError("Failed to decrypt Microsoft credentials: " + decrypted.error)
      else MadeMicrosoft(decrypted.value)
  }

  /**
   * An IMAP account whose credentials are a bare password gets the server of
   * its address's provider, port 993, SSL and its address as user name; an
   * object is used as it is.
   */
  lemma LegacyImapCredentials(email: string, password: string, c: Credentials, other: Result<string>)
    ensures GetConnector(IMAP, email, Ok(DecryptedText(password)), other) == MadeImap(LegacyCredentials(email, password))
    ensures GetConnector(IMAP, email, Ok(DecryptedObject(c)), other) == MadeImap(c)
    ensures IsSubstring("@hotmail.com", email) && !IsSubstring("@gmail.com", email) ==>
              GetConnector(IMAP, email, Ok(DecryptedText(password)), other).credentials["imap_server"]
              == CText("outlook.office365.com")
  {
  }

  /** A decryption failure always becomes a `ValueError`, whatever the account type. */
  lemma DecryptionFailureIsValueError(kind: AccountType, email: string, error: string, password: Result<string>)
    ensures GetConnector(kind, email, Err(error), password).MadeValueError?
  {
  }

  // ---------------------------------------------------------------------------
  // sync_account
  // ---------------------------------------------------------------------------

  const FetchLimit := 50

  /**
   * What `sync_account` returns.  `SyncRejected` is the status 'error' with a
   * `message` (no account, or a `ValueError` making the connector);
   * `SyncFailed` the status 'error' with an `error` (any later exception).
   * `classifyLimit` is the limit the classification task is triggered with,
   * if it is triggered.
   */
  datatype SyncResult =
    | SyncCompleted(accountId: int, newEmails: nat, fetched: nat, classifyLimit: Option<nat>)
    | SyncRejected(message: string)
    | SyncFailed(error: string)

  /**
   * `sync_account`.  `fetch` answers `fetch_emails(limit, since)`; `refreshed`
   * is the encrypted form of the connector's refreshed credentials, if it has
   * any.  `disconnected` tells whether the connector was disconnected.
   */
  method SyncAccount(store: Store, accountId: int, decrypted: Result<Decrypted>, password: Result<string>,
                     fetch: (int, Option<int>) -> Result<seq<FetchedEmail>>, refreshed: Option<string>, now: int)
    returns (r: SyncResult, disconnected: bool)
    requires ValidRows(store.emails, store.nextId)
    modifies store
    ensures ValidRows(store.emails, store.nextId)
    ensures accountId !in old(store.accounts) ==>
              r == SyncRejected("Account not found") && !disconnected
              && store.emails == old(store.emails) && store.accounts == old(store.accounts)
              && store.nextId == old(store.nextId)
    ensures accountId in old(store.accounts) ==>
              var a := old(store.accounts)[accountId];
              var made := GetConnector(a.kind, a.emailAddress, decrypted, password);
              (made.MadeValueError? ==>
                 r == SyncRejected(made.message) && !disconnected && store.accounts == old(store.accounts)
                 && store.emails == old(store.emails) && store.nextId == old(store.nextId))
              && (made.MadeRaised? ==> r == SyncFailed(made.message))
              && (!made.MadeValueError? && !made.MadeRaised? && fetch(FetchLimit, a.lastSync).Err? ==>
                    r == SyncFailed(fetch(FetchLimit, a.lastSync).error))
    ensures r.SyncFailed? ==>
              accountId in old(store.accounts) && !disconnected
              && store.emails == old(store.emails) && store.nextId == old(store.nextId)
              && store.accounts == old(store.accounts)[accountId := old(store.accounts)[accountId].(lastError := Some(r.error))]
    ensures r.SyncCompleted? ==>
              var a := old(store.accounts)[accountId];
              var fetched := fetch(FetchLimit, a.lastSync).value;
              var s := SaveAll(Saving(old(store.emails), old(store.nextId), 0, None), accountId, fetched, now);
              var synced := if fetched == [] then a else Synced(a, s.count, now);
              accountId in old(store.accounts) && disconnected
              && r == SyncCompleted(accountId, s.count, |fetched|, if s.count > 0 then Some(s.count) else None)
              && store.emails == s.emails && store.nextId == s.nextId
              && store.accounts == old(store.accounts)[accountId :=
                   if refreshed.Some? then synced.(encryptedCredentials := refreshed.value) else synced]
    ensures r.SyncCompleted? <==>
              accountId in old(store.accounts)
              && var a := old(store.accounts)[accountId];
                 var made := GetConnector(a.kind, a.emailAddress, decrypted, password);
                 !made.MadeValueError? && !made.MadeRaised? && fetch(FetchLimit, a.lastSync).Ok?
                 && (var fetched := fetch(FetchLimit, a.lastSync).value;
                     fetched == [] || SaveAll(Saving(old(store.emails), old(store.nextId), 0, None), accountId, fetched, now).clash.None?)
  {
    disconnected := false;
    if accountId !in store.accounts {
      return SyncRejected("Account not found"), false;
    }
    var account := store.accounts[accountId];
    var made := GetConnector(account.kind, account.emailAddress, decrypted, password);
    if made.MadeValueError? {
      return SyncRejected(made.message), false;
    }
    if made.MadeRaised? {
      UpdateAccountError(store, accountId, made.message);
      return SyncFailed(made.message), false;
    }
    var fetched := fetch(FetchLimit, account.lastSync);
    if fetched.Err? {
      UpdateAccountError(store, accountId, fetched.error);
      return SyncFailed(fetched.error), false;
    }
    var saved := SaveEmails(store, accountId, fetched.value, now);
    if saved.Err? {
      UpdateAccountError(store, accountId, saved.error);
      return SyncFailed(saved.error), false;
    }
    if refreshed.Some? && accountId in store.accounts {
      store.accounts := store.accounts[accountId := store.accounts[accountId].(encryptedCredentials := refreshed.value)];
    }
    disconnected := true;
    var classifyLimit := if saved.value > 0 then Some(saved.value) else None;
    r := SyncCompleted(accountId, saved.value, |fetched.value|, classifyLimit);
  }
}
