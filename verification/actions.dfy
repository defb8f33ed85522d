/**
 * The action dispatcher (worker/actions/email_actions.py): what happens to a
 * classified email (moved to a folder, soft-deleted, or left in place), bulk
 * moves, Gmail labels and the bulk classification of pending emails.
 *
 * The database is a `Store`; the mailbox behind an account is reached through
 * a `Connector` whose provider is chosen by `acquire`, which stands for
 * `_get_connector_for_account` (credential decryption and the choice of
 * connector class).
 */
module Actions {
  import opened Common
  import opened Rules
  import opened Connectors
  import opened Storage
  import Classifier

  // ---------------------------------------------------------------------------
  // Collaborators
  // ---------------------------------------------------------------------------

  /** A connector as `_get_connector_for_account` creates it. */
  datatype Acquired = Acquired(credentials: Credentials, provider: Provider)

  /** `_get_connector_for_account`: a connector for the account, or the reason none could be made. */
  type Acquire = Account -> Result<Acquired>

  const ConnectorFailurePrefix := "Failed to create connector: "

  /** The fields rule matching sees; attachment names are never loaded. */
  function EmailView(e: Email): (d: EmailData)
    ensures d.attachmentNames == []
  {
    EmailData(e.subject, e.sender, e.bodyPreview, e.hasAttachments, [])
  }

  // ---------------------------------------------------------------------------
  // Default folders
  // ---------------------------------------------------------------------------

  /** `_get_default_folder_for_category`. */
  function DefaultFolder(c: Category): (f: Option<string>)
    ensures f.None? <==> c == PROFESSIONAL || c == PERSONAL || c == SPAM || c == UNKNOWN
    ensures f.Some? ==> f.value != ""
  {
    match c
    case INVOICE => Some("Finance/Invoices")
    case RECEIPT => Some("Finance/Receipts")
    case DOCUMENT => Some("Documents")
    case NEWSLETTER => Some("Newsletters")
    case PROMOTION => Some("Promotions")
    case SOCIAL => Some("Social")
    case NOTIFICATION => Some("Notifications")
    case PROFESSIONAL => None
    case PERSONAL => None
    case SPAM => None
    case UNKNOWN => None
  }

  // ---------------------------------------------------------------------------
  // apply_classification_action
  // ---------------------------------------------------------------------------

  /** Which folder to move to, whether to delete, and the tags recorded so far. */
  datatype Plan = Plan(folder: Option<string>, delete: bool, tags: seq<string>)

  /** A matching rule decides; otherwise the category's default folder, and deletion for spam. */
  function Decide(rule: Option<ClassificationRule>, category: Category): Plan {
    match rule
    case Some(r) => Plan(r.folder, r.autoDelete, ["matched_rule:" + r.name])
    case None => Plan(DefaultFolder(category), category == SPAM, [])
  }

  /** A move is attempted for a non-empty folder when the email is not to be deleted. */
  predicate Moves(p: Plan) {
    p.folder.Some? && p.folder.value != "" && !p.delete
  }

  /** The connector block in progress: the email as updated, the tags, and what was raised. */
  datatype Progress = Progress(email: Email, tags: seq<string>, raised: Option<Failure>)

  function MoveStep(s: Progress, folder: string, reply: Reply): Progress {
    match reply
    case Raised(f) => s.(raised := Some(f))
    case Returned(ok) =>
      if ok then Progress(s.email.(archivedFolder := Some(folder)), s.tags + ["moved_to:" + folder], None)
      else s
  }

  function DeleteStep(s: Progress, reply: Reply, now: int): Progress {
    match reply
    case Raised(f) => s.(raised := Some(f))
    case Returned(ok) =>
      if ok then Progress(s.email.(isDeleted := true, deletedAt := Some(now)), s.tags + ["deleted"], None)
      else s
  }

  /** The connector block of `apply_classification_action`, after connecting with `p`. */
  function RunBlock(e: Email, plan: Plan, p: Provider, now: int): Progress {
    if p.connectFailure.Some? then Progress(e, plan.tags, p.connectFailure)
    else
      var s0 := Progress(e, plan.tags, None);
      var s1 := if Moves(plan) then MoveStep(s0, plan.folder.value, p.move(e.messageId, plan.folder.value)) else s0;
      if plan.delete then DeleteStep(s1, p.delete(e.messageId, false), now) else s1
  }

  /** A block that raised has changed nothing in the email. */
  lemma RaisedLeavesEmail(e: Email, plan: Plan, p: Provider, now: int)
    ensures RunBlock(e, plan, p, now).raised.Some? ==> RunBlock(e, plan, p, now).email == e
  {
  }

  /** The requests the connector block sends: connect, at most one sub-action, disconnect. */
  function BlockCalls(e: Email, plan: Plan, p: Provider): seq<Op> {
    if p.connectFailure.Some? then [Op.Connect, Op.Disconnect]
    else if Moves(plan) then [Op.Connect, Move(e.messageId, plan.folder.value), Op.Disconnect]
    else if plan.delete then [Op.Connect, Delete(e.messageId, false), Op.Disconnect]
    else [Op.Connect, Op.Disconnect]
  }

  /** The dictionary `apply_classification_action` returns. */
  datatype ActionResult =
    | ActionSuccess(actionsTaken: seq<string>, category: string, confidence: int)
    | ActionError(error: string, partialActions: Option<seq<string>>)

  /** The error for a missing row. */
  function NotFound(table: string, id: int): ActionResult {
    ActionError(table + " " + IntToString(id) + " not found", None)
  }

  /** The result, the emails afterwards, and the requests sent to the provider. */
  datatype Dispatched = Dispatched(result: ActionResult, emails: map<int, Email>, calls: seq<Op>)

  /** The fields an action may change are the only ones that differ. */
  predicate OnlyActionFields(before: Email, after: Email) {
    after.(archivedFolder := before.archivedFolder, isDeleted := before.isDeleted, deletedAt := before.deletedAt,
           status := before.status, processedAt := before.processedAt) == before
  }

  /**
   * `apply_classification_action` on email `id`, where `rules` are the rules
   * in effect once the rule lookup has loaded them.
   */
  function Dispatch(emails: map<int, Email>, accounts: map<int, Account>, rules: seq<ClassificationRule>,
                    id: int, category: Category, confidence: int, acquire: Acquire, now: int): Dispatched
  {
    if id !in emails then Dispatched(NotFound("Email", id), emails, [])
    else if emails[id].accountId !in accounts then
      Dispatched(NotFound("Account", emails[id].accountId), emails, [])
    else
      Act(emails, id, Decide(FirstMatch(rules, EmailView(emails[id])), category),
          acquire(accounts[emails[id].accountId]), category, confidence, now)
  }

  /** The dispatcher once the email, its account and the plan are known. */
  function Act(emails: map<int, Email>, id: int, plan: Plan, acquired: Result<Acquired>,
               category: Category, confidence: int, now: int): Dispatched
    requires id in emails
  {
    match acquired
    case Err(msg) => Dispatched(ActionError(ConnectorFailurePrefix + msg, Some(plan.tags)), emails, [])
    case Ok(a) =>
      var s := RunBlock(emails[id], plan, a.provider, now);
      var calls := BlockCalls(emails[id], plan, a.provider);
      if s.raised.Some? then Dispatched(ActionError(s.raised.value.message, Some(s.tags)), emails, calls)
      else
        Dispatched(ActionSuccess(s.tags, CategoryValue(category), confidence),
                   emails[id := s.email.(status := CLASSIFIED, processedAt := Some(now))], calls)
  }

  /**
   * A missing email or account is reported before any connector is made; an
   * error changes no email; a connector, once made, is connected first and
   * disconnected last; success touches only the action fields of the one
   * email and marks it CLASSIFIED.
   */
  lemma DispatchContract(emails: map<int, Email>, accounts: map<int, Account>, rules: seq<ClassificationRule>,
                         id: int, category: Category, confidence: int, acquire: Acquire, now: int)
    ensures var r := Dispatch(emails, accounts, rules, id, category, confidence, acquire, now);
            ((r.result.ActionError? && r.result.partialActions.None?)
             <==> (id !in emails || emails[id].accountId !in accounts))
            && (r.result.ActionError? ==> r.emails == emails)
            && (r.calls == [] || (r.calls[0] == Op.Connect && r.calls[|r.calls| - 1] == Op.Disconnect))
            && ((id !in emails || emails[id].accountId !in accounts) ==> r.calls == [])
    ensures var r := Dispatch(emails, accounts, rules, id, category, confidence, acquire, now);
            r.result.ActionSuccess? ==>
              id in emails && r.emails.Keys == emails.Keys
              && (forall j :: j in emails && j != id ==> r.emails[j] == emails[j])
              && OnlyActionFields(emails[id], r.emails[id])
              && r.emails[id].status == CLASSIFIED && r.emails[id].processedAt == Some(now)
              && r.result.category == CategoryValue(category) && r.result.confidence == confidence
  {
    if id in emails && emails[id].accountId in accounts {
      ActContract(emails, id, Decide(FirstMatch(rules, EmailView(emails[id])), category),
                  acquire(accounts[emails[id].accountId]), category, confidence, now);
    }
  }

  lemma ActContract(emails: map<int, Email>, id: int, plan: Plan, acquired: Result<Acquired>,
                    category: Category, confidence: int, now: int)
    requires id in emails
    ensures var r := Act(emails, id, plan, acquired, category, confidence, now);
            (r.result.ActionError? ==> r.emails == emails && r.result.partialActions.Some?)
            && (r.calls == [] || (r.calls[0] == Op.Connect && r.calls[|r.calls| - 1] == Op.Disconnect))
    ensures var r := Act(emails, id, plan, acquired, category, confidence, now);
            r.result.ActionSuccess? ==>
              r.emails.Keys == emails.Keys
              && (forall j :: j in emails && j != id ==> r.emails[j] == emails[j])
              && OnlyActionFields(emails[id], r.emails[id])
              && r.emails[id].status == CLASSIFIED && r.emails[id].processedAt == Some(now)
              && r.result.category == CategoryValue(category) && r.result.confidence == confidence
  {
  }

  /**
   * On success exactly one of three things happened: the email was moved to
   * the planned folder and tagged, or it was soft-deleted and tagged, or
   * nothing was done to it (including a move or delete the provider refused);
   * never both a move and a delete.
   */
  lemma DispatchSuccessShape(emails: map<int, Email>, accounts: map<int, Account>, rules: seq<ClassificationRule>,
                             id: int, category: Category, confidence: int, acquire: Acquire, now: int)
    requires Dispatch(emails, accounts, rules, id, category, confidence, acquire, now).result.ActionSuccess?
    ensures id in emails
    ensures var r := Dispatch(emails, accounts, rules, id, category, confidence, acquire, now);
            var before, after := emails[id], r.emails[id];
            var plan := Decide(FirstMatch(rules, EmailView(before)), category);
            var tags := r.result.actionsTaken;
            (Moves(plan) && tags == plan.tags + ["moved_to:" + plan.folder.value]
             && after.archivedFolder == plan.folder
             && after.isDeleted == before.isDeleted && after.deletedAt == before.deletedAt)
            || (plan.delete && tags == plan.tags + ["deleted"]
                && after.isDeleted && after.deletedAt == Some(now)
                && after.archivedFolder == before.archivedFolder)
            || (tags == plan.tags && after.archivedFolder == before.archivedFolder
                && after.isDeleted == before.isDeleted && after.deletedAt == before.deletedAt)
  {
  }

  /**
   * Once the connector is made and connects, the provider's answers decide
   * the outcome: a move it accepts records the folder and tags
   * `moved_to:<folder>`, a soft delete it accepts marks the email deleted now
   * and tags `deleted`, a refusal adds no tag and changes no action field, and
   * a request that raises is reported with the tags gathered so far and
   * changes no email. Exactly the planned request is sent between connect and
   * disconnect.
   */
  lemma DispatchFollowsReplies(emails: map<int, Email>, accounts: map<int, Account>, rules: seq<ClassificationRule>,
                               id: int, category: Category, confidence: int, acquire: Acquire, now: int)
    requires id in emails && emails[id].accountId in accounts
    requires acquire(accounts[emails[id].accountId]).Ok?
    requires acquire(accounts[emails[id].accountId]).value.provider.connectFailure.None?
    ensures var e := emails[id];
            var p := acquire(accounts[emails[id].accountId]).value.provider;
            var plan := Decide(FirstMatch(rules, EmailView(e)), category);
            var r := Dispatch(emails, accounts, rules, id, category, confidence, acquire, now);
            var done := e.(status := CLASSIFIED, processedAt := Some(now));
            (Moves(plan) ==>
               r.calls == [Op.Connect, Move(e.messageId, plan.folder.value), Op.Disconnect]
               && (p.move(e.messageId, plan.folder.value) == Returned(true) ==>
                     r.result == ActionSuccess(plan.tags + ["moved_to:" + plan.folder.value], CategoryValue(category), confidence)
                     && r.emails == emails[id := done.(archivedFolder := plan.folder)])
               && (p.move(e.messageId, plan.folder.value) == Returned(false) ==>
                     r.result == ActionSuccess(plan.tags, CategoryValue(category), confidence)
                     && r.emails == emails[id := done])
               && (p.move(e.messageId, plan.folder.value).Raised? ==>
                     r.result == ActionError(p.move(e.messageId, plan.folder.value).failure.message, Some(plan.tags))
                     && r.emails == emails))
            && (plan.delete ==>
               r.calls == [Op.Connect, Delete(e.messageId, false), Op.Disconnect]
               && (p.delete(e.messageId, false) == Returned(true) ==>
                     r.result == ActionSuccess(plan.tags + ["deleted"], CategoryValue(category), confidence)
                     && r.emails == emails[id := done.(isDeleted := true, deletedAt := Some(now))])
               && (p.delete(e.messageId, false) == Returned(false) ==>
                     r.result == ActionSuccess(plan.tags, CategoryValue(category), confidence)
                     && r.emails == emails[id := done])
               && (p.delete(e.messageId, false).Raised? ==>
                     r.result == ActionError(p.delete(e.messageId, false).failure.message, Some(plan.tags))
                     && r.emails == emails))
            && (!Moves(plan) && !plan.delete ==>
               r.calls == [Op.Connect, Op.Disconnect]
               && r.result == ActionSuccess(plan.tags, CategoryValue(category), confidence)
               && r.emails == emails[id := done])
  {
  }

  /**
   * A connector that cannot be made is reported with the prefix and nothing is
   * sent; one that fails to connect is reported with its failure, is still
   * disconnected, and nothing else is sent. Neither changes an email.
   */
  lemma DispatchWithoutConnection(emails: map<int, Email>, accounts: map<int, Account>, rules: seq<ClassificationRule>,
                                  id: int, category: Category, confidence: int, acquire: Acquire, now: int)
    requires id in emails && emails[id].accountId in accounts
    ensures var a := acquire(accounts[emails[id].accountId]);
            var plan := Decide(FirstMatch(rules, EmailView(emails[id])), category);
            var r := Dispatch(emails, accounts, rules, id, category, confidence, acquire, now);
            (a.Err? ==> r == Dispatched(ActionError(ConnectorFailurePrefix + a.error, Some(plan.tags)), emails, []))
            && (a.Ok? && a.value.provider.connectFailure.Some? ==>
                  r == Dispatched(ActionError(a.value.provider.connectFailure.value.message, Some(plan.tags)),
                                  emails, [Op.Connect, Op.Disconnect]))
  {
  }

  /**
   * The dispatcher reports success, and the email becomes CLASSIFIED, as soon
   * as the connector connects and no request raises, whatever the move or
   * delete requests answered.
   */
  lemma SuccessWhateverSubActionsAnswer(emails: map<int, Email>, accounts: map<int, Account>, rules: seq<ClassificationRule>,
                                         id: int, category: Category, confidence: int, acquire: Acquire, now: int)
    requires id in emails && emails[id].accountId in accounts
    requires acquire(accounts[emails[id].accountId]).Ok?
    requires var p := acquire(accounts[emails[id].accountId]).value.provider;
             p.connectFailure.None?
             && (forall folder :: p.move(emails[id].messageId, folder).Returned?)
             && p.delete(emails[id].messageId, false).Returned?
    ensures var r := Dispatch(emails, accounts, rules, id, category, confidence, acquire, now);
            r.result.ActionSuccess? && r.emails[id].status == CLASSIFIED
  {
  }

  /** Without a matching rule, a spam email is soft-deleted and never moved. */
  lemma SpamWithoutRuleIsDeleted(emails: map<int, Email>, accounts: map<int, Account>, rules: seq<ClassificationRule>,
                                 id: int, confidence: int, acquire: Acquire, now: int)
    requires id in emails && FirstMatch(rules, EmailView(emails[id])).None?
    ensures var r := Dispatch(emails, accounts, rules, id, SPAM, confidence, acquire, now);
            (forall k :: 0 <= k < |r.calls| ==> !r.calls[k].Move?)
            && (r.calls != [] && r.calls != [Op.Connect, Op.Disconnect] ==>
                  r.calls == [Op.Connect, Delete(emails[id].messageId, false), Op.Disconnect])
    ensures emails[id].accountId in accounts && acquire(accounts[emails[id].accountId]).Ok?
            && acquire(accounts[emails[id].accountId]).value.provider.connectFailure.None? ==>
              var p := acquire(accounts[emails[id].accountId]).value.provider;
              var r := Dispatch(emails, accounts, rules, id, SPAM, confidence, acquire, now);
              r.calls == [Op.Connect, Delete(emails[id].messageId, false), Op.Disconnect]
              && (p.delete(emails[id].messageId, false) == Returned(true) ==>
                    r.result == ActionSuccess(["deleted"], "spam", confidence)
                    && r.emails[id].isDeleted && r.emails[id].deletedAt == Some(now)
                    && r.emails[id].archivedFolder == emails[id].archivedFolder)
  {
  }

  /** A rule that matched is named in the first action tag, on success and on error alike. */
  lemma MatchedRuleTagFirst(emails: map<int, Email>, accounts: map<int, Account>, rules: seq<ClassificationRule>,
                            id: int, category: Category, confidence: int, acquire: Acquire, now: int)
    requires id in emails && FirstMatch(rules, EmailView(emails[id])).Some?
    ensures var r := Dispatch(emails, accounts, rules, id, category, confidence, acquire, now);
            var tag := "matched_rule:" + FirstMatch(rules, EmailView(emails[id])).value.name;
            (r.result.ActionSuccess? ==> |r.result.actionsTaken| >= 1 && r.result.actionsTaken[0] == tag)
            && (r.result.ActionError? && r.result.partialActions.Some? ==> r.result.partialActions.value == [tag])
  {
  }

  /**
   * The connector block of `apply_classification_action` up to the final
   * disconnect: connect, then move or soft-delete the email as planned.
   */
  method ConnectorBlock(store: Store, connector: Connector, emailId: int, targetFolder: Option<string>,
                        shouldDelete: bool, tags: seq<string>, now: int)
    returns (raised: Option<Failure>, actionsTaken: seq<string>)
    requires emailId in store.emails && connector.calls == []
    modifies store, connector
    ensures var s := RunBlock(old(store.emails[emailId]), Plan(targetFolder, shouldDelete, tags), connector.provider, now);
            raised == s.raised && actionsTaken == s.tags && store.emails == old(store.emails)[emailId := s.email]
    ensures connector.calls + [Op.Disconnect] == BlockCalls(old(store.emails[emailId]), Plan(targetFolder, shouldDelete, tags), connector.provider)
    ensures store.accounts == old(store.accounts) && store.nextId == old(store.nextId)
  {
    ghost var e := store.emails[emailId];
    var messageId := store.emails[emailId].messageId;
    actionsTaken := tags;
    raised := connector.Connect();
    if raised.None? && targetFolder.Some? && targetFolder.value != "" && !shouldDelete {
      var reply := connector.MoveEmail(messageId, targetFolder.value);
      if reply.Raised? {
        raised := Some(reply.failure);
      } else if reply.ok {
        store.emails := store.emails[emailId := store.emails[emailId].(archivedFolder := targetFolder)];
        actionsTaken := actionsTaken + ["moved_to:" + targetFolder.value];
      }
    }
    if raised.None? && shouldDelete {
      var reply := connector.DeleteEmail(messageId, permanent := false);
      if reply.Raised? {
        raised := Some(reply.failure);
      } else if reply.ok {
        store.emails := store.emails[emailId := store.emails[emailId].(isDeleted := true, deletedAt := Some(now))];
        actionsTaken := actionsTaken + ["deleted"];
      }
    }
    if store.emails == old(store.emails) {
      assert store.emails == old(store.emails)[emailId := e];
    }
  }

  /**
   * `apply_classification_action`: look the email and its account up, find
   * the matching rule, decide, run the connector block and mark the email
   * CLASSIFIED.  `ruleMatched` is accepted and ignored: the rule is looked up
   * again.  `calls` are the requests the connector sent.
   */
  method ApplyClassificationAction(store: Store, parser: RulesParser, file: RuleFile, emailId: int, category: Category,
                                   confidence: int, ruleMatched: Option<string>, acquire: Acquire, now: int)
    returns (result: ActionResult, calls: seq<Op>)
    modifies store, parser
    ensures var looked := emailId in old(store.emails) && old(store.emails)[emailId].accountId in old(store.accounts);
            parser.rules == (if looked then EffectiveRules(old(parser.rules), file) else old(parser.rules))
            && parser.lastLoaded == (if looked then LoadedAfterLookup(old(parser.rules), old(parser.lastLoaded), file, now)
                                     else old(parser.lastLoaded))
    ensures var d := Dispatch(old(store.emails), old(store.accounts), parser.rules, emailId, category, confidence, acquire, now);
            result == d.result && calls == d.calls && store.emails == d.emails
    ensures store.accounts == old(store.accounts) && store.nextId == old(store.nextId)
  {
    calls := [];
    if emailId !in store.emails {
      return NotFound("Email", emailId), calls;
    }
    var email := store.emails[emailId];
    if email.accountId !in store.accounts {
      return NotFound("Account", email.accountId), calls;
    }
    var account := store.accounts[email.accountId];
    var rule := parser.FindMatchingRule(EmailView(email), file, now);

    var plan := DecideAction(rule, category);

    assert Dispatch(old(store.emails), old(store.accounts), parser.rules, emailId, category, confidence, acquire, now)
        == Act(store.emails, emailId, plan, acquire(account), category, confidence, now);
    result, calls := ActOn(store, emailId, account, plan, category, confidence, acquire, now);
  }

  /** The target folder, the delete decision and the first tag, from the rule or the category. */
  method DecideAction(rule: Option<ClassificationRule>, category: Category) returns (plan: Plan)
    ensures plan == Decide(rule, category)
  {
    var targetFolder: Option<string> := None;
    var shouldDelete := false;
    var actionsTaken: seq<string> := [];
    if rule.Some? {
      targetFolder := rule.value.folder;
      shouldDelete := rule.value.autoDelete;
      actionsTaken := actionsTaken + ["matched_rule:" + rule.value.name];
    } else {
      targetFolder := DefaultFolder(category);
      shouldDelete := category == SPAM;
    }
    plan := Plan(targetFolder, shouldDelete, actionsTaken);
  }

  /** The dispatcher once the email, its account and the plan are known. */
  method ActOn(store: Store, emailId: int, account: Account, plan: Plan, category: Category, confidence: int,
               acquire: Acquire, now: int)
    returns (result: ActionResult, calls: seq<Op>)
    requires emailId in store.emails
    modifies store
    ensures var d := Act(old(store.emails), emailId, plan, acquire(account), category, confidence, now);
            result == d.result && calls == d.calls && store.emails == d.emails
    ensures store.accounts == old(store.accounts) && store.nextId == old(store.nextId)
  {
    var acquired := acquire(account);
    if acquired.Err? {
      return ActionError(ConnectorFailurePrefix + acquired.error, Some(plan.tags)), [];
    }
    var connector := new Connector(account.emailAddress, acquired.value.credentials, acquired.value.provider);
    ghost var e := store.emails[emailId];
    var raised, actionsTaken := ConnectorBlock(store, connector, emailId, plan.folder, plan.delete, plan.tags, now);
    connector.Disconnect();
    calls := connector.calls;
    ghost var s := RunBlock(e, plan, acquired.value.provider, now);
    assert raised == s.raised && actionsTaken == s.tags && calls == BlockCalls(e, plan, acquired.value.provider);
    RaisedLeavesEmail(e, plan, acquired.value.provider, now);
    if raised.Some? {
      return ActionError(raised.value.message, Some(actionsTaken)), calls;
    }
    store.emails := store.emails[emailId := store.emails[emailId].(status := CLASSIFIED, processedAt := Some(now))];
    result := ActionSuccess(actionsTaken, CategoryValue(category), confidence);
  }

  // ---------------------------------------------------------------------------
  // bulk_move_emails
  // ---------------------------------------------------------------------------

  /** An entry of the `failed` list. */
  datatype MoveFailure = MoveFailure(emailId: int, error: string)

  /** The dictionary `bulk_move_emails` returns. */
  datatype BulkMoveResult = BulkMoveResult(status: string, succeeded: seq<int>, failed: seq<MoveFailure>, total: int)

  /** What moving one email gives: moved, or the error recorded for it. */
  datatype MoveOutcome = Moved | NotMoved(error: string)

  /** One iteration of the bulk move loop, each email with a connector of its own. */
  function MoveOne(emails: map<int, Email>, accounts: map<int, Account>, id: int, folder: string, acquire: Acquire): MoveOutcome {
    if id !in emails then NotMoved("Email not found")
    else if emails[id].accountId !in accounts then NotMoved("Account not found")
    else
      match acquire(accounts[emails[id].accountId])
      case Err(msg) => NotMoved(ConnectorFailurePrefix + msg)
      case Ok(a) =>
        if a.provider.connectFailure.Some? then NotMoved(a.provider.connectFailure.value.message)
        else
          match a.provider.move(emails[id].messageId, folder)
          case Raised(f) => NotMoved(f.message)
          case Returned(ok) => if ok then Moved else NotMoved("Move operation failed")
  }

  /** A moved email: in the folder and ARCHIVED. */
  function Archive(e: Email, folder: string): Email {
    e.(archivedFolder := Some(folder), status := ARCHIVED)
  }

  /** The emails after the ones in `moved` have been archived to `folder`. */
  function ArchiveAll(emails: map<int, Email>, moved: seq<int>, folder: string): map<int, Email> {
    map id | id in emails :: if id in moved then Archive(emails[id], folder) else emails[id]
  }

  /** The outcome of each listed email, in input order. */
  function Outcomes(emails: map<int, Email>, accounts: map<int, Account>, ids: seq<int>, folder: string,
                    acquire: Acquire): (r: seq<MoveOutcome>)
    ensures |r| == |ids|
  {
    if ids == [] then []
    else Outcomes(emails, accounts, ids[..|ids| - 1], folder, acquire) + [MoveOne(emails, accounts, ids[|ids| - 1], folder, acquire)]
  }

  /** The ids whose move succeeded, in input order. */
  function SucceededOf(ids: seq<int>, outcomes: seq<MoveOutcome>): seq<int>
    requires |ids| == |outcomes|
  {
    if ids == [] then []
    else
      SucceededOf(ids[..|ids| - 1], outcomes[..|ids| - 1])
      + (if outcomes[|ids| - 1].Moved? then [ids[|ids| - 1]] else [])
  }

  /** The ids whose move failed, with their errors, in input order. */
  function FailedOf(ids: seq<int>, outcomes: seq<MoveOutcome>): seq<MoveFailure>
    requires |ids| == |outcomes|
  {
    if ids == [] then []
    else
      FailedOf(ids[..|ids| - 1], outcomes[..|ids| - 1])
      + (if outcomes[|ids| - 1].NotMoved? then [MoveFailure(ids[|ids| - 1], outcomes[|ids| - 1].error)] else [])
  }

  function FailedIds(failed: seq<MoveFailure>): (r: seq<int>)
    ensures |r| == |failed|
  {
    if failed == [] then [] else FailedIds(failed[..|failed| - 1]) + [failed[|failed| - 1].emailId]
  }

  /** The overall status of a bulk move. */
  function BulkStatus(succeeded: seq<int>, failed: seq<MoveFailure>): (status: string)
    ensures status == "success" <==> failed == []
    ensures status == "partial" <==> failed != [] && succeeded != []
    ensures status == "error" <==> failed != [] && succeeded == []
  {
    if failed == [] then "success" else if succeeded != [] then "partial" else "error"
  }

  lemma FailedIdsAppend(failed: seq<MoveFailure>, m: MoveFailure)
    ensures FailedIds(failed + [m]) == FailedIds(failed) + [m.emailId]
  {
    assert (failed + [m])[..|failed|] == failed;
  }

  lemma AddOneToPartition(s0: seq<int>, f0: seq<int>, whole: seq<int>, s1: seq<int>, f1: seq<int>)
    requires whole != [] && multiset(s0) + multiset(f0) == multiset(whole[..|whole| - 1])
    requires (s1 == s0 + [whole[|whole| - 1]] && f1 == f0) || (s1 == s0 && f1 == f0 + [whole[|whole| - 1]])
    ensures multiset(s1) + multiset(f1) == multiset(whole)
  {
    assert whole == whole[..|whole| - 1] + [whole[|whole| - 1]];
  }

  /** Every id lands in exactly one of the two lists: together they are the input. */
  lemma {:induction false} BulkMovePartition(ids: seq<int>, outcomes: seq<MoveOutcome>)
    requires |ids| == |outcomes|
    ensures multiset(SucceededOf(ids, outcomes)) + multiset(FailedIds(FailedOf(ids, outcomes))) == multiset(ids)
  {
    if ids != [] {
      var n := |ids| - 1;
      BulkMovePartition(ids[..n], outcomes[..n]);
      var s0 := SucceededOf(ids[..n], outcomes[..n]);
      var f0 := FailedOf(ids[..n], outcomes[..n]);
      if outcomes[n].NotMoved? {
        assert SucceededOf(ids, outcomes) == s0 + [];
        assert s0 + [] == s0;
        assert FailedOf(ids, outcomes) == f0 + [MoveFailure(ids[n], outcomes[n].error)];
        FailedIdsAppend(f0, MoveFailure(ids[n], outcomes[n].error));
      } else {
        assert SucceededOf(ids, outcomes) == s0 + [ids[n]];
        assert FailedOf(ids, outcomes) == f0 + [];
        assert f0 + [] == f0;
      }
      AddOneToPartition(s0, FailedIds(f0), ids,
                        SucceededOf(ids, outcomes), FailedIds(FailedOf(ids, outcomes)));
    }
  }

  /** The two lists together are as long as the input. */
  lemma BulkMoveTotal(ids: seq<int>, outcomes: seq<MoveOutcome>)
    requires |ids| == |outcomes|
    ensures |SucceededOf(ids, outcomes)| + |FailedOf(ids, outcomes)| == |ids|
  {
    BulkMovePartition(ids, outcomes);
    assert |multiset(ids)| == |ids|;
  }

  /** An id is reported as moved exactly when one of its listed occurrences was moved. */
  lemma {:induction false} SucceededMembers(ids: seq<int>, outcomes: seq<MoveOutcome>, id: int)
    requires |ids| == |outcomes|
    ensures id in SucceededOf(ids, outcomes) <==> exists k :: 0 <= k < |ids| && ids[k] == id && outcomes[k].Moved?
  {
    if ids != [] {
      var n := |ids| - 1;
      SucceededMembers(ids[..n], outcomes[..n], id);
      if id in SucceededOf(ids[..n], outcomes[..n]) {
        var k :| 0 <= k < n && ids[..n][k] == id && outcomes[..n][k].Moved?;
        assert ids[k] == id && outcomes[k].Moved?;
      }
    }
  }

  /** The outcome recorded for a listed email is that email's own move. */
  lemma {:induction false} OutcomeAt(emails: map<int, Email>, accounts: map<int, Account>, ids: seq<int>, folder: string,
                                     acquire: Acquire, k: int)
    requires 0 <= k < |ids|
    ensures Outcomes(emails, accounts, ids, folder, acquire)[k] == MoveOne(emails, accounts, ids[k], folder, acquire)
  {
    var n := |ids| - 1;
    if k < n {
      OutcomeAt(emails, accounts, ids[..n], folder, acquire, k);
    }
  }

  /** Archiving leaves everything a move looks at (presence, account, message id) unchanged. */
  lemma MoveOneIgnoresArchive(emails: map<int, Email>, accounts: map<int, Account>, moved: seq<int>,
                              id: int, folder: string, target: string, acquire: Acquire)
    ensures MoveOne(ArchiveAll(emails, moved, target), accounts, id, folder, acquire)
            == MoveOne(emails, accounts, id, folder, acquire)
  {
  }

  lemma ArchiveOneMore(emails: map<int, Email>, moved: seq<int>, id: int, folder: string)
    requires id in emails
    ensures ArchiveAll(emails, moved + [id], folder)
            == ArchiveAll(emails, moved, folder)[id := Archive(ArchiveAll(emails, moved, folder)[id], folder)]
  {
    var a := ArchiveAll(emails, moved + [id], folder);
    var b := ArchiveAll(emails, moved, folder)[id := Archive(ArchiveAll(emails, moved, folder)[id], folder)];
    assert a.Keys == b.Keys;
    forall j | j in a
      ensures a[j] == b[j]
    {
      if j != id {
        assert (j in moved + [id]) == (j in moved);
      }
    }
  }

  /** One iteration of the bulk move loop. */
  method MoveOneEmail(store: Store, emailId: int, folder: string, acquire: Acquire) returns (outcome: MoveOutcome)
    modifies store
    ensures outcome == MoveOne(old(store.emails), old(store.accounts), emailId, folder, acquire)
    ensures store.emails == if outcome.Moved? then old(store.emails)[emailId := Archive(old(store.emails)[emailId], folder)]
                            else old(store.emails)
    ensures store.accounts == old(store.accounts) && store.nextId == old(store.nextId)
  {
    if emailId !in store.emails {
      return NotMoved("Email not found");
    }
    var email := store.emails[emailId];
    if email.accountId !in store.accounts {
      return NotMoved("Account not found");
    }
    var account := store.accounts[email.accountId];
    var acquired := acquire(account);
    if acquired.Err? {
      return NotMoved(ConnectorFailurePrefix + acquired.error);
    }
    var connector := new Connector(account.emailAddress, acquired.value.credentials, acquired.value.provider);
    var failure := connector.Connect();
    if failure.Some? {
      outcome := NotMoved(failure.value.message);
    } else {
      var reply := connector.MoveEmail(email.messageId, folder);
      if reply.Raised? {
        outcome := NotMoved(reply.failure.message);
      } else if reply.ok {
        store.emails := store.emails[emailId := Archive(email, folder)];
        outcome := Moved;
      } else {
        outcome := NotMoved("Move operation failed");
      }
    }
    connector.Disconnect();
  }

  /**
   * `bulk_move_emails`: move each listed email with its own connector,
   * recording it as succeeded (and archiving it) or failed with the reason.
   */
  method BulkMoveEmails(store: Store, emailIds: seq<int>, folder: string, acquire: Acquire) returns (r: BulkMoveResult)
    modifies store
    ensures var outcomes := Outcomes(old(store.emails), old(store.accounts), emailIds, folder, acquire);
            r.succeeded == SucceededOf(emailIds, outcomes) && r.failed == FailedOf(emailIds, outcomes)
    ensures r.total == |emailIds| && r.status == BulkStatus(r.succeeded, r.failed)
    ensures store.emails == ArchiveAll(old(store.emails), r.succeeded, folder)
    ensures store.accounts == old(store.accounts) && store.nextId == old(store.nextId)
  {
    ghost var emails0 := store.emails;
    var succeeded: seq<int> := [];
    var failed: seq<MoveFailure> := [];
    var i := 0;
    assert store.emails == ArchiveAll(emails0, [], folder);
    while i < |emailIds|
      invariant 0 <= i <= |emailIds|
      invariant succeeded == SucceededOf(emailIds[..i], Outcomes(emails0, store.accounts, emailIds[..i], folder, acquire))
      invariant failed == FailedOf(emailIds[..i], Outcomes(emails0, store.accounts, emailIds[..i], folder, acquire))
      invariant store.emails == ArchiveAll(emails0, succeeded, folder)
      invariant store.accounts == old(store.accounts) && store.nextId == old(store.nextId)
    {
      var id := emailIds[i];
      ghost var outs := Outcomes(emails0, store.accounts, emailIds[..i], folder, acquire);
      assert emailIds[..i + 1][..i] == emailIds[..i];
      assert Outcomes(emails0, store.accounts, emailIds[..i + 1], folder, acquire)
          == outs + [MoveOne(emails0, store.accounts, id, folder, acquire)];
      assert (outs + [MoveOne(emails0, store.accounts, id, folder, acquire)])[..i] == outs;
      MoveOneIgnoresArchive(emails0, store.accounts, succeeded, id, folder, folder, acquire);
      var outcome := MoveOneEmail(store, id, folder, acquire);
      if outcome.Moved? {
        ArchiveOneMore(emails0, succeeded, id, folder);
        succeeded := succeeded + [id];
      } else {
        failed := failed + [MoveFailure(id, outcome.error)];
      }
      i := i + 1;
    }
    assert emailIds[..i] == emailIds;
    r := BulkMoveResult(BulkStatus(succeeded, failed), succeeded, failed, |emailIds|);
  }

  // ---------------------------------------------------------------------------
  // apply_label
  // ---------------------------------------------------------------------------

  /** The dictionary `apply_label` returns. */
  datatype LabelResult = LabelApplied(applied: string) | LabelError(error: string)

  const GmailOnly := "only supported for Gmail"

  /** The error for an account that is not a Gmail account. */
  function NotGmailError(kind: AccountType): string {
    "Labels are " + GmailOnly + " accounts (account type: " + AccountTypeValue(kind) + ")"
  }

  /** `apply_label`: the result and the requests sent to the provider. */
  function LabelOutcome(emails: map<int, Email>, accounts: map<int, Account>, id: int, name: string,
                        acquire: Acquire): (LabelResult, seq<Op>)
  {
    if id !in emails then (LabelError("Email " + IntToString(id) + " not found"), [])
    else if emails[id].accountId !in accounts then
      (LabelError("Account " + IntToString(emails[id].accountId) + " not found"), [])
    else
      var account := accounts[emails[id].accountId];
      if account.kind != GMAIL then (LabelError(NotGmailError(account.kind)), [])
      else
        match acquire(account)
        case Err(msg) => (LabelError(ConnectorFailurePrefix + msg), [])
        case Ok(a) =>
          if a.provider.connectFailure.Some? then
            (LabelError(a.provider.connectFailure.value.message), [Op.Connect, Op.Disconnect])
          else if a.provider.labeller.None? then
            (LabelError("Gmail connector does not support label operations"), [Op.Connect, Op.Disconnect])
          else
            var calls := [Op.Connect, Label(emails[id].messageId, name), Op.Disconnect];
            match a.provider.labeller.value(emails[id].messageId, name)
            case Raised(f) => (LabelError(f.message), calls)
            case Returned(ok) => (if ok then LabelApplied(name) else LabelError("Failed to apply label"), calls)
  }

  /**
   * An account that is not a Gmail account is refused with an error naming
   * Gmail, before any connector is made.
   */
  lemma NonGmailRefused(emails: map<int, Email>, accounts: map<int, Account>, id: int, name: string, acquire: Acquire)
    requires id in emails && emails[id].accountId in accounts && accounts[emails[id].accountId].kind != GMAIL
    ensures var (r, calls) := LabelOutcome(emails, accounts, id, name, acquire);
            r.LabelError? && IsSubstring(GmailOnly, r.error) && calls == []
  {
    var kind := accounts[emails[id].accountId].kind;
    InfixIsSubstring("Labels are ", GmailOnly, " accounts (account type: " + AccountTypeValue(kind) + ")");
    assert NotGmailError(kind) == "Labels are " + GmailOnly + (" accounts (account type: " + AccountTypeValue(kind) + ")");
  }

  /**
   * The label is reported applied exactly when the provider's label request
   * returned true, and any connector made is disconnected last.
   */
  lemma LabelAppliedIff(emails: map<int, Email>, accounts: map<int, Account>, id: int, name: string, acquire: Acquire)
    ensures var (r, calls) := LabelOutcome(emails, accounts, id, name, acquire);
            (r.LabelApplied? <==>
               id in emails && emails[id].accountId in accounts
               && accounts[emails[id].accountId].kind == GMAIL
               && acquire(accounts[emails[id].accountId]).Ok?
               && var p := acquire(accounts[emails[id].accountId]).value.provider;
                  p.connectFailure.None? && p.labeller.Some?
                  && p.labeller.value(emails[id].messageId, name) == Returned(true))
            && (r.LabelApplied? ==> r.applied == name)
            && (calls == [] || (calls[0] == Op.Connect && calls[|calls| - 1] == Op.Disconnect))
  {
  }

  /** `apply_label`: reads the store, changes nothing in it. */
  method ApplyLabel(store: Store, emailId: int, name: string, acquire: Acquire) returns (r: LabelResult, calls: seq<Op>)
    ensures (r, calls) == LabelOutcome(store.emails, store.accounts, emailId, name, acquire)
  {
    calls := [];
    if emailId !in store.emails {
      return LabelError("Email " + IntToString(emailId) + " not found"), calls;
    }
    var email := store.emails[emailId];
    if email.accountId !in store.accounts {
      return LabelError("Account " + IntToString(email.accountId) + " not found"), calls;
    }
    var account := store.accounts[email.accountId];
    if account.kind != GMAIL {
      return LabelError(NotGmailError(account.kind)), calls;
    }
    var acquired := acquire(account);
    if acquired.Err? {
      return LabelError(ConnectorFailurePrefix + acquired.error), calls;
    }
    var connector := new Connector(account.emailAddress, acquired.value.credentials, acquired.value.provider);
    var failure := connector.Connect();
    if failure.Some? {
      r := LabelError(failure.value.message);
    } else if connector.provider.labeller.Some? {
      var reply := connector.ApplyLabel(email.messageId, name);
      if reply.Raised? {
        r := LabelError(reply.failure.message);
      } else if reply.ok {
        r := LabelApplied(name);
      } else {
        r := LabelError("Failed to apply label");
      }
    } else {
      r := LabelError("Gmail connector does not support label operations");
    }
    connector.Disconnect();
    calls := connector.calls;
    if failure.Some? || connector.provider.labeller.None? {
      assert calls == [Op.Connect, Op.Disconnect];
    } else {
      assert calls == [Op.Connect, Label(email.messageId, name), Op.Disconnect];
    }
  }

  // ---------------------------------------------------------------------------
  // bulk_classify_pending_emails
  // ---------------------------------------------------------------------------

  /**
   * The language model behind `classifier.classify_email`: its raw answer for
   * (subject, sender, body preview, has attachments), or the error it raised.
   */
  type Llm = (Option<string>, Option<string>, string, bool) -> Result<string>

  const RuleConfidence := 95
  const RuleReasonPrefix := "Matched rule: "

  /** Rules first, then the language model, on the body preview or "". */
  function ClassificationOf(e: Email, rules: seq<ClassificationRule>, llm: Llm, loads: Classifier.JsonDecoder)
    : (c: Classifier.Classification)
    ensures 0 <= c.confidence <= 100
  {
    match FirstMatch(rules, EmailView(e))
    case Some(r) => Classifier.Classification(r.category, RuleConfidence, RuleReasonPrefix + r.name)
    case None => Classifier.ClassifyEmail(llm(e.subject, e.sender, e.bodyPreview.GetOr(""), e.hasAttachments), loads)
  }

  /**
   * A matching rule decides alone: its category, confidence 95 and its name in
   * the reason, whatever the language model would have answered; without one,
   * the answer is the language model's.
   */
  lemma RuleOverridesLlm(e: Email, rules: seq<ClassificationRule>, llm1: Llm, llm2: Llm, loads: Classifier.JsonDecoder)
    ensures FirstMatch(rules, EmailView(e)).Some? ==>
              ClassificationOf(e, rules, llm1, loads) == ClassificationOf(e, rules, llm2, loads)
              && ClassificationOf(e, rules, llm1, loads).category == FirstMatch(rules, EmailView(e)).value.category
              && ClassificationOf(e, rules, llm1, loads).confidence == 95
              && ClassificationOf(e, rules, llm1, loads).reason == "Matched rule: " + FirstMatch(rules, EmailView(e)).value.name
    ensures FirstMatch(rules, EmailView(e)).None? && e.bodyPreview.None? ==>
              ClassificationOf(e, rules, llm1, loads)
              == Classifier.ClassifyEmail(llm1(e.subject, e.sender, "", e.hasAttachments), loads)
    ensures forall body :: FirstMatch(rules, EmailView(e)).None? && e.bodyPreview == Some(body) ==>
              ClassificationOf(e, rules, llm1, loads)
              == Classifier.ClassifyEmail(llm1(e.subject, e.sender, body, e.hasAttachments), loads)
  {
  }

  /** The classification written to the row before the commit, with status PROCESSING. */
  function Recorded(e: Email, c: Classifier.Classification): Email {
    e.(category := c.category, confidence := Some(c.confidence), reason := Some(c.reason), status := PROCESSING)
  }

  /** The ids the `PENDING` query returns, in the order the database scans `scan`. */
  function PendingIds(emails: map<int, Email>, scan: seq<int>): seq<int> {
    if scan == [] then []
    else
      var rest := PendingIds(emails, scan[..|scan| - 1]);
      var id := scan[|scan| - 1];
      if id in emails && emails[id].status == PENDING then rest + [id] else rest
  }

  /** The query with its `limit`. */
  function Selected(emails: map<int, Email>, scan: seq<int>, limit: nat): seq<int> {
    var p := PendingIds(emails, scan);
    if |p| <= limit then p else p[..limit]
  }

  lemma {:induction false} PendingIdsMembers(emails: map<int, Email>, scan: seq<int>, id: int)
    ensures id in PendingIds(emails, scan) <==> id in scan && id in emails && emails[id].status == PENDING
  {
    if scan != [] {
      PendingIdsMembers(emails, scan[..|scan| - 1], id);
      assert scan == scan[..|scan| - 1] + [scan[|scan| - 1]];
    }
  }

  lemma {:induction false} PendingIdsDistinct(emails: map<int, Email>, scan: seq<int>)
    requires Distinct(scan)
    ensures Distinct(PendingIds(emails, scan))
  {
    if scan != [] {
      var front := scan[..|scan| - 1];
      PendingIdsDistinct(emails, front);
      PendingIdsMembers(emails, front, scan[|scan| - 1]);
    }
  }

  /**
   * The query selects at most `limit` emails, each of them stored and PENDING;
   * when it selects fewer than `limit`, no PENDING email of the scan is left out.
   */
  lemma SelectionIsPendingAndBounded(emails: map<int, Email>, scan: seq<int>, limit: nat)
    ensures var sel := Selected(emails, scan, limit);
            |sel| <= limit
            && (forall id :: id in sel ==> id in emails && emails[id].status == PENDING)
            && (|sel| < limit ==> forall id :: id in scan && id in emails && emails[id].status == PENDING ==> id in sel)
  {
    var p := PendingIds(emails, scan);
    forall id | id in Selected(emails, scan, limit)
      ensures id in emails && emails[id].status == PENDING
    {
      assert id in p;
      PendingIdsMembers(emails, scan, id);
    }
    forall id | |Selected(emails, scan, limit)| < limit && id in scan && id in emails && emails[id].status == PENDING
      ensures id in Selected(emails, scan, limit)
    {
      PendingIdsMembers(emails, scan, id);
    }
  }

  /**
   * One pass of the loop on email `id` with the rules in effect: classify,
   * record with status PROCESSING, then either the commit raises (`id` in
   * `failing`) and the email is marked ERROR, or the dispatcher runs.
   */
  function ClassifyPending(emails: map<int, Email>, accounts: map<int, Account>, rules: seq<ClassificationRule>,
                           id: int, llm: Llm, loads: Classifier.JsonDecoder, failing: set<int>,
                           acquire: Acquire, now: int): map<int, Email>
  {
    if id !in emails then emails
    else
      var c := ClassificationOf(emails[id], rules, llm, loads);
      if id in failing then emails[id := Recorded(emails[id], c).(status := ERROR)]
      else Dispatch(emails[id := Recorded(emails[id], c)], accounts, rules, id, c.category, c.confidence, acquire, now).emails
  }

  /** The loop over the selected ids, in order. */
  function ClassifyAllPending(emails: map<int, Email>, accounts: map<int, Account>, rules: seq<ClassificationRule>,
                              ids: seq<int>, llm: Llm, loads: Classifier.JsonDecoder, failing: set<int>,
                              acquire: Acquire, now: int): map<int, Email>
  {
    if ids == [] then emails
    else
      ClassifyPending(ClassifyAllPending(emails, accounts, rules, ids[..|ids| - 1], llm, loads, failing, acquire, now),
                      accounts, rules, ids[|ids| - 1], llm, loads, failing, acquire, now)
  }

  /** One more pass of the loop extends the loop over the ids before it, and keeps the set of rows. */
  lemma ClassifyEachStep(emails: map<int, Email>, before: map<int, Email>, after: map<int, Email>,
                         accounts: map<int, Account>, rules: seq<ClassificationRule>, ids: seq<int>, i: nat,
                         llm: Llm, loads: Classifier.JsonDecoder, failing: set<int>, acquire: Acquire, now: int)
    requires i < |ids| && ids[i] in before && before.Keys == emails.Keys
    requires before == ClassifyAllPending(emails, accounts, rules, ids[..i], llm, loads, failing, acquire, now)
    requires after == ClassifyPending(before, accounts, rules, ids[i], llm, loads, failing, acquire, now)
    ensures after == ClassifyAllPending(emails, accounts, rules, ids[..i + 1], llm, loads, failing, acquire, now)
    ensures after.Keys == emails.Keys
  {
    assert ids[..i + 1][..i] == ids[..i];
    ClassifyPendingEffect(before, accounts, rules, ids[i], llm, loads, failing, acquire, now);
  }

  /** How many of `ids` are (`marked`) or are not (`!marked`) in `failing`. */
  function CountFailing(ids: seq<int>, failing: set<int>, marked: bool): nat {
    if ids == [] then 0
    else CountFailing(ids[..|ids| - 1], failing, marked) + (if (ids[|ids| - 1] in failing) == marked then 1 else 0)
  }

  /** Every processed email is counted once, as classified or as an error. */
  lemma {:induction false} ProcessedIsClassifiedPlusErrors(ids: seq<int>, failing: set<int>)
    ensures CountFailing(ids, failing, false) + CountFailing(ids, failing, true) == |ids|
  {
    if ids != [] {
      ProcessedIsClassifiedPlusErrors(ids[..|ids| - 1], failing);
    }
  }

  /**
   * One pass keeps the set of rows, changes no other row, and leaves the row
   * ERROR when its commit raised and CLASSIFIED or PROCESSING otherwise (the
   * latter when the dispatcher reported an error), with a confidence in 0..100.
   */
  lemma ClassifyPendingEffect(emails: map<int, Email>, accounts: map<int, Account>, rules: seq<ClassificationRule>,
                              id: int, llm: Llm, loads: Classifier.JsonDecoder, failing: set<int>,
                              acquire: Acquire, now: int)
    requires id in emails
    ensures var m := ClassifyPending(emails, accounts, rules, id, llm, loads, failing, acquire, now);
            m.Keys == emails.Keys
            && (forall j :: j in emails && j != id ==> m[j] == emails[j])
            && (id in failing ==> m[id].status == ERROR)
            && (id !in failing ==> m[id].status == CLASSIFIED || m[id].status == PROCESSING)
            && m[id].confidence.Some? && 0 <= m[id].confidence.value <= 100
  {
    var c := ClassificationOf(emails[id], rules, llm, loads);
    var recorded := emails[id := Recorded(emails[id], c)];
    DispatchContract(recorded, accounts, rules, id, c.category, c.confidence, acquire, now);
  }

  /** The state of the rows after classifying the distinct ids `ids` (see `ClassifyAllPendingEffect`). */
  predicate Settled(emails: map<int, Email>, m: map<int, Email>, ids: seq<int>, failing: set<int>) {
    m.Keys == emails.Keys
    && (forall id :: id in ids ==> id in m)
    && (forall j :: j in emails && j !in ids ==> m[j] == emails[j])
    && (forall id :: id in ids && id in failing ==> m[id].status == ERROR)
    && (forall id :: id in ids && id !in failing ==> m[id].status == CLASSIFIED || m[id].status == PROCESSING)
    && (forall id :: id in ids ==> m[id].confidence.Some? && 0 <= m[id].confidence.value <= 100)
  }

  lemma SettledExtend(emails: map<int, Email>, m0: map<int, Email>, m: map<int, Email>, front: seq<int>, last: int,
                      failing: set<int>)
    requires Settled(emails, m0, front, failing) && last in emails && last !in front
    requires m.Keys == m0.Keys && (forall j :: j in m0 && j != last ==> m[j] == m0[j])
    requires last in failing ==> m[last].status == ERROR
    requires last !in failing ==> m[last].status == CLASSIFIED || m[last].status == PROCESSING
    requires m[last].confidence.Some? && 0 <= m[last].confidence.value <= 100
    ensures Settled(emails, m, front + [last], failing)
  {
  }

  /**
   * After the loop over distinct stored ids, each selected row is ERROR
   * exactly when its commit raised, otherwise CLASSIFIED or left PROCESSING,
   * and carries a confidence in 0..100; rows not selected are untouched.
   */
  lemma {:induction false} ClassifyAllPendingEffect(emails: map<int, Email>, accounts: map<int, Account>,
                                                    rules: seq<ClassificationRule>, ids: seq<int>, llm: Llm,
                                                    loads: Classifier.JsonDecoder, failing: set<int>,
                                                    acquire: Acquire, now: int)
    requires Distinct(ids)
    requires forall id :: id in ids ==> id in emails
    ensures Settled(emails, ClassifyAllPending(emails, accounts, rules, ids, llm, loads, failing, acquire, now), ids, failing)
  {
    if ids != [] {
      var front, last := ids[..|ids| - 1], ids[|ids| - 1];
      assert ids == front + [last];
      ClassifyAllPendingEffect(emails, accounts, rules, front, llm, loads, failing, acquire, now);
      var m0 := ClassifyAllPending(emails, accounts, rules, front, llm, loads, failing, acquire, now);
      ClassifyPendingEffect(m0, accounts, rules, last, llm, loads, failing, acquire, now);
      SettledExtend(emails, m0, ClassifyPending(m0, accounts, rules, last, llm, loads, failing, acquire, now),
                    front, last, failing);
    }
  }

  /**
   * Over a scan that lists each row once, every email the query selects ends
   * ERROR when its commit raised and CLASSIFIED or PROCESSING otherwise, with
   * a confidence in 0..100, and no other row changes.
   */
  lemma BulkClassifySettlesSelection(emails: map<int, Email>, accounts: map<int, Account>, rules: seq<ClassificationRule>,
                                     scan: seq<int>, limit: nat, llm: Llm, loads: Classifier.JsonDecoder,
                                     failing: set<int>, acquire: Acquire, now: int)
    requires Distinct(scan)
    ensures var sel := Selected(emails, scan, limit);
            Settled(emails, ClassifyAllPending(emails, accounts, rules, sel, llm, loads, failing, acquire, now), sel, failing)
  {
    var p := PendingIds(emails, scan);
    PendingIdsDistinct(emails, scan);
    SelectionIsPendingAndBounded(emails, scan, limit);
    var sel := Selected(emails, scan, limit);
    assert |sel| <= |p| && forall k :: 0 <= k < |sel| ==> sel[k] == p[k];
    ClassifyAllPendingEffect(emails, accounts, rules, sel, llm, loads, failing, acquire, now);
  }

  datatype BulkClassifyResult =
    | BulkClassified(processed: nat, classified: nat, errors: nat)
    | BulkClassifyFailed(error: string, processed: nat, classified: nat, errors: nat)

  /** A second lookup with the same file keeps the rules and the load time of the first. */
  lemma LookupStable(held: seq<ClassificationRule>, lastLoaded: Option<int>, file: RuleFile, now: int)
    ensures EffectiveRules(EffectiveRules(held, file), file) == EffectiveRules(held, file)
    ensures LoadedAfterLookup(EffectiveRules(held, file), LoadedAfterLookup(held, lastLoaded, file, now), file, now)
            == LoadedAfterLookup(held, lastLoaded, file, now)
  {
    EffectiveRulesIdempotent(held, file);
  }

  /**
   * Rules first (loading them if none are held), then the language model;
   * `rule` is the rule that matched, if any.
   */
  method Classify(parser: RulesParser, file: RuleFile, email: Email, llm: Llm, loads: Classifier.JsonDecoder, now: int)
    returns (c: Classifier.Classification, rule: Option<ClassificationRule>)
    modifies parser
    ensures parser.rules == EffectiveRules(old(parser.rules), file)
    ensures parser.lastLoaded == LoadedAfterLookup(old(parser.rules), old(parser.lastLoaded), file, now)
    ensures rule == FirstMatch(parser.rules, EmailView(email))
    ensures c == ClassificationOf(email, parser.rules, llm, loads)
  {
    rule := parser.FindMatchingRule(EmailView(email), file, now);
    if rule.Some? {
      c := Classifier.Classification(rule.value.category, RuleConfidence, RuleReasonPrefix + rule.value.name);
    } else {
      c := Classifier.ClassifyEmail(llm(email.subject, email.sender, email.bodyPreview.GetOr(""), email.hasAttachments), loads);
    }
  }

  /**
   * One pass of the loop of `bulk_classify_pending_emails`; the commit of the
   * classification raises when `emailId` is in `failing`.
   */
  method ClassifyPendingEmail(store: Store, parser: RulesParser, file: RuleFile, emailId: int, llm: Llm,
                              loads: Classifier.JsonDecoder, failing: set<int>, acquire: Acquire, now: int)
    requires emailId in store.emails
    modifies store, parser
    ensures parser.rules == EffectiveRules(old(parser.rules), file)
    ensures parser.lastLoaded == LoadedAfterLookup(old(parser.rules), old(parser.lastLoaded), file, now)
    ensures store.emails == ClassifyPending(old(store.emails), old(store.accounts), parser.rules, emailId, llm, loads,
                                            failing, acquire, now)
    ensures store.accounts == old(store.accounts) && store.nextId == old(store.nextId)
  {
    var email := store.emails[emailId];
    var c, rule := Classify(parser, file, email, llm, loads, now);
    LookupStable(old(parser.rules), old(parser.lastLoaded), file, now);
    store.emails := store.emails[emailId := email.(category := c.category, confidence := Some(c.confidence),
                                                   reason := Some(c.reason), status := PROCESSING)];
    if emailId in failing {
      store.emails := store.emails[emailId := store.emails[emailId].(status := ERROR)];
    } else {
      var _, _ := ApplyClassificationAction(store, parser, file, emailId, c.category, c.confidence,
                                            if rule.Some? then Some(rule.value.name) else None, acquire, now);
    }
  }

  /**
   * `bulk_classify_pending_emails`: classify the selected PENDING emails one
   * by one and count them.  `scan` is the order in which the database returns
   * rows (each stored row once), `queryFailure` the error raised by the query,
   * if any, and `failing` the emails whose classification commit raises.
   */
  method BulkClassifyPendingEmails(store: Store, parser: RulesParser, file: RuleFile, limit: nat, scan: seq<int>,
                                   queryFailure: Option<string>, llm: Llm, loads: Classifier.JsonDecoder,
                                   failing: set<int>, acquire: Acquire, now: int)
    returns (r: BulkClassifyResult)
    requires Distinct(scan) && forall id :: id in scan <==> id in store.emails
    modifies store, parser
    ensures queryFailure.Some? ==>
              r == BulkClassifyFailed(queryFailure.value, 0, 0, 0)
              && store.emails == old(store.emails) && parser.rules == old(parser.rules)
    ensures queryFailure.None? ==>
              var sel := Selected(old(store.emails), scan, limit);
              r == BulkClassified(|sel|, CountFailing(sel, failing, false), CountFailing(sel, failing, true))
              && store.emails == ClassifyAllPending(old(store.emails), old(store.accounts),
                                                    EffectiveRules(old(parser.rules), file), sel,
                                                    llm, loads, failing, acquire, now)
              && parser.rules == (if sel == [] then old(parser.rules) else EffectiveRules(old(parser.rules), file))
    ensures queryFailure.None? ==>
              var sel := Selected(old(store.emails), scan, limit);
              |sel| <= limit
              && (forall id :: id in sel ==> id in old(store.emails) && old(store.emails)[id].status == PENDING)
              && (|sel| < limit ==> forall id :: id in old(store.emails) && old(store.emails)[id].status == PENDING ==> id in sel)
              && Settled(old(store.emails), store.emails, sel, failing)
    ensures store.accounts == old(store.accounts) && store.nextId == old(store.nextId)
  {
    if queryFailure.Some? {
      return BulkClassifyFailed(queryFailure.value, 0, 0, 0);
    }
    var emails := Selected(store.emails, scan, limit);
    SelectionIsPendingAndBounded(store.emails, scan, limit);
    BulkClassifySettlesSelection(store.emails, store.accounts, EffectiveRules(parser.rules, file), scan, limit,
                                 llm, loads, failing, acquire, now);
    var processed, classified, errors := ClassifyEach(store, parser, file, emails, llm, loads, failing, acquire, now);
    r := BulkClassified(processed, classified, errors);
  }

  /** The loop of `bulk_classify_pending_emails` over the selected emails, with its three counters. */
  method ClassifyEach(store: Store, parser: RulesParser, file: RuleFile, emails: seq<int>, llm: Llm,
                      loads: Classifier.JsonDecoder, failing: set<int>, acquire: Acquire, now: int)
    returns (processed: nat, classified: nat, errors: nat)
    requires forall id :: id in emails ==> id in store.emails
    modifies store, parser
    ensures processed == |emails|
    ensures classified == CountFailing(emails, failing, false) && errors == CountFailing(emails, failing, true)
    ensures store.emails == ClassifyAllPending(old(store.emails), old(store.accounts), EffectiveRules(old(parser.rules), file),
                                               emails, llm, loads, failing, acquire, now)
    ensures parser.rules == (if emails == [] then old(parser.rules) else EffectiveRules(old(parser.rules), file))
    ensures store.accounts == old(store.accounts) && store.nextId == old(store.nextId)
  {
    ghost var emails0 := store.emails;
    ghost var rules := EffectiveRules(parser.rules, file);
    LookupStable(parser.rules, parser.lastLoaded, file, now);
    processed, classified, errors := 0, 0, 0;
    var i := 0;
    while i < |emails|
      invariant 0 <= i <= |emails|
      invariant store.emails.Keys == emails0.Keys
      invariant store.emails == ClassifyAllPending(emails0, old(store.accounts), rules, emails[..i],
                                                   llm, loads, failing, acquire, now)
      invariant store.accounts == old(store.accounts) && store.nextId == old(store.nextId)
      invariant parser.rules == (if i == 0 then old(parser.rules) else rules)
      invariant i > 0 ==> EffectiveRules(parser.rules, file) == rules
                          && LoadedAfterLookup(parser.rules, parser.lastLoaded, file, now) == parser.lastLoaded
      invariant processed == i
      invariant classified == CountFailing(emails[..i], failing, false)
      invariant errors == CountFailing(emails[..i], failing, true)
    {
      assert emails[..i + 1][..i] == emails[..i];
      var emailId := emails[i];
      processed := processed + 1;
      ghost var before := store.emails;
      ClassifyPendingEmail(store, parser, file, emailId, llm, loads, failing, acquire, now);
      ClassifyEachStep(emails0, before, store.emails, old(store.accounts), rules, emails, i, llm, loads, failing, acquire, now);
      if emailId in failing {
        errors := errors + 1;
      } else {
        classified := classified + 1;
      }
      i := i + 1;
    }
    assert emails[..i] == emails;
  }
}
