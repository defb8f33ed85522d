/**
 * The single-email classification task (`classify_single_email` and its inner
 * `_classify` in worker/tasks/email_classification.py): classify one email by
 * rules first and the language model otherwise, record the classification
 * with status PROCESSING, then hand the email to the action dispatcher.
 */
module ClassificationTask {
  import opened Common
  import opened Rules
  import opened Storage
  import opened Actions
  import Classifier

  /** What the task returns. */
  datatype TaskResult =
    | TaskSuccess(emailId: int, category: string, confidence: int, reason: string,
                  ruleMatched: Option<string>, actions: ActionResult)
    | TaskError(errorEmailId: Option<int>, error: string)

  /** The error for an email that does not exist; it carries no `email_id`. */
  function EmailNotFound(id: int): TaskResult {
    TaskError(None, "Email " + IntToString(id) + " not found")
  }

  /** The result and the rows afterwards. */
  datatype Classified = Classified(result: TaskResult, emails: map<int, Email>)

  /**
   * `_classify` once the email is known to exist, with `rules` the rules in
   * effect after the lookup; `commitFailure` is the error the commit of the
   * classification raised, if any, which the task reports with the email id.
   */
  function ClassifyStored(emails: map<int, Email>, accounts: map<int, Account>, rules: seq<ClassificationRule>,
                          id: int, llm: Llm, loads: Classifier.JsonDecoder, commitFailure: Option<string>,
                          acquire: Acquire, now: int): Classified
    requires id in emails
  {
    var e := emails[id];
    var c := ClassificationOf(e, rules, llm, loads);
    var rule := FirstMatch(rules, EmailView(e));
    if commitFailure.Some? then Classified(TaskError(Some(id), commitFailure.value), emails)
    else
      var d := Dispatch(emails[id := Recorded(e, c)], accounts, rules, id, c.category, c.confidence, acquire, now);
      Classified(TaskSuccess(id, CategoryValue(c.category), c.confidence, c.reason,
                             if rule.Some? then Some(rule.value.name) else None, d.result),
                 d.emails)
  }

  /**
   * A successful run reports the classification it recorded: the category's
   * value, a confidence in 0..100, the rule's name exactly when a rule
   * matched (then with confidence 95), and the dispatcher's own result.  The
   * email then exists and is CLASSIFIED when the dispatcher succeeded and
   * still PROCESSING when it reported an error.  A failed commit changes no row.
   */
  lemma ClassifyStoredContract(emails: map<int, Email>, accounts: map<int, Account>, rules: seq<ClassificationRule>,
                               id: int, llm: Llm, loads: Classifier.JsonDecoder, commitFailure: Option<string>,
                               acquire: Acquire, now: int)
    requires id in emails
    ensures var r := ClassifyStored(emails, accounts, rules, id, llm, loads, commitFailure, acquire, now);
            r.result.TaskSuccess? <==> commitFailure.None?
    ensures var r := ClassifyStored(emails, accounts, rules, id, llm, loads, commitFailure, acquire, now);
            r.result.TaskError? ==> r.emails == emails && r.result.errorEmailId == Some(id)
    ensures var r := ClassifyStored(emails, accounts, rules, id, llm, loads, commitFailure, acquire, now);
            var rule := FirstMatch(rules, EmailView(emails[id]));
            r.result.TaskSuccess? ==>
              r.result.emailId == id
              && 0 <= r.result.confidence <= 100
              && (r.result.ruleMatched.Some? <==> rule.Some?)
              && (rule.Some? ==> r.result.ruleMatched == Some(rule.value.name) && r.result.confidence == 95
                                 && r.result.category == CategoryValue(rule.value.category))
              && r.emails.Keys == emails.Keys
              && r.emails[id].confidence == Some(r.result.confidence)
              && r.emails[id].reason == Some(r.result.reason)
              && CategoryValue(r.emails[id].category) == r.result.category
              && (r.result.actions.ActionSuccess? ==> r.emails[id].status == CLASSIFIED)
              && (r.result.actions.ActionError? ==> r.emails[id].status == PROCESSING)
  {
    if commitFailure.None? {
      var e := emails[id];
      var c := ClassificationOf(e, rules, llm, loads);
      DispatchContract(emails[id := Recorded(e, c)], accounts, rules, id, c.category, c.confidence, acquire, now);
    }
  }

  /**
   * When its commit succeeds, the single-email task leaves the rows exactly as
   * one pass of the bulk classification loop over the same email does.
   */
  lemma SingleAgreesWithBulkPass(emails: map<int, Email>, accounts: map<int, Account>, rules: seq<ClassificationRule>,
                                 id: int, llm: Llm, loads: Classifier.JsonDecoder, acquire: Acquire, now: int)
    requires id in emails
    ensures ClassifyStored(emails, accounts, rules, id, llm, loads, None, acquire, now).emails
            == ClassifyPending(emails, accounts, rules, id, llm, loads, {}, acquire, now)
  {
  }

  /**
   * `classify_single_email(email_id)`: report a missing email; otherwise look
   * the rules up, classify, record the classification and dispatch.
   */
  method ClassifySingleEmail(store: Store, parser: RulesParser, file: RuleFile, emailId: int, llm: Llm,
                             loads: Classifier.JsonDecoder, commitFailure: Option<string>, acquire: Acquire, now: int)
    returns (r: TaskResult)
    modifies store, parser
    ensures emailId !in old(store.emails) ==>
              r == EmailNotFound(emailId) && store.emails == old(store.emails)
              && parser.rules == old(parser.rules) && parser.lastLoaded == old(parser.lastLoaded)
    ensures emailId in old(store.emails) ==>
              parser.rules == EffectiveRules(old(parser.rules), file)
              && parser.lastLoaded == LoadedAfterLookup(old(parser.rules), old(parser.lastLoaded), file, now)
              && Classified(r, store.emails)
                 == ClassifyStored(old(store.emails), old(store.accounts), parser.rules, emailId, llm, loads,
                                   commitFailure, acquire, now)
    ensures store.accounts == old(store.accounts) && store.nextId == old(store.nextId)
  {
    if emailId !in store.emails {
      return EmailNotFound(emailId);
    }
    var email := store.emails[emailId];
    var c, rule := Classify(parser, file, email, llm, loads, now);
    LookupStable(old(parser.rules), old(parser.lastLoaded), file, now);
    var ruleName := if rule.Some? then Some(rule.value.name) else None;
    if commitFailure.Some? {
      return TaskError(Some(emailId), commitFailure.value);
    }
    store.emails := store.emails[emailId := Recorded(email, c)];
    var actionResult, _ := ApplyClassificationAction(store, parser, file, emailId, c.category, c.confidence,
                                                     ruleName, acquire, now);
    r := TaskSuccess(emailId, CategoryValue(c.category), c.confidence, c.reason, ruleName, actionResult);
  }
}
