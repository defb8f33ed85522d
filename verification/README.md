# Email agent: a verified model of the worker core

The email agent syncs mailboxes (IMAP, Gmail, Microsoft 365) into a
PostgreSQL database. It classifies every new email, first with YAML rules
and otherwise with a local language model. It then acts on the
classification: it moves the email to a folder, soft-deletes it, or leaves
it alone. Background tasks purge the quarantine, compute daily statistics
and vacuum the tables.

This project models the core of the worker in Dafny and proves properties
of that model:

- **Rule engine** (`rules.dfy`, module `Rules`): condition matching,
  `|`-patterns, validation of rule entries, the stable sort by descending
  priority, first-match lookup, and the `RulesParser` class with its
  lazy loading.
- **Language-model normaliser** (`classifier.dfy`, module `Classifier`):
  locating the JSON object in the model's answer, the category mapping,
  confidence clamping, and the fallbacks.
- **Action dispatcher** (`actions.dfy`, module `Actions`):
  - `apply_classification_action`
  - default folders
  - `bulk_move_emails`
  - `apply_label`
  - `bulk_classify_pending_emails`
- **Single-email classification task** (`classification_task.dfy`, module
  `ClassificationTask`).
- **Sync** (`sync.dfy`, module `Sync`):
  - duplicate-free saving of fetched emails
  - the connector choice, including legacy IMAP credentials
  - the paths of `sync_account`
- **Maintenance** (`maintenance.dfy`, module `Maintenance`):
  - quarantine cleanup
  - daily statistics
  - the VACUUM tally
- **Base connector** (`connector.dfy`, module `Connectors`): a `Connector`
  class that records every request it sends, plus `test_connection`.
- **Gmail helpers** (`gmail.dfy`, module `Gmail`):
  - the MIME part-tree walks for body and attachments
  - message parsing
  - the search query
  - the modify/trash/delete requests
- **Microsoft helpers** (`microsoft.dfy`, module `Microsoft`):
  - folder names and page size
  - token expiry and refresh
  - message parsing
  - credential storage round trip
  - folder-id lookup
  - move and delete requests

The database is the `Store` class (`store.dfy`, module `Storage`). Its
emails and accounts are maps from row id to row. It is write-through: an
update is what the next read sees. Shared definitions live in `common.dfy`
(module `Common`):

- the category and status enumerations with their stored values
- ASCII case mapping
- `strip`, `split`/`join`, and substring search
- decimal rendering

Everything the worker obtains from outside is a parameter:

- what a provider answers
- what the language model says
- what `json.loads` decodes
- what decrypting credentials yields
- the current time, in integer seconds

## Model

| member | source | states |
|---|---|---|
| Common.CategoryByNameRoundTrip | alembic/versions/001_initial_schema.py:70-72 | Looking a category up by its own member name finds that category. |
| Common.CategoryValueInjective | worker/classifiers/ollama_classifier.py:162-173 | No two categories share a stored value. |
| Common.StatusValueInjective | worker/tasks/maintenance.py:141-150 | No two statuses share a stored value. |
| Common.JoinSplit | shared/integrations/gmail.py:169-174 | Joining the pieces of a split on the separator gives the text back. |
| Common.SplitJoin | shared/integrations/gmail.py:169-174 | Splitting a join of separator-free pieces on the separator gives the pieces back. |
| Rules.MatchesIffEveryConditionHolds | worker/rules/rules_parser.py:58-100 | A rule's condition loop succeeds exactly when every condition holds. |
| Rules.UnknownConditionIgnored | worker/rules/rules_parser.py:95-96 | A condition of an unknown type can be inserted anywhere without changing the verdict. |
| Rules.AlternativeIsPlainPattern | worker/rules/rules_parser.py:106-118 | Each alternative of a `\|` pattern acts as a plain pattern of its stripped text. |
| Rules.EmptyAlternativeMatchesAll | worker/rules/rules_parser.py:112-115 | A `\|` pattern with an alternative that is empty after stripping matches every text. |
| Rules.PlainPatternOccurs | worker/rules/rules_parser.py:116-118 | Without `\|`, the pattern holds iff its lower-cased form occurs at some position of the text. |
| Rules.NoAttachmentNameMatches | worker/rules/rules_parser.py:91-94 | With no attachment names, `attachment_name_contains` never holds. |
| Rules.ConditionIgnoresCase | worker/rules/rules_parser.py:60-62 | A condition's verdict does not change when the email's text fields are lower-cased. |
| Rules.ParseRule | worker/rules/rules_parser.py:195-238 | An entry is kept iff it is a mapping with a truthy name, truthy conditions and a valid category name; the kept rule has that category. |
| Rules.ParseRuleDefaults | worker/rules/rules_parser.py:217-225 | A missing category, folder, auto_delete or priority defaults to UNKNOWN, none, false or 0. |
| Rules.CategoryIgnoresCase | worker/rules/rules_parser.py:217-221 | The category named in an entry is case-insensitive. |
| Rules.ParseRuleRoundTrip | worker/rules/rules_parser.py:195-238 | Writing a well-formed rule as an entry and parsing it back gives the same rule. |
| Rules.ParseAllFromEntries | worker/rules/rules_parser.py:186-190 | Every loaded rule is the parse of some entry, and no more rules than entries are loaded. |
| Rules.SortByPrioritySorted | worker/rules/rules_parser.py:162-163 | The sort orders rules by descending priority and is a permutation. |
| Rules.SortByPriorityStable | worker/rules/rules_parser.py:162-163 | The sort is stable: rules of equal priority keep their file order. |
| Rules.FirstMatch | worker/rules/rules_parser.py:240-260 | No rule is reported iff none matches; a reported rule is one of the rules and matches. |
| Rules.FirstMatchAtIndex | worker/rules/rules_parser.py:254-258 | The earliest matching rule is the one reported. |
| Rules.HighestPriorityEarliestRuleWins | worker/rules/rules_parser.py:135-169 | Over loaded rules, the reported rule has the highest priority among matching rules and is the first matching rule of that priority in file order. |
| Rules.EffectiveRulesIdempotent | worker/rules/rules_parser.py:250-251 | Once rules are in effect, looking them up again with the same file changes nothing. |
| Rules.RulesParser.constructor | worker/rules/rules_parser.py:124-133 | A new parser holds no rules and has never loaded. |
| Rules.RulesParser.LoadRulesFile | worker/rules/rules_parser.py:171-193 | The valid entries are appended in file order; the load time is unchanged. |
| Rules.RulesParser.LoadRules | worker/rules/rules_parser.py:135-169 | Held rules that were loaded before (without force) and an unusable directory change nothing; otherwise the rules become the file's valid rules sorted by priority, stamped with the time. |
| Rules.RulesParser.FindMatchingRule | worker/rules/rules_parser.py:240-260 | Rules are loaded when none are held; the result is the first rule in priority order that matches. |
| Rules.RulesParser.GetCategoryForEmail | worker/rules/rules_parser.py:262-273 | The category of the first matching rule, none when no rule matches. |
| Classifier.Fallback | worker/classifiers/ollama_classifier.py:193-199 | UNKNOWN, confidence 20, the fallback reason. |
| Classifier.Find | worker/classifiers/ollama_classifier.py:150 | The first position of the character, none iff absent. |
| Classifier.RFind | worker/classifiers/ollama_classifier.py:151 | The last position of the character, none iff absent. |
| Classifier.CandidateIsBracedCore | worker/classifiers/ollama_classifier.py:147-157 | Around the first `{` and the last `}`, the decoder is handed exactly the braced core of the stripped answer. |
| Classifier.MapCategoryRoundTrip | worker/classifiers/ollama_classifier.py:162-175 | Every category's stored value maps back to that category. |
| Classifier.MapCategoryOtherwiseUnknown | worker/classifiers/ollama_classifier.py:175 | A name that is no category's value maps to UNKNOWN. |
| Classifier.ParseIntRoundTrip | worker/classifiers/ollama_classifier.py:177 | `int(str(n)) == n` for every integer. |
| Classifier.GroupingUnderscoreIgnored | worker/classifiers/ollama_classifier.py:177 | An underscore between two digit runs is grouping only: `int("8_5") == int("85") == 85`. |
| Classifier.Truncate | worker/classifiers/ollama_classifier.py:177 | `int(x)` of a real truncates toward zero. |
| Classifier.Clamp | worker/classifiers/ollama_classifier.py:177 | The confidence lies in 0..100; a value in range is kept; a value below or above is clamped to 0 or 100. |
| Classifier.ParseLlmResponse | worker/classifiers/ollama_classifier.py:143-191 | Whatever the answer, the confidence lies in 0..100. |
| Classifier.NoBracesFallsBack | worker/classifiers/ollama_classifier.py:153-154 | An answer without `{` or `}` yields the fallback. |
| Classifier.UndecodableFallsBack | worker/classifiers/ollama_classifier.py:157 | An answer the decoder rejects yields the fallback. |
| Classifier.WellFormedReplyTaken | worker/classifiers/ollama_classifier.py:159-184 | A reply with a known category name and an in-range confidence is taken as it is. |
| Classifier.InvalidFieldFallsBack | worker/classifiers/ollama_classifier.py:159-199 | A decoded reply whose category is present but not text, or whose confidence `int()` rejects, yields the fallback. |
| Classifier.NumericConfidenceClamped | worker/classifiers/ollama_classifier.py:159-184 | A numeric confidence of any size is truncated and clamped: below 1 gives 0, 100 or more gives 100, otherwise the integer part; the category text is mapped case-insensitively and the reason kept or defaulted. |
| Classifier.EmptyReplyDefaults | worker/classifiers/ollama_classifier.py:160-180 | A reply without the three fields gives UNKNOWN, 50 and "No reason provided". |
| Classifier.ClassifyEmail | worker/classifiers/ollama_classifier.py:24-62 | Never fails: a raised model call gives UNKNOWN with confidence 0 and the error; otherwise the parsed answer; confidence always in 0..100. |
| Connectors.ConnectionReport | shared/integrations/base.py:105-127 | A test succeeds iff connecting did not fail; it reports the address on success, and the error text and class otherwise. |
| Connectors.ReportMessageTellsOutcome | shared/integrations/base.py:116-127 | The report's message alone tells success from failure. |
| Connectors.Connector.constructor | shared/integrations/base.py:19-29 | The connector keeps the address and the credentials as given, unconnected, with no request sent. |
| Connectors.Connector.Connect | shared/integrations/base.py:32-41 | The connect request is recorded; it fails with the provider's failure, and connects otherwise. |
| Connectors.Connector.Disconnect | shared/integrations/base.py:43-46 | Records the disconnect and leaves the connector unconnected. |
| Connectors.Connector.MoveEmail | shared/integrations/base.py:77-90 | The provider's answer to the move; the request is recorded. |
| Connectors.Connector.DeleteEmail | shared/integrations/base.py:92-103 | The provider's answer to the delete, soft by default; the request is recorded. |
| Connectors.Connector.TestConnection | shared/integrations/base.py:105-127 | Returns the connection report; a failed connect is not followed by a disconnect; a successful one is. |
| Storage.Store.constructor | alembic/versions/001_initial_schema.py:60-91 | An empty email table that respects the unique message-id index. |
| Actions.EmailView | worker/actions/email_actions.py:155-161 | Rule matching sees no attachment names. |
| Actions.DefaultFolder | worker/actions/email_actions.py:245-269 | Professional, personal, spam and unknown have no default folder; the others have a non-empty one. |
| Actions.RaisedLeavesEmail | worker/actions/email_actions.py:181-216 | A connector block that raised has changed nothing in the email. |
| Actions.DispatchContract | worker/actions/email_actions.py:106-242 | A missing email or account is reported before any connector; an error changes no row; a connector is connected first and disconnected last; success changes only the action fields of that email and marks it CLASSIFIED. |
| Actions.DispatchSuccessShape | worker/actions/email_actions.py:170-221 | On success the email was either moved and tagged, or soft-deleted and tagged, or left alone, never moved and deleted. |
| Actions.DispatchFollowsReplies | worker/actions/email_actions.py:180-221 | Once connected, exactly the planned request is sent. A move the provider accepts records the folder and adds `moved_to:<folder>`; an accepted soft delete marks the email deleted now and adds `deleted`; a refusal adds no tag and changes only the status; a request that raises is an error with the tags so far and changes no email. |
| Actions.DispatchWithoutConnection | worker/actions/email_actions.py:180-242 | A connector that cannot be made is an error with the "Failed to create connector" text and sends nothing; a failed connect is an error with its message, followed only by the disconnect; neither changes an email. |
| Actions.SuccessWhateverSubActionsAnswer | worker/actions/email_actions.py:183-221 | Success, with the email CLASSIFIED, whenever connecting works and nothing raises, even if the move or delete returned false. |
| Actions.SpamWithoutRuleIsDeleted | worker/actions/email_actions.py:175-214 | Spam without a matching rule is never moved. A connected provider gets exactly one soft delete, and when it accepts, the email is marked deleted now, keeps its folder, and the only tag is `deleted`. |
| Actions.MatchedRuleTagFirst | worker/actions/email_actions.py:170-174 | A matching rule is named in the first action tag. |
| Actions.ConnectorBlock | worker/actions/email_actions.py:181-213 | Its result and the new rows are those of the connector-block specification; the requests sent are connect then at most one move or delete. |
| Actions.ApplyClassificationAction | worker/actions/email_actions.py:106-242 | Its result, rows and requests are those of `Dispatch`, with the rules in effect after the lookup. |
| Actions.DecideAction | worker/actions/email_actions.py:166-178 | The folder, the delete decision and the tags come from the rule when one matched, and from the category otherwise. |
| Actions.ActOn | worker/actions/email_actions.py:180-242 | Its result, rows and requests are those of `Act`. |
| Actions.Outcomes | worker/actions/email_actions.py:301-343 | One outcome per listed email. |
| Actions.BulkStatus | worker/actions/email_actions.py:349-355 | "success" iff nothing failed; "partial" iff some failed and some succeeded; "error" iff all failed. |
| Actions.BulkMovePartition | worker/actions/email_actions.py:301-343 | Together the succeeded ids and the failed ids are the input ids, as a multiset. |
| Actions.BulkMoveTotal | worker/actions/email_actions.py:358-363 | The succeeded and failed lists are together as long as the input. |
| Actions.SucceededMembers | worker/actions/email_actions.py:321-327 | An id is reported moved iff one of its occurrences was moved. |
| Actions.OutcomeAt | worker/actions/email_actions.py:301-343 | The outcome recorded for an email is that email's own move. |
| Actions.MoveOneEmail | worker/actions/email_actions.py:302-343 | One loop pass: the move outcome, and the email archived to the folder exactly when moved. |
| Actions.BulkMoveEmails | worker/actions/email_actions.py:272-373 | Succeeded and failed are the outcomes in input order; the total is the input length; the status is as above; exactly the moved emails are ARCHIVED in the folder. |
| Actions.NonGmailRefused | worker/actions/email_actions.py:414-419 | A non-Gmail account is refused with an error naming Gmail, before any connector. |
| Actions.LabelAppliedIff | worker/actions/email_actions.py:376-463 | A label is reported applied iff the Gmail provider's label request returned true; any connector is disconnected last. |
| Actions.ApplyLabel | worker/actions/email_actions.py:376-463 | The result and requests are those of `LabelOutcome`; no row changes. |
| Actions.ClassificationOf | worker/actions/email_actions.py:520-541 | The confidence lies in 0..100. |
| Actions.RuleOverridesLlm | worker/actions/email_actions.py:520-541 | A matching rule decides alone, with confidence 95 and "Matched rule: <name>"; otherwise the model's answer on the body preview when there is one and on "" when there is none. |
| Actions.SelectionIsPendingAndBounded | worker/actions/email_actions.py:494-501 | The query selects at most `limit` PENDING emails, and misses none when it selects fewer. |
| Actions.ProcessedIsClassifiedPlusErrors | worker/actions/email_actions.py:508-567 | Each processed email counts once, as classified or as an error. |
| Actions.ClassifyPendingEffect | worker/actions/email_actions.py:508-567 | One pass changes only its row: ERROR when the commit raised, else CLASSIFIED or left PROCESSING; confidence in 0..100. |
| Actions.ClassifyAllPendingEffect | worker/actions/email_actions.py:508-567 | After the loop over distinct ids, each row is settled as above and the others are untouched. |
| Actions.BulkClassifySettlesSelection | worker/actions/email_actions.py:466-586 | Every selected email ends settled as above, and no other row changes. |
| Actions.LookupStable | worker/rules/rules_parser.py:250-251 | A second lookup with the same file keeps the rules and the load time of the first. |
| Actions.Classify | worker/actions/email_actions.py:520-541 | The rule lookup's effect on the parser, the matching rule, and the classification of `ClassificationOf`. |
| Actions.ClassifyPendingEmail | worker/actions/email_actions.py:508-567 | The rows after one pass are those of `ClassifyPending`. |
| Actions.BulkClassifyPendingEmails | worker/actions/email_actions.py:466-586 | A failed query changes nothing. Otherwise at most `limit` PENDING emails are selected, and none is left out when fewer are; the counts are the selection's size, successes and errors; every selected email ends ERROR when its commit raised and CLASSIFIED or PROCESSING otherwise; no other row changes. |
| Actions.ClassifyEach | worker/actions/email_actions.py:508-567 | processed = classified + errors = number of selected emails; the rows are those of the loop specification. |
| ClassificationTask.ClassifyStoredContract | worker/tasks/email_classification.py:81-159 | Success iff the commit succeeded. Success reports the rule's name exactly when one matched (then confidence 95), a confidence in 0..100, and the recorded classification. The email ends CLASSIFIED or PROCESSING as the dispatcher succeeded or not. An error changes nothing. |
| ClassificationTask.SingleAgreesWithBulkPass | worker/tasks/email_classification.py:100-137 | A committed single-email run leaves the rows as one bulk-loop pass does. |
| ClassificationTask.ClassifySingleEmail | worker/tasks/email_classification.py:61-159 | A missing email is reported and nothing changes; otherwise result and rows are those of `ClassifyStored`. |
| Sync.Preview | worker/tasks/email_sync.py:78 | The preview is a prefix of the body of at most 500 characters, the whole body when it is short, "" for no body. |
| Sync.SaveAllAppend | worker/tasks/email_sync.py:59-84 | Saving a concatenation is saving its parts in turn. |
| Sync.ClashSticks | alembic/versions/001_initial_schema.py:91 | Once the unique index rejects the save, nothing further is saved. |
| Sync.SaveAllShape | worker/tasks/email_sync.py:44-94 | A save keeps the unique index, keeps existing rows, and adds `count` PENDING rows of this account under fresh ids, with previews of at most 500 characters. |
| Sync.SaveAllCovers | worker/tasks/email_sync.py:59-84 | After a successful save the account holds every fetched message id. |
| Sync.HeldBatchSkipped | worker/tasks/email_sync.py:61-69 | A batch the account already holds changes nothing. |
| Sync.SaveTwiceInsertsOnce | worker/tasks/email_sync.py:44-94 | Saving the same batch again inserts nothing. |
| Sync.Synced | worker/tasks/email_sync.py:87-91 | The account is synced now, its total grows by the count, its error is cleared, and nothing else changes. |
| Sync.SaveEmails | worker/tasks/email_sync.py:44-94 | An empty batch does nothing; a clash rolls back with the index error; otherwise the rows are those of the save specification and the account is Synced. |
| Sync.UpdateAccountError | worker/tasks/email_sync.py:97-112 | Records the message on the account if it exists; nothing else changes. |
| Sync.LegacyHost | worker/tasks/email_sync.py:167-173 | Gmail addresses get imap.gmail.com, Outlook and Hotmail get outlook.office365.com, and anything else falls back to imap.gmail.com. |
| Sync.LegacyCredentials | worker/tasks/email_sync.py:175-182 | The six legacy IMAP keys: port 993, SSL, the address as user name, the password. |
| Sync.LegacyImapCredentials | worker/tasks/email_sync.py:160-188 | A bare-password IMAP account gets the legacy credentials; an object is used as it is. |
| Sync.DecryptionFailureIsValueError | worker/tasks/email_sync.py:157-215 | A decryption failure is a ValueError for every account type. |
| Sync.SyncAccount | worker/tasks/email_sync.py:246-305 | A missing account and a ValueError are rejected with the emails, the accounts and the next id unchanged. Any other failure records the error on the account, keeps the emails and does not disconnect. It completes iff the connector, the fetch and the save all succeed; then it disconnects, stores the saved rows, marks a non-empty sync on the account (`Synced`), stores refreshed credentials, and triggers classification exactly when something new was saved. |
| Maintenance.ExpiredIds | worker/tasks/maintenance.py:40-51 | Exactly the soft-deleted emails deleted before the cutoff. |
| Maintenance.CleanupRemovesExactlyExpired | worker/tasks/maintenance.py:38-65 | Removes exactly the expired rows, keeps the others unchanged, and the reported count is the number removed. |
| Maintenance.CleanupIdempotent | worker/tasks/maintenance.py:38-65 | A second cleanup at the same time removes nothing. |
| Maintenance.WithoutExpiredIsKept | worker/tasks/maintenance.py:55-58 | Deleting the expired ids one by one leaves what the cleanup keeps. |
| Maintenance.CleanupQuarantine | worker/tasks/maintenance.py:26-82 | On error: 0 deleted and nothing changed. Otherwise the expired rows are deleted (seven days by default) and their number is reported. |
| Maintenance.RecentIds | worker/tasks/maintenance.py:153-155 | The emails created at or after `since`. |
| Maintenance.SliceSumIsUnion | worker/tasks/maintenance.py:109-150 | Counts over distinct keys add up to the size of the union. |
| Maintenance.CategoryCountsAddUp | worker/tasks/maintenance.py:109-155 | The per-category counts add up to total_emails. |
| Maintenance.StatusCountsAddUp | worker/tasks/maintenance.py:141-155 | The per-status counts add up to total_emails. |
| Maintenance.OrZero | worker/tasks/maintenance.py:130-136 | A NULL or zero aggregate reports 0; a non-negative one reports its truncation. |
| Maintenance.StatusValuesAreNotTheTotalKey | worker/tasks/maintenance.py:141-155 | No status value collides with the total_emails key. |
| Maintenance.CountCategories | worker/tasks/maintenance.py:109-118 | One count per category value, each the number of recent emails of that category, and no other key. |
| Maintenance.CountStatuses | worker/tasks/maintenance.py:141-150 | One count per status value, each the number of recent emails with that status, and no other key. |
| Maintenance.GenerateDailyStats | worker/tasks/maintenance.py:86-174 | Fails iff the database failed. Otherwise it reports the category counts, the status counts plus total_emails (recent emails), and the processing aggregates. |
| Maintenance.OptimizeDatabase | worker/tasks/maintenance.py:179-274 | An outer error fails the run. Otherwise each of the five tables gets its own outcome in order, whatever the others' were; tables_optimized and errors count them and add up to 5. |
| Maintenance.SuccessesAndErrorsPartition | worker/tasks/maintenance.py:257-266 | Every table outcome is a success or an error, never both. |
| Gmail.ChildIsSmaller | shared/integrations/gmail.py:302-320 | A nested part is smaller than its container (the walks terminate). |
| Gmail.ExtractBody | shared/integrations/gmail.py:283-320 | The text is that of the body specification: a part's own data, otherwise its parts in order, with containers recursed, text/plain appended and text/html used only while the text is empty. |
| Gmail.PlainLeaves | shared/integrations/gmail.py:302-320 | Builds one text/plain leaf per data string. |
| Gmail.PlainPartsConcatenate | shared/integrations/gmail.py:302-315 | A multipart of text/plain parts yields their decoded texts joined in order. |
| Gmail.HtmlIsAFallback | shared/integrations/gmail.py:316-320 | A text/html part replaces the text only while it is empty, and is ignored otherwise. |
| Gmail.ExtractAttachments | shared/integrations/gmail.py:322-346 | The attachments are those of the attachment specification, in document order. |
| Gmail.NamedAppend | shared/integrations/gmail.py:322-346 | Collecting named parts distributes over concatenation. |
| Gmail.AttachmentsAreNamedLeaves | shared/integrations/gmail.py:322-346 | The attachments are exactly the leaves below the payload that name a file; containers are never collected. |
| Gmail.LeavesHaveNoParts | shared/integrations/gmail.py:330-345 | Every leaf has no nested parts. |
| Gmail.NamedComeFromNamedParts | shared/integrations/gmail.py:336-344 | Every record comes from a part that names a file. |
| Gmail.AttachmentsComeFromNamedLeaves | shared/integrations/gmail.py:322-346 | Every attachment comes from a leaf with a non-empty filename, with octet-stream and size 0 as defaults. |
| Gmail.HeaderValue | shared/integrations/gmail.py:246-247 | A header is absent iff no header has that name; otherwise its value is that of the last occurrence. |
| Gmail.ParseMessage | shared/integrations/gmail.py:236-281 | Subject, sender and message id come from the headers with their defaults. The body is a prefix of the text of at most 2000 characters. The attachments are the payload's; has-attachments iff the count > 0, and the count is the list's length. |
| Gmail.NatToStringHasNoSpace | shared/integrations/gmail.py:171 | A rendered number has no space. |
| Gmail.DateTextHasNoSpace | shared/integrations/gmail.py:171 | A rendered date has no space. |
| Gmail.SplitAfterSeparator | shared/integrations/gmail.py:169-174 | Splitting separator-free text plus separator gives that text first. |
| Gmail.QueryTerms | shared/integrations/gmail.py:169-174 | For a folder without spaces, splitting the query on spaces gives back `label:` and, exactly when `since` is given, `after:`. |
| Gmail.Reported | shared/integrations/gmail.py:366-382 | True iff the API succeeded; False iff it raised HttpError; any other exception propagates. |
| Gmail.GmailConnector.constructor | shared/integrations/gmail.py:41-51 | No service and no request yet. |
| Gmail.GmailConnector.EnsureService | shared/integrations/gmail.py:110-139 | With a service, nothing happens. Otherwise connecting fails iff it fails, with a ConnectionError. The service is set and the profile check sent unless the failure came before the build, so a rejected profile check still leaves the service set. |
| Gmail.GmailConnector.Send | shared/integrations/gmail.py:366-382 | The reported answer; the request is recorded. |
| Gmail.GmailConnector.MoveEmail | shared/integrations/gmail.py:348-382 | With a service, or after a successful connect, one request adds the folder label and removes INBOX, and its answer is reported. A failed connect raises and sends no move. |
| Gmail.GmailConnector.DeleteEmail | shared/integrations/gmail.py:384-416 | With a service, or after a successful connect, one delete (permanent) or trash (default) request, whose answer is reported. A failed connect raises and sends no delete. |
| Gmail.GmailConnector.Disconnect | shared/integrations/gmail.py:141-145 | Drops the service; sends nothing. |
| Microsoft.LowerOfLowerCase | shared/integrations/microsoft.py:143 | Lower-casing lower-case text changes nothing. |
| Microsoft.LowerIsLowerCase | shared/integrations/microsoft.py:143 | Lower-cased text has no capital letter. |
| Microsoft.GraphFolderIsLowerCase | shared/integrations/microsoft.py:136-143 | The Graph folder read is always lower case. |
| Microsoft.GraphFolderIgnoresCase | shared/integrations/microsoft.py:136-143 | Folder names differing only in case read the same Graph folder. |
| Microsoft.PageSize | shared/integrations/microsoft.py:150 | `$top` is at most the limit and at most 999, and equals one of them. |
| Microsoft.ExpiryIsMonotone | shared/integrations/microsoft.py:319-331 | The check raises exactly for an expiry that is not a time. An expired token stays expired later; an unexpired one has a known expiry more than five minutes away. |
| Microsoft.ParseMessage | shared/integrations/microsoft.py:266-317 | The message id is the Internet message id, else the Graph id, else "". Subject "No Subject" by default. The body is a prefix of the preview of at most 2000 characters. Missing time means now; the attachment count is 0. |
| Microsoft.SenderEndsWithAddress | shared/integrations/microsoft.py:282-284 | The sender's display form ends with the address in angle brackets. |
| Microsoft.AttachmentCountCanUnderstate | shared/integrations/microsoft.py:301-311 | A record can report attachments with a count of 0. |
| Microsoft.Read | shared/integrations/microsoft.py:46-71 | Tenant "common" and the two scopes by default. An expiry text becomes a time when it parses and no expiry otherwise; a falsy value gives no expiry; any other truthy value is kept as it is, not a time. |
| Microsoft.Stored | shared/integrations/microsoft.py:428-446 | Nothing without an access token; an expiry that is not a time raises (no `isoformat`); otherwise the seven keys with the two tokens. |
| Microsoft.StoredCredentialsReadBack | shared/integrations/microsoft.py:428-446 | Stored credentials read back give the same settings. |
| Microsoft.Refreshed | shared/integrations/microsoft.py:333-383 | No refresh token fails at once. It succeeds iff the token is granted: the new access token, the old refresh token unless a new one came, and an expiry `expires_in` (default 3600) from now. A refusal or an exception fails with its message. |
| Microsoft.FreshTokenIsNotExpired | shared/integrations/microsoft.py:319-383 | A token granted for more than five minutes is not expired on arrival. |
| Microsoft.FolderId | shared/integrations/microsoft.py:385-426 | A well-known name, in any case, is its own id; otherwise the first folder found by display name; none on failure. |
| Microsoft.UnresolvedFolderSendsNoMove | shared/integrations/microsoft.py:207-210 | Without a usable destination id no move is sent and the move reports failure. |
| Microsoft.DeleteRequests | shared/integrations/microsoft.py:240-254 | A delete sends at least one request. |
| Microsoft.SoftDeleteMovesToTrash | shared/integrations/microsoft.py:243-254 | Deleting sends exactly one request: a hard delete when permanent, else a move to deleteditems; the fallback is never taken. |
| Microsoft.TrashIsWellKnown | shared/integrations/microsoft.py:397-407 | "deleteditems" is a well-known folder name. |
| Microsoft.MicrosoftConnector.constructor | shared/integrations/microsoft.py:46-71 | The settings are those read from the credentials; no session and no request. |
| Microsoft.MicrosoftConnector.RefreshAccessToken | shared/integrations/microsoft.py:333-383 | The tokens become the refreshed ones, or the failure is reported and they stay. |
| Microsoft.MicrosoftConnector.Connect | shared/integrations/microsoft.py:73-105 | An expiry that is not a time makes the expiry check raise: a connection failure with no session and nothing sent. An expired token is refreshed first, and a refresh failure opens no session. Otherwise the session opens, GET /me is sent, and a failing check is reported with the session left open. The failure, session, requests and tokens equal `ConnectError`, `OpensSession`, `ConnectRequests` and `ConnectedTokens`. |
| Microsoft.ConnectFailsIff | shared/integrations/microsoft.py:80-105 | `connect` raises exactly when the expiry is not a time, an expired token cannot be refreshed, or GET /me is rejected. A success has opened the session and sent GET /me. A raise after the session opened is the probe's error. A connect that opens no session sends nothing and keeps the tokens. |
| Microsoft.MicrosoftConnector.Disconnect | shared/integrations/microsoft.py:107-112 | Closes the session; sends nothing. |
| Microsoft.MicrosoftConnector.EnsureSession | shared/integrations/microsoft.py:202-203 | An open session stays and nothing is sent. Otherwise `connect` runs: the result is a ConnectionError exactly when `ConnectError` gives a message, and carries that message; the session, requests and tokens are those `connect` leaves. |
| Microsoft.MicrosoftConnector.GetFolderId | shared/integrations/microsoft.py:385-426 | The id is `FolderId`; a search is sent only for a name that is not well known. |
| Microsoft.MicrosoftConnector.MoveEmail | shared/integrations/microsoft.py:191-224 | On an open session: the lookup, then the move only for a usable id; reports whether Graph accepted it. Without a session it raises a ConnectionError with `connect`'s message exactly when `connect` fails, having sent only what `connect` sent; otherwise GET /me, then the move requests and the same answer. |
| Microsoft.MicrosoftConnector.TrashId | shared/integrations/microsoft.py:248 | The trash id is "deleteditems", found with no request. |
| Microsoft.MicrosoftConnector.SendDelete | shared/integrations/microsoft.py:240-254 | Sends the one delete request and reports whether Graph accepted it. |
| Microsoft.MicrosoftConnector.DeleteEmail | shared/integrations/microsoft.py:226-264 | On an open session: one hard delete (permanent) or one move to the trash; reports whether Graph accepted it. Without a session it raises a ConnectionError with `connect`'s message exactly when `connect` fails, having sent only what `connect` sent; otherwise GET /me, then the one delete request and the same answer. |

## Left out

- The store is write-through. Transactions are modelled only where their
  outcome shows: a duplicate message id rolls back the whole save, a failed
  classification commit marks the row ERROR, and a failed cleanup or stats
  query changes nothing. The text of a database error is a stand-in.
- The unique index on `emails.message_id` is modelled as rejecting a save
  that inserts a message id another account already holds. The sync then
  records that error on the account, as the code does for any exception.
- `sync_account`'s `NotImplementedError` ("skipped") branch and the
  unsupported-account-type branch are left out. The three account types
  modelled are all the enumeration has, and no connector constructor
  raises `NotImplementedError`.
- The outer `except` of `bulk_classify_pending_emails` is modelled only
  for the query failure. Errors inside the loop are the per-email commit
  failures.
- The IMAP connector (shared/integrations/imap.py) and
  shared/oauth2_manager.py are not part of this model.
- `_log_action` is not modelled. It adds a `processing_logs` row and
  commits the session, so a move or soft delete the provider accepted is
  committed at once. The model has no log table. In the model nothing can
  fail after that commit (neither the disconnect nor the final commit
  raises), so the early commit changes no modelled outcome.
- `_get_connector_for_account` is a parameter (`Acquire`). It covers
  credential decryption and the choice of connector class.
- `processing_time_ms` is not written by the dispatcher model: it is the
  wall-clock time the call took.
- Processing-time aggregates are inputs. The database computes them, and
  only their conversion (`OrZero`) is modelled. The `date` field of the
  daily statistics is left out.
- Maintenance.OptimizeDatabase: the index-health query only logs, so it is
  not part of the result.
- Gmail:
  - The listing loop of `fetch_emails` and `_fetch_message_details` are
    not modelled.
  - `_build_credentials`, `_refresh_token_if_needed` and the internals of
    `connect` are not modelled. How connecting ends is given: it fails
    before the service is built, or the profile check is rejected after
    the build, or it succeeds.
  - `internalDate` is taken down to the second, with no local-time
    conversion.
  - A part without a `body` key (a `KeyError` in the code) is not
    modelled: every part has a body.
  - Years below 1000 are rendered without zero padding.
- Microsoft:
  - The request loop of `fetch_emails` and the `$filter` date formatting
    are not modelled.
  - JSON `null` credential values are not told apart from other
    non-string values.
  - The choice of MSAL client class is not modelled.
  - An expiry value that is neither text, a number, a flag nor a list is
    named `dict` in the text of the `TypeError` it causes.
  - A message that makes `_parse_microsoft_message` raise is not modelled.
- Microsoft.MicrosoftConnector.MoveEmail and
  Microsoft.MicrosoftConnector.DeleteEmail model a request exception as a
  request Graph did not accept (`false`), which is how the code reports it.
- Base64url and UTF-8 decoding, ISO 8601 parsing and formatting, and
  `json.loads` are parameters.
- Logging, Celery scheduling (`sync_all_accounts`,
  `classify_pending_emails.delay`) and the prompt text sent to the
  language model are not modelled. The trigger of classification is
  modelled as the `classifyLimit` of the sync result.
- Case mapping and whitespace stripping are ASCII-only.
- Classifier.ParseInt: `int()` of text accepts only ASCII digits here.
  Python also accepts other Unicode decimal digits; underscore grouping is
  modelled.
- Classifier.ParseLlmResponse: the reply's `reason` is modelled as text or
  absent. A reason of another JSON type (`null`, a number), which the source
  passes through unchanged, is not represented.
- Rules.RulesParser.LoadRules: rule priorities are integers. A YAML
  priority that cannot be compared with the others (text beside numbers)
  makes the source's sort raise. That error is caught, so the rules stay in
  file order and `last_loaded` stays unset. The model does not represent
  non-numeric priorities.
