/**
 * The classification rule engine (worker/rules/rules_parser.py).
 *
 * A rule is a named set of conditions over an email's subject, sender, body
 * preview and attachments, a target category, an optional folder, an
 * auto-delete flag and a priority.  Rules come from the `rules:` list of the
 * global rules file, arrive here already decoded from YAML, are validated
 * one by one, and are kept sorted by descending priority; an email is
 * classified by the first rule that matches it.
 */
module Rules {
  import opened Common

  // ---------------------------------------------------------------------------
  // Emails and conditions
  // ---------------------------------------------------------------------------

  /** The fields of an email a rule can look at; absent text fields are `None`. */
  datatype EmailData = EmailData(
    subject: Option<string>,
    sender: Option<string>,
    bodyPreview: Option<string>,
    hasAttachments: bool,
    attachmentNames: seq<string>)

  /** A condition value as decoded from YAML: only text, booleans and integers are told apart. */
  datatype CondValue = Text(s: string) | Flag(b: bool) | Number(n: int) | Other

  datatype Condition = Condition(kind: string, value: CondValue)

  /** The `conditions` entry of a rule: a mapping, or some other (truthy) YAML value. */
  datatype ConditionField = Mapping(items: seq<Condition>) | NotAMapping

  /** `(field or '').lower()`. */
  function FieldText(f: Option<string>): string {
    Lower(f.GetOr(""))
  }

  /**
   * `_check_contains(text, pattern)`.  A pattern with `|` holds when any of its
   * stripped, lower-cased alternatives occurs in `text`; a pattern without `|`
   * holds when its lower-cased (unstripped) form occurs.  A value that is not
   * text raises inside the check, which the caller turns into "no match".
   */
  function CheckContains(text: string, pattern: CondValue): bool {
    match pattern
    case Text(p) =>
      if '|' in p then
        var alternatives := Split(p, '|');
        exists i :: 0 <= i < |alternatives| && AlternativeOccurs(alternatives[i], text)
      else
        IsSubstring(Lower(p), text)
    case _ => false
  }

  /** One alternative of a `|` pattern, stripped and lower-cased, occurs in the text. */
  predicate AlternativeOccurs(alternative: string, text: string) {
    IsSubstring(Lower(Strip(alternative)), text)
  }

  const KnownKinds: set<string> :=
    {"sender_contains", "sender_equals", "subject_contains", "subject_equals",
     "body_contains", "has_attachments", "attachment_name_contains"}

  /** Whether one condition holds for an email (an exception while checking counts as failure). */
  function ConditionHolds(c: Condition, d: EmailData): bool {
    var sender := FieldText(d.sender);
    var subject := FieldText(d.subject);
    var body := FieldText(d.bodyPreview);
    if c.kind == "sender_contains" then CheckContains(sender, c.value)
    else if c.kind == "sender_equals" then c.value.Text? && sender == Lower(c.value.s)
    else if c.kind == "subject_contains" then CheckContains(subject, c.value)
    else if c.kind == "subject_equals" then c.value.Text? && subject == Lower(c.value.s)
    else if c.kind == "body_contains" then CheckContains(body, c.value)
    else if c.kind == "has_attachments" then
      match c.value
      case Flag(b) => b == d.hasAttachments
      case Number(n) => n == (if d.hasAttachments then 1 else 0)
      case _ => false
    else if c.kind == "attachment_name_contains" then
      c.value.Text? &&
      exists i :: 0 <= i < |d.attachmentNames| && IsSubstring(Lower(c.value.s), Lower(d.attachmentNames[i]))
    else
      // an unknown condition type is only logged
      true
  }

  /** The condition loop of `ClassificationRule.matches`: stop at the first condition that does not hold. */
  function AllHold(items: seq<Condition>, d: EmailData): bool {
    if items == [] then true
    else if !ConditionHolds(items[0], d) then false
    else AllHold(items[1..], d)
  }

  // ---------------------------------------------------------------------------
  // Rules
  // ---------------------------------------------------------------------------

  datatype ClassificationRule = ClassificationRule(
    name: string,
    conditions: ConditionField,
    category: Category,
    folder: Option<string>,
    autoDelete: bool,
    priority: int)

  /** `ClassificationRule.matches`: every condition holds; conditions that are not a mapping never match. */
  function RuleMatches(rule: ClassificationRule, d: EmailData): bool {
    match rule.conditions
    case Mapping(items) => AllHold(items, d)
    case NotAMapping => false
  }

  /** A rule matches exactly when each of its conditions holds. */
  lemma {:induction false} MatchesIffEveryConditionHolds(items: seq<Condition>, d: EmailData)
    ensures AllHold(items, d) <==> forall i :: 0 <= i < |items| ==> ConditionHolds(items[i], d)
  {
    if items != [] {
      MatchesIffEveryConditionHolds(items[1..], d);
      assert forall i :: 1 <= i < |items| ==> items[i] == items[1..][i - 1];
    }
  }

  /** The conditions of a concatenation hold exactly when those of both parts do. */
  lemma {:induction false} AllHoldAppend(a: seq<Condition>, b: seq<Condition>, d: EmailData)
    ensures AllHold(a + b, d) == (AllHold(a, d) && AllHold(b, d))
  {
    if a == [] {
      assert a + b == b;
    } else {
      assert (a + b)[0] == a[0];
      assert (a + b)[1..] == a[1..] + b;
      AllHoldAppend(a[1..], b, d);
    }
  }

  /** A condition of an unknown type can be added anywhere without changing the verdict. */
  lemma UnknownConditionIgnored(before: seq<Condition>, after: seq<Condition>, c: Condition, d: EmailData)
    requires c.kind !in KnownKinds
    ensures AllHold(before + [c] + after, d) == AllHold(before + after, d)
  {
    AllHoldAppend(before + [c], after, d);
    AllHoldAppend(before, [c], d);
    AllHoldAppend(before, after, d);
    assert AllHold([c], d);
  }

  /**
   * Each alternative of a `|` pattern behaves as a plain pattern made of its
   * stripped text: the pipe pattern is the disjunction of those plain patterns.
   */
  lemma AlternativeIsPlainPattern(text: string, p: string, alternative: string)
    requires alternative in Split(p, '|')
    ensures CheckContains(text, Text(Strip(alternative))) == AlternativeOccurs(alternative, text)
  {
    SplitPiecesHaveNoSeparator(p, '|');
    StripKeepsOut(alternative, '|');
  }

  lemma StripKeepsOut(s: string, c: char)
    requires c !in s
    ensures c !in Strip(s)
  {
    var l := StripLeft(s);
    assert l == s[|s| - |l|..];
    assert Strip(s) == l[..|Strip(s)|];
  }

  /** An alternative that is empty after stripping (as in `"invoice|"`) makes the pattern match any text. */
  lemma EmptyAlternativeMatchesAll(text: string, p: string, i: int)
    requires '|' in p
    requires 0 <= i < |Split(p, '|')| && Strip(Split(p, '|')[i]) == ""
    ensures CheckContains(text, Text(p))
  {
    var alternatives := Split(p, '|');
    assert Lower(Strip(alternatives[i])) == [];
    assert [] <= text;
    assert AlternativeOccurs(alternatives[i], text);
  }

  /** Without `|`, the lower-cased pattern must occur at some position of the text, whitespace included. */
  lemma PlainPatternOccurs(text: string, p: string)
    requires '|' !in p
    ensures CheckContains(text, Text(p)) <==> exists k :: OccursAt(Lower(p), text, k)
  {
    assert CheckContains(text, Text(p)) == IsSubstring(Lower(p), text);
    IsSubstringAt(Lower(p), text);
  }

  /** With no attachments, an `attachment_name_contains` condition never holds. */
  lemma NoAttachmentNameMatches(v: CondValue, d: EmailData)
    requires d.attachmentNames == []
    ensures !ConditionHolds(Condition("attachment_name_contains", v), d)
  {
  }

  function LowerData(d: EmailData): EmailData {
    d.(subject := Some(FieldText(d.subject)),
       sender := Some(FieldText(d.sender)),
       bodyPreview := Some(FieldText(d.bodyPreview)),
       attachmentNames := seq(|d.attachmentNames|, i requires 0 <= i < |d.attachmentNames| => Lower(d.attachmentNames[i])))
  }

  /** Matching is insensitive to the letter case of the email's text fields. */
  lemma ConditionIgnoresCase(c: Condition, d: EmailData)
    ensures ConditionHolds(c, LowerData(d)) == ConditionHolds(c, d)
  {
    LowerIdempotent(d.subject.GetOr(""));
    LowerIdempotent(d.sender.GetOr(""));
    LowerIdempotent(d.bodyPreview.GetOr(""));
    forall i | 0 <= i < |d.attachmentNames|
      ensures Lower(LowerData(d).attachmentNames[i]) == Lower(d.attachmentNames[i])
    {
      LowerIdempotent(d.attachmentNames[i]);
    }
  }

  // ---------------------------------------------------------------------------
  // Parsing rule entries
  // ---------------------------------------------------------------------------

  /**
   * One item of the `rules:` list.  `None` stands for a key that is absent; a
   * `name` of `None` also covers a null name.  An item that is not a mapping
   * is `Malformed`.
   */
  datatype RuleEntry =
    | Entry(
        name: Option<string>,
        conditions: Option<ConditionField>,
        category: Option<CondValue>,
        folder: Option<string>,
        autoDelete: Option<bool>,
        priority: Option<int>)
    | Malformed

  /** The Python truthiness of a `conditions` value: an empty mapping is falsy. */
  predicate ConditionsGiven(c: Option<ConditionField>) {
    c.Some? && (c.value.Mapping? ==> c.value.items != [])
  }

  /** The category a rule entry names, if it names one: absent means `unknown`, upper-cased then looked up. */
  function EntryCategory(category: Option<CondValue>): Option<Category> {
    match category
    case None => CategoryByName(Upper("unknown"))
    case Some(Text(s)) => CategoryByName(Upper(s))
    case Some(_) => None
  }

  /** `_parse_rule`: validate an entry; `None` when it is skipped. */
  function ParseRule(e: RuleEntry): (r: Option<ClassificationRule>)
    ensures r.Some? <==>
      e.Entry? && e.name.Some? && e.name.value != "" && ConditionsGiven(e.conditions) && EntryCategory(e.category).Some?
    ensures r.Some? ==> r.value.category == EntryCategory(e.category).value
  {
    if !e.Entry? then None
    else if e.name.None? || e.name.value == "" then None
    else if !ConditionsGiven(e.conditions) then None
    else
      match EntryCategory(e.category)
      case None => None
      case Some(category) =>
        Some(ClassificationRule(
          e.name.value, e.conditions.value, category, e.folder,
          e.autoDelete.GetOr(false), e.priority.GetOr(0)))
  }

  /** An entry that omits category, folder, auto_delete and priority gets UNKNOWN, no folder, false and 0. */
  lemma ParseRuleDefaults(name: string, conditions: ConditionField)
    requires name != "" && ConditionsGiven(Some(conditions))
    ensures ParseRule(Entry(Some(name), Some(conditions), None, None, None, None))
         == Some(ClassificationRule(name, conditions, UNKNOWN, None, false, 0))
  {
    assert Upper("unknown") == "UNKNOWN";
  }

  /** The category name in an entry is case-insensitive. */
  lemma CategoryIgnoresCase(s: string)
    ensures EntryCategory(Some(Text(Lower(s)))) == EntryCategory(Some(Text(s)))
  {
    UpperLower(s);
  }

  /** How a rule is written as an entry of the rules file, its category by member name. */
  function EntryOf(rule: ClassificationRule): RuleEntry {
    Entry(Some(rule.name), Some(rule.conditions), Some(Text(CategoryName(rule.category))),
          rule.folder, Some(rule.autoDelete), Some(rule.priority))
  }

  /** Writing a well-formed rule as an entry and parsing it back gives the same rule. */
  lemma ParseRuleRoundTrip(rule: ClassificationRule)
    requires rule.name != "" && ConditionsGiven(Some(rule.conditions))
    ensures ParseRule(EntryOf(rule)) == Some(rule)
  {
    CategoryNameIsUppercase(rule.category);
    UpperOfUppercase(CategoryName(rule.category));
    CategoryByNameRoundTrip(rule.category);
  }

  /** The rules `_load_rules_file` keeps from a list of entries, in file order. */
  function ParseAll(entries: seq<RuleEntry>): seq<ClassificationRule> {
    if entries == [] then []
    else
      var last := entries[|entries| - 1];
      ParseAll(entries[..|entries| - 1]) + (match ParseRule(last) case Some(r) => [r] case None => [])
  }

  /** Every loaded rule is the parse of some entry of the file. */
  lemma {:induction false} ParseAllFromEntries(entries: seq<RuleEntry>)
    ensures forall r :: r in ParseAll(entries) ==> exists e :: e in entries && ParseRule(e) == Some(r)
    ensures |ParseAll(entries)| <= |entries|
  {
    if entries != [] {
      var init := entries[..|entries| - 1];
      ParseAllFromEntries(init);
      forall r | r in ParseAll(entries)
        ensures exists e :: e in entries && ParseRule(e) == Some(r)
      {
        if r in ParseAll(init) {
          var e :| e in init && ParseRule(e) == Some(r);
          assert e in entries;
        } else {
          assert entries[|entries| - 1] in entries;
        }
      }
    }
  }

  // ---------------------------------------------------------------------------
  // Priority order
  // ---------------------------------------------------------------------------

  /** Insert `x` before the first rule whose priority does not exceed its own. */
  function Insert(x: ClassificationRule, sorted: seq<ClassificationRule>): seq<ClassificationRule> {
    if sorted == [] || x.priority >= sorted[0].priority then [x] + sorted
    else [sorted[0]] + Insert(x, sorted[1..])
  }

  /** `rules.sort(key=priority, reverse=True)`: a stable sort, highest priority first. */
  function SortByPriority(rules: seq<ClassificationRule>): seq<ClassificationRule> {
    if rules == [] then [] else Insert(rules[0], SortByPriority(rules[1..]))
  }

  predicate SortedByPriority(rules: seq<ClassificationRule>) {
    forall i, j :: 0 <= i < j < |rules| ==> rules[i].priority >= rules[j].priority
  }

  /** The rules of one priority, in their original order. */
  function WithPriority(rules: seq<ClassificationRule>, p: int): seq<ClassificationRule> {
    if rules == [] then []
    else (if rules[0].priority == p then [rules[0]] else []) + WithPriority(rules[1..], p)
  }

  lemma {:induction false} InsertPermutes(x: ClassificationRule, sorted: seq<ClassificationRule>)
    ensures multiset(Insert(x, sorted)) == multiset([x] + sorted)
  {
    if sorted != [] && x.priority < sorted[0].priority {
      InsertPermutes(x, sorted[1..]);
      assert sorted == [sorted[0]] + sorted[1..];
    }
  }

  lemma PrependSorted(y: ClassificationRule, t: seq<ClassificationRule>)
    requires SortedByPriority(t)
    requires forall z :: z in t ==> z.priority <= y.priority
    ensures SortedByPriority([y] + t)
  {
    var r := [y] + t;
    forall i, j | 0 <= i < j < |r| ensures r[i].priority >= r[j].priority {
      assert r[j] == t[j - 1];
      if i == 0 {
        assert t[j - 1] in t;
      } else {
        assert r[i] == t[i - 1];
      }
    }
  }

  lemma {:induction false} InsertSorted(x: ClassificationRule, sorted: seq<ClassificationRule>)
    requires SortedByPriority(sorted)
    ensures SortedByPriority(Insert(x, sorted))
  {
    if sorted == [] || x.priority >= sorted[0].priority {
      forall z | z in sorted ensures z.priority <= x.priority {
        var m :| 0 <= m < |sorted| && sorted[m] == z;
      }
      PrependSorted(x, sorted);
    } else {
      var tail := sorted[1..];
      var rest := Insert(x, tail);
      InsertSorted(x, tail);
      InsertPermutes(x, tail);
      forall y | y in rest ensures y.priority <= sorted[0].priority {
        assert y in multiset(rest);
        if y != x {
          assert y in multiset(tail);
          var m :| 0 <= m < |tail| && tail[m] == y;
          assert sorted[m + 1] == y;
        }
      }
      PrependSorted(sorted[0], rest);
    }
  }

  /** Sorting orders by descending priority and only permutes the rules. */
  lemma {:induction false} SortByPrioritySorted(rules: seq<ClassificationRule>)
    ensures SortedByPriority(SortByPriority(rules))
    ensures multiset(SortByPriority(rules)) == multiset(rules)
  {
    if rules != [] {
      SortByPrioritySorted(rules[1..]);
      InsertSorted(rules[0], SortByPriority(rules[1..]));
      InsertPermutes(rules[0], SortByPriority(rules[1..]));
      assert rules == [rules[0]] + rules[1..];
    }
  }

  lemma {:induction false} InsertStable(x: ClassificationRule, t: seq<ClassificationRule>, p: int)
    ensures WithPriority(Insert(x, t), p) == WithPriority([x] + t, p)
  {
    if t == [] || x.priority >= t[0].priority {
    } else {
      InsertStable(x, t[1..], p);
      var tail := Insert(x, t[1..]);
      assert ([t[0]] + tail)[1..] == tail;
      assert ([x] + t)[1..] == t;
      assert ([x] + t[1..])[1..] == t[1..];
      if x.priority == p {
        assert WithPriority(Insert(x, t), p) == WithPriority(tail, p);
      }
    }
  }

  /** The sort is stable: rules of equal priority keep their relative order. */
  lemma {:induction false} SortByPriorityStable(rules: seq<ClassificationRule>, p: int)
    ensures WithPriority(SortByPriority(rules), p) == WithPriority(rules, p)
  {
    if rules != [] {
      SortByPriorityStable(rules[1..], p);
      InsertStable(rules[0], SortByPriority(rules[1..]), p);
      assert ([rules[0]] + SortByPriority(rules[1..]))[1..] == SortByPriority(rules[1..]);
    }
  }

  // ---------------------------------------------------------------------------
  // First match
  // ---------------------------------------------------------------------------

  /** The rule `find_matching_rule` reports for a list of rules. */
  function FirstMatch(rules: seq<ClassificationRule>, d: EmailData): (r: Option<ClassificationRule>)
    ensures r.None? <==> forall j :: 0 <= j < |rules| ==> !RuleMatches(rules[j], d)
    ensures r.Some? ==> r.value in rules && RuleMatches(r.value, d)
  {
    if rules == [] then None
    else if RuleMatches(rules[0], d) then Some(rules[0])
    else
      assert forall j :: 1 <= j < |rules| ==> rules[j] == rules[1..][j - 1];
      FirstMatch(rules[1..], d)
  }

  /** The rule at position `i` is the earliest rule that matches. */
  predicate FirstMatchAt(rules: seq<ClassificationRule>, d: EmailData, i: int) {
    0 <= i < |rules| && RuleMatches(rules[i], d) && forall j :: 0 <= j < i ==> !RuleMatches(rules[j], d)
  }

  /** The earliest matching rule is the one reported. */
  lemma {:induction false} FirstMatchAtIndex(rules: seq<ClassificationRule>, d: EmailData, i: int)
    requires FirstMatchAt(rules, d, i)
    ensures FirstMatch(rules, d) == Some(rules[i])
  {
    if i > 0 {
      assert forall j :: 1 <= j < |rules| ==> rules[j] == rules[1..][j - 1];
      assert !RuleMatches(rules[0], d);
      FirstMatchAtIndex(rules[1..], d, i - 1);
    }
  }

  /** A reported rule sits at a position before which nothing matches. */
  lemma {:induction false} FirstMatchHasIndex(rules: seq<ClassificationRule>, d: EmailData)
    requires FirstMatch(rules, d).Some?
    ensures exists k :: FirstMatchAt(rules, d, k) && rules[k] == FirstMatch(rules, d).value
  {
    if !RuleMatches(rules[0], d) {
      assert forall j :: 1 <= j < |rules| ==> rules[j] == rules[1..][j - 1];
      FirstMatchHasIndex(rules[1..], d);
      var k :| FirstMatchAt(rules[1..], d, k) && rules[1..][k] == FirstMatch(rules[1..], d).value;
      assert FirstMatchAt(rules, d, k + 1);
    } else {
      assert FirstMatchAt(rules, d, 0);
    }
  }

  /** The first match of a list is also the first match among the rules of its own priority. */
  lemma {:induction false} FirstMatchWithinPriority(rules: seq<ClassificationRule>, d: EmailData)
    requires FirstMatch(rules, d).Some?
    ensures FirstMatch(WithPriority(rules, FirstMatch(rules, d).value.priority), d) == FirstMatch(rules, d)
  {
    var r := FirstMatch(rules, d).value;
    var p := r.priority;
    if !RuleMatches(rules[0], d) {
      FirstMatchWithinPriority(rules[1..], d);
      var w := WithPriority(rules[1..], p);
      if rules[0].priority == p {
        assert WithPriority(rules, p) == [rules[0]] + w;
        assert ([rules[0]] + w)[1..] == w;
      } else {
        assert WithPriority(rules, p) == [] + w;
        assert [] + w == w;
      }
    } else {
      assert WithPriority(rules, p) == [rules[0]] + WithPriority(rules[1..], p);
    }
  }

  /**
   * With the rules of a file loaded (sorted), the reported rule has the highest
   * priority among the matching rules, and among matching rules of that
   * priority it is the one that comes first in the file.
   */
  lemma HighestPriorityEarliestRuleWins(rules: seq<ClassificationRule>, d: EmailData)
    requires FirstMatch(SortByPriority(rules), d).Some?
    ensures forall x :: x in rules && RuleMatches(x, d) ==> x.priority <= FirstMatch(SortByPriority(rules), d).value.priority
    ensures FirstMatch(WithPriority(rules, FirstMatch(SortByPriority(rules), d).value.priority), d)
         == FirstMatch(SortByPriority(rules), d)
  {
    var sorted := SortByPriority(rules);
    var r := FirstMatch(sorted, d).value;
    SortByPrioritySorted(rules);
    FirstMatchHasIndex(sorted, d);
    var k :| FirstMatchAt(sorted, d, k) && sorted[k] == r;
    forall x | x in rules && RuleMatches(x, d) ensures x.priority <= r.priority {
      assert x in multiset(rules);
      assert x in multiset(sorted);
      var m :| 0 <= m < |sorted| && sorted[m] == x;
      assert k <= m;
    }
    FirstMatchWithinPriority(sorted, d);
    SortByPriorityStable(rules, r.priority);
  }

  // ---------------------------------------------------------------------------
  // The rules parser
  // ---------------------------------------------------------------------------

  /** What the rules directory holds when rules are (re)loaded. */
  datatype RuleFile =
    | DirectoryUnavailable(error: string)  // the directory cannot be created
    | Missing                              // no global_rules.yaml
    | NoRuleList                           // unreadable, empty, or without a `rules` list
    | RuleList(entries: seq<RuleEntry>)

  /** The rules a successful load keeps from a file, before sorting. */
  function FileRules(file: RuleFile): seq<ClassificationRule> {
    match file
    case RuleList(entries) => ParseAll(entries)
    case _ => []
  }

  /** The rules held after `find_matching_rule` has ensured rules are loaded. */
  function EffectiveRules(held: seq<ClassificationRule>, file: RuleFile): seq<ClassificationRule> {
    if held != [] || file.DirectoryUnavailable? then held else SortByPriority(FileRules(file))
  }

  /** Once rules are in effect, looking them up again with the same file changes nothing. */
  lemma EffectiveRulesIdempotent(held: seq<ClassificationRule>, file: RuleFile)
    ensures EffectiveRules(EffectiveRules(held, file), file) == EffectiveRules(held, file)
  {
  }

  /** When the rules were last loaded, after `find_matching_rule` has ensured rules are loaded. */
  function LoadedAfterLookup(held: seq<ClassificationRule>, lastLoaded: Option<int>, file: RuleFile, now: int): Option<int> {
    if held == [] && !file.DirectoryUnavailable? then Some(now) else lastLoaded
  }

  class RulesParser {
    var rules: seq<ClassificationRule>
    var lastLoaded: Option<int>

    constructor()
      ensures rules == [] && lastLoaded == None
    {
      rules := [];
      lastLoaded := None;
    }

    /** `_load_rules_file`: append the valid entries of the list, in order. */
    method LoadRulesFile(entries: seq<RuleEntry>)
      modifies this
      ensures rules == old(rules) + ParseAll(entries)
      ensures lastLoaded == old(lastLoaded)
    {
      var i := 0;
      while i < |entries|
        invariant 0 <= i <= |entries|
        invariant rules == old(rules) + ParseAll(entries[..i])
        invariant lastLoaded == old(lastLoaded)
      {
        assert entries[..i + 1][..i] == entries[..i];
        var rule := ParseRule(entries[i]);
        if rule.Some? {
          rules := rules + [rule.value];
        }
        i := i + 1;
      }
      assert entries[..i] == entries;
    }

    /**
     * `load_rules`: unless rules are held and were loaded before (and no reload
     * is forced), replace them by the file's valid rules sorted by priority.
     */
    method LoadRules(file: RuleFile, now: int, forceReload: bool := false)
      modifies this
      ensures if (!forceReload && old(rules) != [] && old(lastLoaded).Some?) || file.DirectoryUnavailable?
              then rules == old(rules) && lastLoaded == old(lastLoaded)
              else rules == SortByPriority(FileRules(file)) && lastLoaded == Some(now)
    {
      if !forceReload && rules != [] && lastLoaded.Some? {
        return;
      }
      if file.DirectoryUnavailable? {
        return;
      }
      rules := [];
      if file.RuleList? {
        LoadRulesFile(file.entries);
        assert rules == [] + ParseAll(file.entries) == ParseAll(file.entries);
      }
      rules := SortByPriority(rules);
      lastLoaded := Some(now);
    }

    /** `find_matching_rule`: load if no rules are held, then report the first rule that matches. */
    method FindMatchingRule(d: EmailData, file: RuleFile, now: int) returns (r: Option<ClassificationRule>)
      modifies this
      ensures rules == EffectiveRules(old(rules), file)
      ensures lastLoaded == LoadedAfterLookup(old(rules), old(lastLoaded), file, now)
      ensures r == FirstMatch(rules, d)
    {
      if rules == [] {
        LoadRules(file, now);
      }
      var i := 0;
      while i < |rules|
        invariant 0 <= i <= |rules|
        invariant forall j :: 0 <= j < i ==> !RuleMatches(rules[j], d)
      {
        if RuleMatches(rules[i], d) {
          FirstMatchAtIndex(rules, d, i);
          return Some(rules[i]);
        }
        i := i + 1;
      }
      return None;
    }

    /** `get_category_for_email`: the category of the first matching rule. */
    method GetCategoryForEmail(d: EmailData, file: RuleFile, now: int) returns (c: Option<Category>)
      modifies this
      ensures rules == EffectiveRules(old(rules), file)
      ensures lastLoaded == LoadedAfterLookup(old(rules), old(lastLoaded), file, now)
      ensures c.Some? <==> FirstMatch(rules, d).Some?
      ensures c.Some? ==> c.value == FirstMatch(rules, d).value.category
    {
      var rule := FindMatchingRule(d, file, now);
      c := if rule.Some? then Some(rule.value.category) else None;
    }
  }
}
