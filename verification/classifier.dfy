/**
 * The LLM response normaliser (worker/classifiers/ollama_classifier.py).
 *
 * The language model answers with free text that should contain one JSON
 * object with `category`, `confidence` and `reason`.  The classifier cuts the
 * text from the first `{` to the last `}`, decodes it, maps the category name
 * onto the enumeration, clamps the confidence into 0..100 and falls back to a
 * fixed low-confidence answer whenever any of this fails.  The HTTP call to
 * the model and the JSON decoder are not modelled: the model's answer (or the
 * error it raised) and the decoder are parameters.
 */
module Classifier {
  import opened Common

  /** A JSON value as far as the normaliser distinguishes it; arrays and objects are `JOther`. */
  datatype JsonValue = JNull | JBool(b: bool) | JNum(x: real) | JStr(s: string) | JOther

  /** A decoded reply object; a field the object does not have is `None`. */
  datatype Reply = Reply(category: Option<JsonValue>, confidence: Option<JsonValue>, reason: Option<string>)

  /** `json.loads` on the extracted text: `None` when it raises. */
  type JsonDecoder = string -> Option<Reply>

  /** What the classifier hands back: `{'category', 'confidence', 'reason'}`. */
  datatype Classification = Classification(category: Category, confidence: int, reason: string)

  const FallbackReason := "Fallback classification - LLM response could not be parsed"
  const NoReason := "No reason provided"
  const ErrorPrefix := "Error during classification: "

  /** `_fallback_classification`. */
  function Fallback(): (c: Classification)
    ensures c.category == UNKNOWN && c.confidence == 20 && c.reason == FallbackReason
  {
    Classification(UNKNOWN, 20, FallbackReason)
  }

  // ---------------------------------------------------------------------------
  // Locating the JSON object
  // ---------------------------------------------------------------------------

  /** `s.find(c)`: the first position of `c`, `None` for -1. */
  function Find(s: string, c: char): (r: Option<nat>)
    ensures r.None? <==> c !in s
    ensures r.Some? ==> r.value < |s| && s[r.value] == c && c !in s[..r.value]
  {
    if s == [] then None
    else if s[0] == c then Some(0)
    else
      var rest := Find(s[1..], c);
      assert s == [s[0]] + s[1..];
      match rest
      case None => None
      case Some(k) =>
        assert s[..k + 1] == [s[0]] + s[1..][..k];
        Some(k + 1)
  }

  /** `s.rfind(c)`: the last position of `c`, `None` for -1. */
  function RFind(s: string, c: char): (r: Option<nat>)
    ensures r.None? <==> c !in s
    ensures r.Some? ==> r.value < |s| && s[r.value] == c && c !in s[r.value + 1..]
  {
    if s == [] then None
    else if s[|s| - 1] == c then Some(|s| - 1)
    else
      var init := s[..|s| - 1];
      assert s == init + [s[|s| - 1]];
      match RFind(init, c)
      case None => None
      case Some(k) =>
        assert s[k + 1..] == init[k + 1..] + [s[|s| - 1]];
        Some(k)
  }

  /**
   * The text handed to the JSON decoder: `None` when the stripped answer has
   * no `{` or no `}`; otherwise the slice from the first `{` through the last
   * `}`, which is empty when the last `}` comes before the first `{`.
   */
  function JsonCandidate(response: string): Option<string> {
    var t := Strip(response);
    match (Find(t, '{'), RFind(t, '}'))
    case (Some(start), Some(last)) =>
      Some(if start <= last then t[start..last + 1] else "")
    case _ => None
  }

  /**
   * The candidate is the braced core of the stripped answer: when that text
   * is a prefix without `{`, a core opening with `{` and closing with `}`, and
   * a suffix without `}`, the decoder is handed exactly the core.
   */
  lemma CandidateIsBracedCore(response: string, prefix: string, core: string, suffix: string)
    requires Strip(response) == prefix + core + suffix
    requires '{' !in prefix && '}' !in suffix
    requires |core| >= 2 && core[0] == '{' && core[|core| - 1] == '}'
    ensures JsonCandidate(response) == Some(core)
  {
    var t := Strip(response);
    var start := |prefix|;
    var last := |prefix| + |core| - 1;
    assert t[start] == '{' && t[last] == '}';
    assert t[..start] == prefix;
    assert t[last + 1..] == suffix;
    FindIsFirst(t, '{', start);
    RFindIsLast(t, '}', last);
    assert t[start..last + 1] == core;
  }

  lemma FindIsFirst(s: string, c: char, k: nat)
    requires k < |s| && s[k] == c && c !in s[..k]
    ensures Find(s, c) == Some(k)
  {
    var r := Find(s, c);
  }

  lemma RFindIsLast(s: string, c: char, k: nat)
    requires k < |s| && s[k] == c && c !in s[k + 1..]
    ensures RFind(s, c) == Some(k)
  {
    var r := RFind(s, c);
  }

  // ---------------------------------------------------------------------------
  // Fields
  // ---------------------------------------------------------------------------

  /** The category mapping: the ten names, anything else (including `unknown`) is UNKNOWN. */
  function MapCategory(name: string): Category {
    if name == "invoice" then INVOICE
    else if name == "receipt" then RECEIPT
    else if name == "document" then DOCUMENT
    else if name == "professional" then PROFESSIONAL
    else if name == "newsletter" then NEWSLETTER
    else if name == "promotion" then PROMOTION
    else if name == "social" then SOCIAL
    else if name == "notification" then NOTIFICATION
    else if name == "personal" then PERSONAL
    else if name == "spam" then SPAM
    else UNKNOWN
  }

  /** Every category's stored value maps back to that category. */
  lemma MapCategoryRoundTrip(c: Category)
    ensures MapCategory(CategoryValue(c)) == c
  {
  }

  /** A name that is no category's value maps to UNKNOWN. */
  lemma MapCategoryOtherwiseUnknown(name: string)
    requires forall c :: CategoryValue(c) != name
    ensures MapCategory(name) == UNKNOWN
  {
    assert CategoryValue(INVOICE) != name && CategoryValue(RECEIPT) != name;
    assert CategoryValue(DOCUMENT) != name && CategoryValue(PROFESSIONAL) != name;
    assert CategoryValue(NEWSLETTER) != name && CategoryValue(PROMOTION) != name;
    assert CategoryValue(SOCIAL) != name && CategoryValue(NOTIFICATION) != name;
    assert CategoryValue(PERSONAL) != name && CategoryValue(SPAM) != name;
  }

  /** The reply's category: absent means `unknown`; text is lower-cased; anything else raises. */
  function ReplyCategory(v: Option<JsonValue>): Option<Category> {
    match v
    case None => Some(MapCategory("unknown"))
    case Some(JStr(s)) => Some(MapCategory(Lower(s)))
    case Some(_) => None
  }

  predicate IsDigit(c: char) {
    '0' <= c <= '9'
  }

  function DigitValue(c: char): nat
    requires IsDigit(c)
  {
    (c - '0') as nat
  }

  /** The value of a run of ASCII digits. */
  function DigitsValue(s: string): (n: nat)
    requires forall i :: 0 <= i < |s| ==> IsDigit(s[i])
  {
    if s == [] then 0 else DigitsValue(s[..|s| - 1]) * 10 + DigitValue(s[|s| - 1])
  }

  predicate AllDigits(s: string) {
    s != [] && forall i :: 0 <= i < |s| ==> IsDigit(s[i])
  }

  /**
   * Python's digit grouping: digits, where single underscores may stand
   * between two digits (`"8_5"`, but not `"_85"`, `"85_"` or `"8__5"`).
   */
  predicate DigitGroups(s: string) {
    s != [] && IsDigit(s[0]) && IsDigit(s[|s| - 1])
    && (forall i :: 0 <= i < |s| ==> IsDigit(s[i]) || s[i] == '_')
    && (forall i :: 0 <= i < |s| - 1 ==> s[i] == '_' ==> s[i + 1] != '_')
  }

  /** The digits of a grouped numeral, underscores dropped. */
  function Ungrouped(s: string): (r: string)
    requires forall i :: 0 <= i < |s| ==> IsDigit(s[i]) || s[i] == '_'
    ensures forall i :: 0 <= i < |r| ==> IsDigit(r[i])
  {
    if s == [] then []
    else if s[|s| - 1] == '_' then Ungrouped(s[..|s| - 1])
    else Ungrouped(s[..|s| - 1]) + [s[|s| - 1]]
  }

  /** `int(text)`: a decimal numeral with surrounding whitespace and an optional sign. */
  function ParseInt(text: string): Option<int> {
    ParseNumeral(Strip(text))
  }

  /** A stripped numeral: an optional sign followed by grouped digits. */
  function ParseNumeral(t: string): Option<int> {
    if t != [] && (t[0] == '-' || t[0] == '+') then
      if DigitGroups(t[1..]) then
        var magnitude: int := DigitsValue(Ungrouped(t[1..]));
        Some(if t[0] == '-' then -magnitude else magnitude)
      else None
    else if DigitGroups(t) then Some(DigitsValue(Ungrouped(t)))
    else None
  }

  /** Decimal rendering and parsing agree: `int(str(n)) == n`. */
  lemma ParseIntRoundTrip(n: int)
    ensures ParseInt(IntToString(n)) == Some(n)
  {
    var t := IntToString(n);
    NumeralRoundTrip(n);
    assert t[|t| - 1] != ' ';
    StripUnpadded(t);
  }

  lemma NumeralRoundTrip(n: int)
    ensures var t := IntToString(n);
      ParseNumeral(t) == Some(n) && (t[0] == '-' || '0' <= t[0] <= '9') && '0' <= t[|t| - 1] <= '9'
  {
    var m: nat := if n < 0 then -n else n;
    var digits := NatToString(m);
    NatToStringDigits(m);
    UngroupedDigits(digits);
    var t := IntToString(n);
    if n < 0 {
      assert t == "-" + digits;
      assert t[1..] == digits;
    }
  }

  lemma {:induction false} NatToStringDigits(n: nat)
    ensures AllDigits(NatToString(n))
    ensures DigitsValue(NatToString(n)) == n
  {
    var s := NatToString(n);
    if n >= 10 {
      NatToStringDigits(n / 10);
      assert s[..|s| - 1] == NatToString(n / 10);
    }
  }

  /** Plain digits are grouped, and have nothing to drop. */
  lemma {:induction false} UngroupedDigits(s: string)
    requires forall i :: 0 <= i < |s| ==> IsDigit(s[i])
    ensures Ungrouped(s) == s
    ensures s != [] ==> DigitGroups(s)
  {
    if s != [] {
      UngroupedDigits(s[..|s| - 1]);
      assert s[..|s| - 1] + [s[|s| - 1]] == s;
    }
  }

  /** Dropping underscores distributes over concatenation. */
  lemma {:induction false} UngroupedAppend(a: string, b: string)
    requires forall i :: 0 <= i < |a| ==> IsDigit(a[i]) || a[i] == '_'
    requires forall i :: 0 <= i < |b| ==> IsDigit(b[i]) || b[i] == '_'
    ensures Ungrouped(a + b) == Ungrouped(a) + Ungrouped(b)
    decreases |b|
  {
    if b == [] {
      assert a + b == a;
    } else {
      var ab := a + b;
      assert ab[..|ab| - 1] == a + b[..|b| - 1];
      assert ab[|ab| - 1] == b[|b| - 1];
      UngroupedAppend(a, b[..|b| - 1]);
    }
  }

  /**
   * An underscore between two digit runs is only grouping: `int("8_5")` is
   * `int("85")`.
   */
  lemma GroupingUnderscoreIgnored(a: string, b: string)
    requires AllDigits(a) && AllDigits(b)
    ensures ParseNumeral(a + "_" + b) == ParseNumeral(a + b) == Some(DigitsValue(a + b))
  {
    var g := a + "_" + b;
    GroupedJoin(a, b);
    assert !(g[0] == '-' || g[0] == '+') by { assert g[0] == a[0]; }
    assert Ungrouped(g) == a + b by {
      UngroupedAppend(a, "_" + b);
      UngroupedAppend("_", b);
      UngroupedDigits(a);
      UngroupedDigits(b);
      assert a + ("_" + b) == g;
      assert Ungrouped("_") == [];
    }
    var ab := a + b;
    assert AllDigits(ab);
    UngroupedDigits(ab);
    assert !(ab[0] == '-' || ab[0] == '+') by { assert ab[0] == a[0]; }
  }

  /** Two digit runs joined by one underscore are grouped digits. */
  lemma GroupedJoin(a: string, b: string)
    requires AllDigits(a) && AllDigits(b)
    ensures DigitGroups(a + "_" + b)
  {
    var g := a + "_" + b;
    forall i | 0 <= i < |g|
      ensures IsDigit(g[i]) || g[i] == '_'
      ensures g[i] == '_' ==> i == |a|
    {
      if i < |a| {
        assert g[i] == a[i];
      } else if i > |a| {
        assert g[i] == b[i - |a| - 1];
      }
    }
    assert g[0] == a[0] && g[|g| - 1] == b[|b| - 1];
  }

  /** `int(x)` for a real: truncation toward zero. */
  function Truncate(x: real): (n: int)
    ensures x >= 0.0 ==> n as real <= x < n as real + 1.0
    ensures x < 0.0 ==> n as real - 1.0 < x <= n as real
  {
    if x >= 0.0 then x.Floor else -((-x).Floor)
  }

  /** `int(value)`; `None` when it raises (null, arrays, objects, non-numeric text). */
  function IntOf(v: JsonValue): Option<int> {
    match v
    case JBool(b) => Some(if b then 1 else 0)
    case JNum(x) => Some(Truncate(x))
    case JStr(s) => ParseInt(s)
    case _ => None
  }

  /** `min(100, max(0, n))`. */
  function Clamp(n: int): (r: int)
    ensures 0 <= r <= 100
    ensures 0 <= n <= 100 ==> r == n
    ensures n < 0 ==> r == 0
    ensures n > 100 ==> r == 100
  {
    if n < 0 then 0 else if n > 100 then 100 else n
  }

  /** The reply's confidence: 50 when absent, else `int` of it clamped; `None` when `int` raises. */
  function ReplyConfidence(v: Option<JsonValue>): Option<int> {
    match v
    case None => Some(Clamp(50))
    case Some(x) =>
      match IntOf(x)
      case Some(n) => Some(Clamp(n))
      case None => None
  }

  // ---------------------------------------------------------------------------
  // Normalising an answer
  // ---------------------------------------------------------------------------

  /** `_parse_llm_response`. */
  function ParseLlmResponse(response: string, loads: JsonDecoder): (c: Classification)
    ensures 0 <= c.confidence <= 100
  {
    match JsonCandidate(response)
    case None => Fallback()
    case Some(text) =>
      match loads(text)
      case None => Fallback()
      case Some(reply) =>
        match (ReplyCategory(reply.category), ReplyConfidence(reply.confidence))
        case (Some(category), Some(confidence)) =>
          Classification(category, confidence, reply.reason.GetOr(NoReason))
        case _ => Fallback()
  }

  /** An answer without a `{` or without a `}` never reaches the decoder and yields the fallback. */
  lemma NoBracesFallsBack(response: string, loads: JsonDecoder)
    requires '{' !in Strip(response) || '}' !in Strip(response)
    ensures ParseLlmResponse(response, loads) == Fallback()
  {
  }

  /** An answer the decoder rejects yields the fallback. */
  lemma UndecodableFallsBack(response: string, loads: JsonDecoder)
    requires JsonCandidate(response).Some? && loads(JsonCandidate(response).value).None?
    ensures ParseLlmResponse(response, loads) == Fallback()
  {
  }

  /**
   * A reply whose category lower-cases to a category's value and whose
   * confidence is a number in range is taken as it is.
   */
  lemma WellFormedReplyTaken(response: string, loads: JsonDecoder, c: Category, name: string, confidence: int, reason: string)
    requires JsonCandidate(response).Some?
    requires loads(JsonCandidate(response).value) == Some(Reply(Some(JStr(name)), Some(JNum(confidence as real)), Some(reason)))
    requires Lower(name) == CategoryValue(c)
    requires 0 <= confidence <= 100
    ensures ParseLlmResponse(response, loads) == Classification(c, confidence, reason)
  {
    MapCategoryRoundTrip(c);
  }

  /** A decoded reply with none of the three fields gives UNKNOWN, confidence 50 and the default reason. */
  lemma EmptyReplyDefaults(response: string, loads: JsonDecoder)
    requires JsonCandidate(response).Some?
    requires loads(JsonCandidate(response).value) == Some(Reply(None, None, None))
    ensures ParseLlmResponse(response, loads) == Classification(UNKNOWN, 50, NoReason)
  {
  }

  /**
   * Validation failures also yield the fallback: a category that is present
   * but not text (`.lower()` raises), or a confidence `int()` rejects.
   */
  lemma InvalidFieldFallsBack(response: string, loads: JsonDecoder, reply: Reply)
    requires JsonCandidate(response).Some? && loads(JsonCandidate(response).value) == Some(reply)
    requires (reply.category.Some? && !reply.category.value.JStr?)
             || (reply.confidence.Some? && IntOf(reply.confidence.value).None?)
    ensures ParseLlmResponse(response, loads) == Fallback()
  {
  }

  /**
   * A numeric confidence is truncated and then clamped into 0..100, whatever
   * its value; the category text is mapped case-insensitively and the reason
   * kept, or defaulted when absent.
   */
  lemma NumericConfidenceClamped(response: string, loads: JsonDecoder, name: string, x: real, reason: Option<string>)
    requires JsonCandidate(response).Some?
    requires loads(JsonCandidate(response).value) == Some(Reply(Some(JStr(name)), Some(JNum(x)), reason))
    ensures var c := ParseLlmResponse(response, loads);
            c.category == MapCategory(Lower(name))
            && (x < 1.0 ==> c.confidence == 0)
            && (x >= 100.0 ==> c.confidence == 100)
            && (1.0 <= x < 100.0 ==> c.confidence as real <= x < c.confidence as real + 1.0)
            && c.reason == (if reason.Some? then reason.value else NoReason)
  {
  }

  /**
   * `classify_email`: never raises.  The model's answer is `Err` when the call
   * to the model raised; the answer is then UNKNOWN with confidence 0 and the
   * error in the reason.
   */
  function ClassifyEmail(answer: Result<string>, loads: JsonDecoder): (c: Classification)
    ensures 0 <= c.confidence <= 100
    ensures answer.Err? ==> c == Classification(UNKNOWN, 0, ErrorPrefix + answer.error)
    ensures answer.Ok? ==> c == ParseLlmResponse(answer.value, loads)
  {
    match answer
    case Ok(response) => ParseLlmResponse(response, loads)
    case Err(e) => Classification(UNKNOWN, 0, ErrorPrefix + e)
  }

}
