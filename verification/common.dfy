/**
 * Shared vocabulary of the email agent: the optional and fallible wrappers,
 * the three persisted enumerations, and the handful of string operations
 * (ASCII case mapping, whitespace stripping, splitting, substring search,
 * decimal rendering) that the rule engine, the classifier and the connectors
 * rely on.
 */
module Common {

  datatype Option<+T> = None | Some(value: T) {
    function GetOr(default: T): T {
      match this
      case Some(v) => v
      case None => default
    }
  }

  /** The outcome of an operation that may raise; `Err` carries the message of the exception. */
  datatype Result<+T> = Ok(value: T) | Err(error: string)

  // ---------------------------------------------------------------------------
  // Enumerations (alembic/versions/001_initial_schema.py)
  // ---------------------------------------------------------------------------

  datatype Category =
    | INVOICE | RECEIPT | DOCUMENT | PROFESSIONAL | NEWSLETTER
    | PROMOTION | SOCIAL | NOTIFICATION | PERSONAL | SPAM | UNKNOWN

  const AllCategories: seq<Category> :=
    [INVOICE, RECEIPT, DOCUMENT, PROFESSIONAL, NEWSLETTER,
     PROMOTION, SOCIAL, NOTIFICATION, PERSONAL, SPAM, UNKNOWN]

  datatype Status = PENDING | PROCESSING | CLASSIFIED | ARCHIVED | DELETED | ERROR

  const AllStatuses: seq<Status> := [PENDING, PROCESSING, CLASSIFIED, ARCHIVED, DELETED, ERROR]

  datatype AccountType = GMAIL | OUTLOOK | IMAP

  /** The member name of a category, as `EmailCategory[...]` looks it up. */
  function CategoryName(c: Category): string {
    match c
    case INVOICE => "INVOICE"
    case RECEIPT => "RECEIPT"
    case DOCUMENT => "DOCUMENT"
    case PROFESSIONAL => "PROFESSIONAL"
    case NEWSLETTER => "NEWSLETTER"
    case PROMOTION => "PROMOTION"
    case SOCIAL => "SOCIAL"
    case NOTIFICATION => "NOTIFICATION"
    case PERSONAL => "PERSONAL"
    case SPAM => "SPAM"
    case UNKNOWN => "UNKNOWN"
  }

  /** The stored value of a category: its member name in lower case. */
  function CategoryValue(c: Category): string {
    match c
    case INVOICE => "invoice"
    case RECEIPT => "receipt"
    case DOCUMENT => "document"
    case PROFESSIONAL => "professional"
    case NEWSLETTER => "newsletter"
    case PROMOTION => "promotion"
    case SOCIAL => "social"
    case NOTIFICATION => "notification"
    case PERSONAL => "personal"
    case SPAM => "spam"
    case UNKNOWN => "unknown"
  }

  function StatusValue(s: Status): string {
    match s
    case PENDING => "pending"
    case PROCESSING => "processing"
    case CLASSIFIED => "classified"
    case ARCHIVED => "archived"
    case DELETED => "deleted"
    case ERROR => "error"
  }

  /** Distinct categories have distinct stored values. */
  lemma CategoryValueInjective(a: Category, b: Category)
    requires CategoryValue(a) == CategoryValue(b)
    ensures a == b
  {
    var x, y := CategoryValue(a), CategoryValue(b);
    assert x[0] == y[0] && x[1] == y[1] && x[3] == y[3];
  }

  /** Distinct statuses have distinct stored values. */
  lemma StatusValueInjective(a: Status, b: Status)
    requires StatusValue(a) == StatusValue(b)
    ensures a == b
  {
    var x, y := StatusValue(a), StatusValue(b);
    assert x[0] == y[0] && x[1] == y[1];
  }

  function AccountTypeValue(t: AccountType): string {
    match t
    case GMAIL => "gmail"
    case OUTLOOK => "outlook"
    case IMAP => "imap"
  }

  /** `EmailCategory[name]`: lookup by exact member name, `None` for a `KeyError`. */
  function CategoryByName(name: string): (r: Option<Category>)
    ensures r.Some? ==> CategoryName(r.value) == name
  {
    if name == "INVOICE" then Some(INVOICE)
    else if name == "RECEIPT" then Some(RECEIPT)
    else if name == "DOCUMENT" then Some(DOCUMENT)
    else if name == "PROFESSIONAL" then Some(PROFESSIONAL)
    else if name == "NEWSLETTER" then Some(NEWSLETTER)
    else if name == "PROMOTION" then Some(PROMOTION)
    else if name == "SOCIAL" then Some(SOCIAL)
    else if name == "NOTIFICATION" then Some(NOTIFICATION)
    else if name == "PERSONAL" then Some(PERSONAL)
    else if name == "SPAM" then Some(SPAM)
    else if name == "UNKNOWN" then Some(UNKNOWN)
    else None
  }

  lemma CategoryNameIsUppercase(c: Category)
    ensures forall i :: 0 <= i < |CategoryName(c)| ==> 'A' <= CategoryName(c)[i] <= 'Z'
  {
  }

  /** Looking a category up by its own name finds it: the lookup misses exactly the non-names. */
  lemma CategoryByNameRoundTrip(c: Category)
    ensures CategoryByName(CategoryName(c)) == Some(c)
  {
  }

  // ---------------------------------------------------------------------------
  // Characters and strings
  // ---------------------------------------------------------------------------

  function LowerChar(c: char): char {
    if 'A' <= c <= 'Z' then (c as int + 32) as char else c
  }

  function UpperChar(c: char): char {
    if 'a' <= c <= 'z' then (c as int - 32) as char else c
  }

  /** `str.lower()` on the ASCII letters. */
  function Lower(s: string): (r: string)
    ensures |r| == |s|
  {
    if s == [] then [] else [LowerChar(s[0])] + Lower(s[1..])
  }

  /** `str.upper()` on the ASCII letters. */
  function Upper(s: string): (r: string)
    ensures |r| == |s|
  {
    if s == [] then [] else [UpperChar(s[0])] + Upper(s[1..])
  }

  /** Lower-casing maps each character on its own. */
  lemma {:induction false} LowerAt(s: string, i: int)
    requires 0 <= i < |s|
    ensures Lower(s)[i] == LowerChar(s[i])
  {
    if i > 0 {
      LowerAt(s[1..], i - 1);
    }
  }

  lemma {:induction false} LowerIdempotent(s: string)
    ensures Lower(Lower(s)) == Lower(s)
  {
    if s != [] {
      LowerIdempotent(s[1..]);
      assert Lower(s)[1..] == Lower(s[1..]);
    }
  }

  /** Upper-casing leaves a text of capital letters as it is. */
  lemma {:induction false} UpperOfUppercase(s: string)
    requires forall i :: 0 <= i < |s| ==> 'A' <= s[i] <= 'Z'
    ensures Upper(s) == s
  {
    if s != [] {
      UpperOfUppercase(s[1..]);
    }
  }

  /** Upper-casing a lower-cased text gives the same as upper-casing the text. */
  lemma {:induction false} UpperLower(s: string)
    ensures Upper(Lower(s)) == Upper(s)
  {
    if s != [] {
      UpperLower(s[1..]);
      assert Lower(s)[1..] == Lower(s[1..]);
    }
  }

  /** The ASCII characters `str.isspace()` accepts. */
  predicate IsSpace(c: char) {
    c == ' ' || '\t' <= c <= '\r' || '\U{1c}' <= c <= '\U{1f}'
  }

  function StripLeft(s: string): (r: string)
    ensures |r| <= |s|
    ensures r == s[|s| - |r|..]
    ensures r == [] || !IsSpace(r[0])
    ensures forall i :: 0 <= i < |s| - |r| ==> IsSpace(s[i])
  {
    if |s| > 0 && IsSpace(s[0]) then StripLeft(s[1..]) else s
  }

  function StripRight(s: string): (r: string)
    ensures |r| <= |s|
    ensures r == s[..|r|]
    ensures r == [] || !IsSpace(r[|r| - 1])
    ensures forall i :: |r| <= i < |s| ==> IsSpace(s[i])
  {
    if |s| > 0 && IsSpace(s[|s| - 1]) then StripRight(s[..|s| - 1]) else s
  }

  /** `str.strip()`: drop leading and trailing whitespace. */
  function Strip(s: string): string {
    StripRight(StripLeft(s))
  }

  /** Text that neither starts nor ends with whitespace is left as it is by stripping. */
  lemma StripUnpadded(s: string)
    requires s != [] ==> !IsSpace(s[0]) && !IsSpace(s[|s| - 1])
    ensures Strip(s) == s
  {
  }

  /** `sub in s`: `sub` occurs at some position of `s` (the empty string occurs everywhere). */
  predicate IsSubstring(sub: string, s: string)
    decreases |s|
  {
    sub <= s || (|s| > 0 && IsSubstring(sub, s[1..]))
  }

  /** `sub` occurs in `s` starting at position `k`. */
  predicate OccursAt(sub: string, s: string, k: int) {
    0 <= k <= |s| - |sub| && s[k..k + |sub|] == sub
  }

  /** The recursive search agrees with the positional definition of an occurrence. */
  lemma {:induction false} IsSubstringAt(sub: string, s: string)
    ensures IsSubstring(sub, s) <==> exists k :: OccursAt(sub, s, k)
    decreases |s|
  {
    if sub <= s {
      assert OccursAt(sub, s, 0);
    } else if |s| > 0 {
      IsSubstringAt(sub, s[1..]);
      if IsSubstring(sub, s[1..]) {
        var k :| OccursAt(sub, s[1..], k);
        assert s[k + 1..k + 1 + |sub|] == s[1..][k..k + |sub|];
        assert OccursAt(sub, s, k + 1);
      }
      if exists k :: OccursAt(sub, s, k) {
        var k :| OccursAt(sub, s, k);
        assert k > 0;
        assert s[1..][k - 1..k - 1 + |sub|] == s[k..k + |sub|];
        assert OccursAt(sub, s[1..], k - 1);
      }
    }
  }

  /** Text placed between two others occurs in the whole. */
  lemma InfixIsSubstring(a: string, b: string, c: string)
    ensures IsSubstring(b, a + b + c)
  {
    assert (a + b + c)[|a|..|a| + |b|] == b;
    assert OccursAt(b, a + b + c, |a|);
    IsSubstringAt(b, a + b + c);
  }

  /** `s.split(sep)`: the pieces between separators, empty pieces included. */
  function Split(s: string, sep: char): (r: seq<string>)
    ensures |r| >= 1
  {
    if s == [] then [""]
    else
      var rest := Split(s[1..], sep);
      if s[0] == sep then [""] + rest else [[s[0]] + rest[0]] + rest[1..]
  }

  /** `sep.join(parts)`. */
  function Join(parts: seq<string>, sep: char): string {
    if |parts| == 0 then ""
    else if |parts| == 1 then parts[0]
    else parts[0] + [sep] + Join(parts[1..], sep)
  }

  /** Splitting loses nothing: joining the pieces back gives the original text. */
  lemma {:induction false} JoinSplit(s: string, sep: char)
    ensures Join(Split(s, sep), sep) == s
  {
    if s != [] {
      JoinSplit(s[1..], sep);
      var rest := Split(s[1..], sep);
      if s[0] == sep {
        assert Split(s, sep) == [""] + rest;
        assert ([""] + rest)[1..] == rest;
      } else {
        var r := Split(s, sep);
        assert r == [[s[0]] + rest[0]] + rest[1..];
        if |rest| == 1 {
          assert Join(r, sep) == [s[0]] + rest[0];
        } else {
          assert r[1..] == rest[1..];
          assert Join(rest, sep) == rest[0] + [sep] + Join(rest[1..], sep);
        }
      }
    }
  }

  /** No piece of a split contains the separator. */
  lemma {:induction false} SplitPiecesHaveNoSeparator(s: string, sep: char)
    ensures forall p :: p in Split(s, sep) ==> sep !in p
  {
    if s != [] {
      SplitPiecesHaveNoSeparator(s[1..], sep);
      var rest := Split(s[1..], sep);
      if s[0] != sep {
        var r := Split(s, sep);
        forall p | p in r ensures sep !in p {
          if p == [s[0]] + rest[0] {
            assert rest[0] in rest;
          } else {
            assert p in rest[1..];
          }
        }
      }
    }
  }

  /** Text without the separator splits into itself alone. */
  lemma {:induction false} SplitWithoutSeparator(s: string, sep: char)
    requires sep !in s
    ensures Split(s, sep) == [s]
  {
    if s != [] {
      assert sep !in s[1..];
      SplitWithoutSeparator(s[1..], sep);
      assert [s[0]] + s[1..] == s;
    }
  }

  /** Separator-free text in front of `t` only extends the first piece of `t`. */
  lemma {:induction false} SplitAfterPlainPrefix(a: string, t: string, sep: char)
    requires sep !in a
    ensures Split(a + t, sep) == [a + Split(t, sep)[0]] + Split(t, sep)[1..]
  {
    var st := Split(t, sep);
    if a == [] {
      assert a + t == t && a + st[0] == st[0];
      assert [st[0]] + st[1..] == st;
    } else {
      assert sep !in a[1..];
      SplitAfterPlainPrefix(a[1..], t, sep);
      var rest := Split(a[1..] + t, sep);
      assert (a + t)[1..] == a[1..] + t;
      assert (a + t)[0] == a[0] != sep;
      assert Split(a + t, sep) == [[a[0]] + rest[0]] + rest[1..];
      assert rest[0] == a[1..] + st[0] && rest[1..] == st[1..];
      assert [a[0]] + (a[1..] + st[0]) == a + st[0];
    }
  }

  /** Joining separator-free pieces and splitting again gives the pieces back. */
  lemma {:induction false} SplitJoin(parts: seq<string>, sep: char)
    requires |parts| >= 1
    requires forall i :: 0 <= i < |parts| ==> sep !in parts[i]
    ensures Split(Join(parts, sep), sep) == parts
  {
    if |parts| == 1 {
      SplitWithoutSeparator(parts[0], sep);
    } else {
      var tail := Join(parts[1..], sep);
      SplitJoin(parts[1..], sep);
      assert Split([sep] + tail, sep) == [""] + parts[1..];
      assert Join(parts, sep) == parts[0] + ([sep] + tail);
      SplitAfterPlainPrefix(parts[0], [sep] + tail, sep);
      assert parts[0] + "" == parts[0];
      assert [parts[0]] + parts[1..] == parts;
    }
  }

  /** `s[:n]`. */
  function Prefix(s: string, n: nat): (r: string)
    ensures |r| == if |s| <= n then |s| else n
    ensures r <= s
  {
    if |s| <= n then s else s[..n]
  }

  function DigitChar(d: nat): (c: char)
    requires d < 10
    ensures '0' <= c <= '9'
  {
    ('0' as int + d) as char
  }

  function NatToString(n: nat): (r: string)
    ensures |r| >= 1
  {
    if n < 10 then [DigitChar(n)] else NatToString(n / 10) + [DigitChar(n % 10)]
  }

  /** `str(n)` for an integer. */
  function IntToString(n: int): string {
    if n < 0 then "-" + NatToString(-n) else NatToString(n)
  }

  /** `str(n)` left-padded with zeros to two digits, as `%m` and `%d` print. */
  function TwoDigits(n: nat): string {
    if n < 10 then "0" + NatToString(n) else NatToString(n)
  }

  /** No element occurs twice. */
  predicate Distinct<T(==)>(s: seq<T>) {
    forall i, j :: 0 <= i < j < |s| ==> s[i] != s[j]
  }

  /** Number of elements of `s` satisfying `p`. */
  function CountWhere<T>(s: seq<T>, p: T -> bool): (n: nat)
    ensures n <= |s|
  {
    if s == [] then 0 else (if p(s[0]) then 1 else 0) + CountWhere(s[1..], p)
  }

  lemma {:induction false} CountWhereAppend<T>(a: seq<T>, b: seq<T>, p: T -> bool)
    ensures CountWhere(a + b, p) == CountWhere(a, p) + CountWhere(b, p)
  {
    if a == [] {
      assert a + b == b;
    } else {
      assert (a + b)[0] == a[0];
      assert (a + b)[1..] == a[1..] + b;
      CountWhereAppend(a[1..], b, p);
    }
  }
}
