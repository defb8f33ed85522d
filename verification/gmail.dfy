/**
 * The Gmail connector's own logic (shared/integrations/gmail.py): walking a
 * message's MIME part tree for its text and its attachments, turning an API
 * message into the connector's email record, the search query of
 * `fetch_emails`, and the requests `move_email` and `delete_email` send.
 *
 * Base64url decoding followed by UTF-8 decoding with replacement is a
 * `Decoder` parameter; what the Gmail API answers to a request is an `Api`
 * parameter.
 */
module Gmail {
  import opened Common
  import opened Connectors

  // ---------------------------------------------------------------------------
  // The part tree
  // ---------------------------------------------------------------------------

  /** A part's `body`: its base64url `data`, if any, and its `size`, if given. */
  datatype Body = Body(data: Option<string>, size: Option<int>)

  /** A message payload or one of its parts. */
  datatype Part = Part(mimeType: Option<string>, filename: Option<string>, body: Body, nested: Nested)

  /** A part's `parts` key: absent, or present with a (possibly empty) list. */
  datatype Nested = Absent | Parts(items: seq<Part>)

  type Decoder = string -> string

  const TextPlain := "text/plain"
  const TextHtml := "text/html"
  const OctetStream := "application/octet-stream"

  /** `part.get('mimeType', '')`. */
  function MimeOf(p: Part): string {
    p.mimeType.GetOr("")
  }

  /** A part that holds nested parts. */
  predicate IsContainer(p: Part) {
    p.nested.Parts?
  }

  /** The nested parts of a container, none for a leaf. */
  function Children(p: Part): seq<Part> {
    if p.nested.Parts? then p.nested.items else []
  }

  lemma ChildIsSmaller(p: Part, i: int)
    requires 0 <= i < |Children(p)|
    ensures Children(p)[i] < p
  {
    assert Children(p)[i] in p.nested.items;
  }

  // ---------------------------------------------------------------------------
  // _extract_body
  // ---------------------------------------------------------------------------

  /**
   * The text of a part: its own decoded data when it has some; otherwise its
   * children's contributions in order.
   */
  function BodyOf(p: Part, decode: Decoder): string
    decreases p, 1, 0
  {
    if p.body.data.Some? then decode(p.body.data.value)
    else BodyOver(p, |Children(p)|, decode)
  }

  /** The text gathered from the first `n` children of `p`. */
  function BodyOver(p: Part, n: nat, decode: Decoder): string
    requires n <= |Children(p)|
    decreases p, 0, n
  {
    if n == 0 then ""
    else
      var child := Children(p)[n - 1];
      ChildIsSmaller(p, n - 1);
      Step(BodyOver(p, n - 1, decode), child, if IsContainer(child) then BodyOf(child, decode) else "", decode)
  }

  /**
   * One turn of the loop over the parts, with `nested` the text of `part`
   * when it is a container: a container's text is appended, a text/plain
   * part's data is appended, and a text/html part's data replaces the text
   * only while the text is still empty.
   */
  function Step(body: string, part: Part, nested: string, decode: Decoder): string {
    if IsContainer(part) then body + nested
    else if MimeOf(part) == TextPlain then
      (if part.body.data.Some? then body + decode(part.body.data.value) else body)
    else if MimeOf(part) == TextHtml && body == "" then
      (if part.body.data.Some? then decode(part.body.data.value) else body)
    else body
  }

  /** `_extract_body`: the text of a payload, walking its parts in order. */
  method ExtractBody(payload: Part, decode: Decoder) returns (body: string)
    ensures body == BodyOf(payload, decode)
    decreases payload
  {
    body := "";
    if payload.body.data.Some? {
      return decode(payload.body.data.value);
    }
    if payload.nested.Parts? {
      var parts := payload.nested.items;
      for i := 0 to |parts|
        invariant body == BodyOver(payload, i, decode)
      {
        var part := parts[i];
        ChildIsSmaller(payload, i);
        if part.nested.Parts? {
          var nested := ExtractBody(part, decode);
          body := body + nested;
        } else if MimeOf(part) == TextPlain {
          if part.body.data.Some? {
            body := body + decode(part.body.data.value);
          }
        } else if MimeOf(part) == TextHtml && body == "" {
          if part.body.data.Some? {
            body := decode(part.body.data.value);
          }
        }
      }
    }
  }

  /** A leaf text/plain part carrying `data`. */
  function PlainLeaf(data: string): Part {
    Part(Some(TextPlain), None, Body(Some(data), None), Absent)
  }

  /** The decoded data of a run of parts, concatenated. */
  function Concatenated(datas: seq<string>, decode: Decoder): string {
    if datas == [] then "" else Concatenated(datas[..|datas| - 1], decode) + decode(datas[|datas| - 1])
  }

  function PlainLeaves(datas: seq<string>): (ps: seq<Part>)
    ensures |ps| == |datas|
    ensures forall i :: 0 <= i < |datas| ==> ps[i] == PlainLeaf(datas[i])
  {
    if datas == [] then [] else PlainLeaves(datas[..|datas| - 1]) + [PlainLeaf(datas[|datas| - 1])]
  }

  /** A multipart payload of text/plain parts yields their decoded texts joined in order. */
  lemma {:induction false} PlainPartsConcatenate(datas: seq<string>, decode: Decoder, n: nat)
    requires n <= |datas|
    ensures var p := Part(None, None, Body(None, None), Parts(PlainLeaves(datas)));
            BodyOver(p, n, decode) == Concatenated(datas[..n], decode)
  {
    var p := Part(None, None, Body(None, None), Parts(PlainLeaves(datas)));
    if n > 0 {
      PlainPartsConcatenate(datas, decode, n - 1);
      assert datas[..n][..n - 1] == datas[..n - 1];
    }
  }

  /** A text/html part is taken only while no text has been gathered, and then replaces it. */
  lemma HtmlIsAFallback(body: string, part: Part, decode: Decoder)
    requires !IsContainer(part) && MimeOf(part) == TextHtml && part.body.data.Some?
    ensures body != "" ==> Step(body, part, "", decode) == body
    ensures body == "" ==> Step(body, part, "", decode) == decode(part.body.data.value)
  {
  }

  // ---------------------------------------------------------------------------
  // _extract_attachments_info
  // ---------------------------------------------------------------------------

  datatype Attachment = Attachment(filename: string, contentType: string, size: int)

  /** A leaf part that names a file. */
  predicate HasFilename(p: Part) {
    p.filename.Some? && p.filename.value != ""
  }

  /** The record kept for a leaf part that names a file, with its defaults. */
  function InfoOf(p: Part): Attachment
    requires HasFilename(p)
  {
    Attachment(p.filename.value, p.mimeType.GetOr(OctetStream), p.body.size.GetOr(0))
  }

  /** The attachments of a part's subtree, in document order. */
  function AttachmentsOf(p: Part): seq<Attachment>
    decreases p, 1, 0
  {
    AttachOver(p, |Children(p)|)
  }

  /** The attachments found among the first `n` children of `p`. */
  function AttachOver(p: Part, n: nat): seq<Attachment>
    requires n <= |Children(p)|
    decreases p, 0, n
  {
    if n == 0 then []
    else
      var child := Children(p)[n - 1];
      ChildIsSmaller(p, n - 1);
      AttachOver(p, n - 1)
      + (if IsContainer(child) then AttachmentsOf(child) else if HasFilename(child) then [InfoOf(child)] else [])
  }

  /** `_extract_attachments_info`: gather the attachments of a payload, recursing into containers. */
  method ExtractAttachments(payload: Part) returns (attachments: seq<Attachment>)
    ensures attachments == AttachmentsOf(payload)
    decreases payload
  {
    attachments := [];
    if payload.nested.Parts? {
      var parts := payload.nested.items;
      for i := 0 to |parts|
        invariant attachments == AttachOver(payload, i)
      {
        var part := parts[i];
        ChildIsSmaller(payload, i);
        if part.nested.Parts? {
          var nested := ExtractAttachments(part);
          attachments := attachments + nested;
        } else if part.filename.Some? && part.filename.value != "" {
          attachments := attachments + [InfoOf(part)];
        }
      }
    }
  }

  /** The leaves below a part (the parts without nested parts), in document order. */
  function Leaves(p: Part): seq<Part>
    decreases p, 1, 0
  {
    LeavesOver(p, |Children(p)|)
  }

  function LeavesOver(p: Part, n: nat): seq<Part>
    requires n <= |Children(p)|
    decreases p, 0, n
  {
    if n == 0 then []
    else
      var child := Children(p)[n - 1];
      ChildIsSmaller(p, n - 1);
      LeavesOver(p, n - 1) + (if IsContainer(child) then Leaves(child) else [child])
  }

  /** The records of the parts of `ps` that name a file, in order. */
  function Named(ps: seq<Part>): seq<Attachment> {
    if ps == [] then []
    else Named(ps[..|ps| - 1]) + (if HasFilename(ps[|ps| - 1]) then [InfoOf(ps[|ps| - 1])] else [])
  }

  lemma {:induction false} NamedAppend(a: seq<Part>, b: seq<Part>)
    ensures Named(a + b) == Named(a) + Named(b)
    decreases |b|
  {
    if b == [] {
      assert a + b == a;
    } else {
      NamedAppend(a, b[..|b| - 1]);
      assert (a + b)[..|a + b| - 1] == a + b[..|b| - 1];
    }
  }

  /**
   * The attachments of a payload are exactly the leaves below it that name a
   * file, in document order: containers are never collected, whatever their
   * own filename, and nesting depth does not matter.
   */
  lemma {:induction false} AttachmentsAreNamedLeaves(p: Part)
    ensures AttachmentsOf(p) == Named(Leaves(p))
    decreases p, 1, 0
  {
    AttachOverAreNamedLeaves(p, |Children(p)|);
  }

  lemma {:induction false} AttachOverAreNamedLeaves(p: Part, n: nat)
    requires n <= |Children(p)|
    ensures AttachOver(p, n) == Named(LeavesOver(p, n))
    decreases p, 0, n
  {
    if n > 0 {
      var child := Children(p)[n - 1];
      ChildIsSmaller(p, n - 1);
      AttachOverAreNamedLeaves(p, n - 1);
      if IsContainer(child) {
        AttachmentsAreNamedLeaves(child);
        NamedAppend(LeavesOver(p, n - 1), Leaves(child));
      } else {
        NamedAppend(LeavesOver(p, n - 1), [child]);
        assert Named([child]) == Named([]) + (if HasFilename(child) then [InfoOf(child)] else []);
      }
    }
  }

  /** Every leaf below a part is a leaf. */
  lemma {:induction false} LeavesHaveNoParts(p: Part)
    ensures forall q :: q in Leaves(p) ==> !IsContainer(q)
    decreases p, 1, 0
  {
    LeavesOverHaveNoParts(p, |Children(p)|);
  }

  lemma {:induction false} LeavesOverHaveNoParts(p: Part, n: nat)
    requires n <= |Children(p)|
    ensures forall q :: q in LeavesOver(p, n) ==> !IsContainer(q)
    decreases p, 0, n
  {
    if n > 0 {
      var child := Children(p)[n - 1];
      ChildIsSmaller(p, n - 1);
      LeavesOverHaveNoParts(p, n - 1);
      if IsContainer(child) {
        LeavesHaveNoParts(child);
      }
    }
  }

  /** Every record `Named` keeps comes from a part of `ps` that names a file. */
  lemma {:induction false} NamedComeFromNamedParts(ps: seq<Part>)
    ensures forall a :: a in Named(ps) ==> exists q :: q in ps && HasFilename(q) && a == InfoOf(q)
  {
    if ps != [] {
      NamedComeFromNamedParts(ps[..|ps| - 1]);
      forall a | a in Named(ps) ensures exists q :: q in ps && HasFilename(q) && a == InfoOf(q) {
        if a in Named(ps[..|ps| - 1]) {
          var q :| q in ps[..|ps| - 1] && HasFilename(q) && a == InfoOf(q);
          assert q in ps;
        } else {
          assert a == InfoOf(ps[|ps| - 1]);
        }
      }
    }
  }

  /** So every attachment has a non-empty filename and comes from a leaf part. */
  lemma AttachmentsComeFromNamedLeaves(p: Part)
    ensures forall a :: a in AttachmentsOf(p) ==>
              a.filename != "" && exists q :: q in Leaves(p) && !IsContainer(q) && HasFilename(q) && a == InfoOf(q)
  {
    AttachmentsAreNamedLeaves(p);
    NamedComeFromNamedParts(Leaves(p));
    LeavesHaveNoParts(p);
  }

  // ---------------------------------------------------------------------------
  // _parse_gmail_message
  // ---------------------------------------------------------------------------

  datatype Header = Header(name: string, value: string)

  /**
   * The value of header `name` in the dictionary built from `headers`: when a
   * name occurs more than once, the last occurrence wins.
   */
  function HeaderValue(headers: seq<Header>, name: string): (v: Option<string>)
    ensures v.None? <==> forall i :: 0 <= i < |headers| ==> headers[i].name != name
    ensures v.Some? ==>
              exists i :: 0 <= i < |headers| && headers[i] == Header(name, v.value)
                          && forall j :: i < j < |headers| ==> headers[j].name != name
  {
    if headers == [] then None
    else if headers[|headers| - 1].name == name then Some(headers[|headers| - 1].value)
    else HeaderValue(headers[..|headers| - 1], name)
  }

  /** A message as `messages().get(format='full')` returns it. */
  datatype Message = Message(id: string, headers: seq<Header>, internalDate: Option<int>, payload: Part)

  /** The connector's record of a Gmail message; `dateReceived` is in seconds. */
  datatype Email = Email(
    messageId: string,
    gmailId: string,
    subject: string,
    sender: string,
    dateReceived: int,
    body: string,
    hasAttachments: bool,
    attachmentCount: nat,
    attachments: seq<Attachment>)

  const MaxBodyLength := 2000
  const NoSubject := "No Subject"
  const UnknownSender := "Unknown"

  /**
   * The reception time: the parsed `Date` header when there is a non-empty
   * one (`now` when it does not parse), otherwise `internalDate` (0 when
   * absent) in milliseconds, taken down to the second.
   */
  function DateReceived(m: Message, parseDate: string -> Option<int>, now: int): int {
    var date := HeaderValue(m.headers, "Date");
    if date.Some? && date.value != "" then parseDate(date.value).GetOr(now)
    else m.internalDate.GetOr(0) / 1000
  }

  /**
   * `_parse_gmail_message`: the headers with their defaults, the first 2000
   * characters of the text, and the attachments with their count.
   */
  function ParseMessage(m: Message, decode: Decoder, parseDate: string -> Option<int>, now: int): (e: Email)
    ensures e.gmailId == m.id
    ensures e.subject == HeaderValue(m.headers, "Subject").GetOr(NoSubject)
    ensures e.sender == HeaderValue(m.headers, "From").GetOr(UnknownSender)
    ensures e.messageId == HeaderValue(m.headers, "Message-ID").GetOr(m.id)
    ensures |e.body| <= MaxBodyLength && e.body <= BodyOf(m.payload, decode)
    ensures |BodyOf(m.payload, decode)| <= MaxBodyLength ==> e.body == BodyOf(m.payload, decode)
    ensures e.attachments == AttachmentsOf(m.payload)
    ensures e.hasAttachments <==> e.attachmentCount > 0
    ensures e.attachmentCount == |e.attachments|
  {
    var body := BodyOf(m.payload, decode);
    var attachments := AttachmentsOf(m.payload);
    Email(HeaderValue(m.headers, "Message-ID").GetOr(m.id), m.id,
          HeaderValue(m.headers, "Subject").GetOr(NoSubject), HeaderValue(m.headers, "From").GetOr(UnknownSender),
          DateReceived(m, parseDate, now),
          if body != "" then Prefix(body, MaxBodyLength) else "",
          |attachments| > 0, |attachments|, attachments)
  }

  // ---------------------------------------------------------------------------
  // The search query of fetch_emails
  // ---------------------------------------------------------------------------

  datatype Date = Date(year: nat, month: nat, day: nat)

  /** `strftime('%Y/%m/%d')`. */
  function DateText(d: Date): string {
    NatToString(d.year) + "/" + TwoDigits(d.month) + "/" + TwoDigits(d.day)
  }

  /** The query: `label:<folder>`, then `after:<date>` when `since` is given, joined by a space. */
  function Query(folder: string, since: Option<Date>): string {
    Join(["label:" + folder] + (if since.Some? then ["after:" + DateText(since.value)] else []), ' ')
  }

  lemma {:induction false} NatToStringHasNoSpace(n: nat)
    ensures ' ' !in NatToString(n)
  {
    if n >= 10 {
      NatToStringHasNoSpace(n / 10);
    }
  }

  lemma DateTextHasNoSpace(d: Date)
    ensures ' ' !in DateText(d)
  {
    NatToStringHasNoSpace(d.year);
    NatToStringHasNoSpace(d.month);
    NatToStringHasNoSpace(d.day);
  }

  /** A text without the separator, then the separator, splits into that text and the rest's pieces. */
  lemma {:induction false} SplitAfterSeparator(a: string, b: string, sep: char)
    requires sep !in a
    ensures Split(a + [sep] + b, sep) == [a] + Split(b, sep)
  {
    if a == [] {
      assert a + [sep] + b == [sep] + b;
      assert ([sep] + b)[1..] == b;
    } else {
      SplitAfterSeparator(a[1..], b, sep);
      assert (a + [sep] + b)[1..] == a[1..] + [sep] + b;
      assert [a[0]] + a[1..] == a;
    }
  }

  /**
   * For a folder name without a space, splitting the query on spaces gives
   * back the label term and, exactly when `since` is given, the date term.
   */
  lemma QueryTerms(folder: string, since: Option<Date>)
    requires ' ' !in folder
    ensures since.None? ==> Split(Query(folder, since), ' ') == ["label:" + folder]
    ensures since.Some? ==> Split(Query(folder, since), ' ') == ["label:" + folder, "after:" + DateText(since.value)]
  {
    var labelTerm := "label:" + folder;
    assert ' ' !in labelTerm;
    if since.None? {
      assert Query(folder, since) == labelTerm;
      SplitWithoutSeparator(labelTerm, ' ');
    } else {
      var afterTerm := "after:" + DateText(since.value);
      DateTextHasNoSpace(since.value);
      assert ' ' !in afterTerm;
      var terms := [labelTerm, afterTerm];
      assert terms[1..] == [afterTerm];
      assert Query(folder, since) == Join(terms, ' ') == labelTerm + [' '] + afterTerm;
      SplitAfterSeparator(labelTerm, afterTerm, ' ');
      SplitWithoutSeparator(afterTerm, ' ');
    }
  }

  // ---------------------------------------------------------------------------
  // move_email and delete_email
  // ---------------------------------------------------------------------------

  /** The requests the connector sends to the Gmail API. */
  datatype Request =
    | GetProfile
    | Modify(messageId: string, addLabelIds: seq<string>, removeLabelIds: seq<string>)
    | DeleteMessage(messageId: string)
    | TrashMessage(messageId: string)

  /** How the API answers a request: done, an `HttpError`, or another exception. */
  datatype Answer = Done | HttpError(message: string) | OtherError(failure: Failure)

  const Inbox := "INBOX"

  /** A request's answer as the connector reports it: an `HttpError` becomes `False`, any other exception propagates. */
  function Reported(a: Answer): (r: Reply)
    ensures r == Returned(true) <==> a.Done?
    ensures r == Returned(false) <==> a.HttpError?
    ensures r.Raised? <==> a.OtherError?
  {
    match a
    case Done => Returned(true)
    case HttpError(_) => Returned(false)
    case OtherError(f) => Raised(f)
  }

  /** The request that moves a message: add the destination label, remove INBOX. */
  function MoveRequest(messageId: string, folder: string): Request {
    Modify(messageId, [folder], [Inbox])
  }

  /** The request that deletes a message: delete for good when permanent, otherwise trash it. */
  function DeleteRequest(messageId: string, permanent: bool): Request {
    if permanent then DeleteMessage(messageId) else TrashMessage(messageId)
  }

  /**
   * How `connect` ends: the service is built and the profile check passes;
   * building the credentials or refreshing them raises before the service is
   * built; or the service is built and the profile check then raises.  The
   * messages are those of the `ConnectionError` raised.
   */
  datatype ConnectOutcome = Connected | FailsBeforeBuild(message: string) | ProfileRejected(message: string)

  /** The `ConnectionError` message of a failed connect, if it fails. */
  function ConnectFailure(c: ConnectOutcome): Option<string> {
    match c
    case Connected => None
    case FailsBeforeBuild(m) => Some(m)
    case ProfileRejected(m) => Some(m)
  }

  /**
   * The Gmail connector's session.  `ready` tells whether `self.service` is
   * set; `connect` is how `connect` ends; `api` is how the API answers.
   */
  class GmailConnector {
    const api: Request -> Answer
    const connect: ConnectOutcome
    var ready: bool
    /** Every request sent, oldest first. */
    var requests: seq<Request>

    constructor(api: Request -> Answer, connect: ConnectOutcome)
      ensures this.api == api && this.connect == connect
      ensures !ready && requests == []
    {
      this.api := api;
      this.connect := connect;
      ready := false;
      requests := [];
    }

    /**
     * `if not self.service: self.connect()`.  Connecting sets the service
     * before the profile check, so a rejected check leaves it set and a later
     * call does not connect again.
     */
    method EnsureService() returns (failure: Option<Failure>)
      modifies this
      ensures old(ready) ==> failure.None? && ready && requests == old(requests)
      ensures !old(ready) ==>
                (failure.Some? <==> ConnectFailure(connect).Some?)
                && (failure.Some? ==> failure.value == Failure("ConnectionError", ConnectFailure(connect).value))
                && (ready <==> !connect.FailsBeforeBuild?)
                && requests == old(requests) + (if connect.FailsBeforeBuild? then [] else [GetProfile])
    {
      failure := None;
      if !ready {
        match connect
        case FailsBeforeBuild(m) =>
          return Some(Failure("ConnectionError", m));
        case ProfileRejected(m) =>
          ready := true;
          requests := requests + [GetProfile];
          return Some(Failure("ConnectionError", m));
        case Connected =>
          ready := true;
          requests := requests + [GetProfile];
      }
    }

    /** Send one request and report its answer. */
    method Send(request: Request) returns (r: Reply)
      modifies this
      ensures r == Reported(api(request))
      ensures requests == old(requests) + [request] && ready == old(ready)
    {
      requests := requests + [request];
      r := Reported(api(request));
    }

    /**
     * `move_email`: connect when needed, then add the destination label and
     * remove INBOX in one request.  A failed connect raises and sends no move.
     */
    method MoveEmail(messageId: string, folder: string) returns (r: Reply)
      modifies this
      ensures old(ready) ==>
                ready && requests == old(requests) + [MoveRequest(messageId, folder)]
                && r == Reported(api(MoveRequest(messageId, folder)))
      ensures !old(ready) && ConnectFailure(connect).Some? ==>
                r == Raised(Failure("ConnectionError", ConnectFailure(connect).value))
                && (ready <==> connect.ProfileRejected?)
                && requests == old(requests) + (if connect.ProfileRejected? then [GetProfile] else [])
      ensures !old(ready) && connect.Connected? ==>
                ready && requests == old(requests) + [GetProfile, MoveRequest(messageId, folder)]
                && r == Reported(api(MoveRequest(messageId, folder)))
    {
      var failure := EnsureService();
      if failure.Some? {
        return Raised(failure.value);
      }
      r := Send(MoveRequest(messageId, folder));
    }

    /**
     * `delete_email`: connect when needed, then delete the message for good
     * when `permanent` and move it to the trash otherwise.
     */
    method DeleteEmail(messageId: string, permanent: bool := false) returns (r: Reply)
      modifies this
      ensures old(ready) ==>
                ready && requests == old(requests) + [DeleteRequest(messageId, permanent)]
                && r == Reported(api(DeleteRequest(messageId, permanent)))
      ensures !old(ready) && ConnectFailure(connect).Some? ==>
                r == Raised(Failure("ConnectionError", ConnectFailure(connect).value))
                && (ready <==> connect.ProfileRejected?)
                && requests == old(requests) + (if connect.ProfileRejected? then [GetProfile] else [])
      ensures !old(ready) && connect.Connected? ==>
                ready && requests == old(requests) + [GetProfile, DeleteRequest(messageId, permanent)]
                && r == Reported(api(DeleteRequest(messageId, permanent)))
    {
      var failure := EnsureService();
      if failure.Some? {
        return Raised(failure.value);
      }
      r := Send(DeleteRequest(messageId, permanent));
    }

    /** `disconnect`: drop the service. */
    method Disconnect()
      modifies this
      ensures !ready && requests == old(requests)
    {
      ready := false;
    }
  }
}
