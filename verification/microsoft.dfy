/**
 * The Microsoft Graph connector's own logic (shared/integrations/microsoft.py):
 * the folder names of `fetch_emails`, the page size, the folder-id lookup,
 * token expiry and refresh, turning a Graph message into the connector's
 * email record, the requests `move_email` and `delete_email` send, and the
 * credentials handed back for storage.
 *
 * What Graph and the identity platform answer is a `Graph` value; ISO 8601
 * parsing and formatting are parameters; times are in seconds.
 */
module Microsoft {
  import opened Common
  import opened Connectors

  // ---------------------------------------------------------------------------
  // Folder names and page size
  // ---------------------------------------------------------------------------

  /** Text with no capital letter. */
  predicate IsLowerCase(s: string) {
    forall i :: 0 <= i < |s| ==> !('A' <= s[i] <= 'Z')
  }

  lemma {:induction false} LowerOfLowerCase(s: string)
    requires IsLowerCase(s)
    ensures Lower(s) == s
  {
    if s != [] {
      LowerOfLowerCase(s[1..]);
    }
  }

  lemma {:induction false} LowerIsLowerCase(s: string)
    ensures IsLowerCase(Lower(s))
  {
    forall i | 0 <= i < |s| ensures !('A' <= Lower(s)[i] <= 'Z') {
      LowerAt(s, i);
    }
  }

  /**
   * The Graph folder `fetch_emails` reads: the five well-known names looked up
   * in upper case, any other name lower-cased.
   */
  function GraphFolder(folder: string): string {
    var key := Upper(folder);
    if key == "INBOX" then "inbox"
    else if key == "SENT" then "sentitems"
    else if key == "DRAFTS" then "drafts"
    else if key == "TRASH" then "deleteditems"
    else if key == "JUNK" then "junkemail"
    else Lower(folder)
  }

  /** The folder read is always in lower case, so lower-casing it changes nothing. */
  lemma GraphFolderIsLowerCase(folder: string)
    ensures IsLowerCase(GraphFolder(folder))
    ensures Lower(GraphFolder(folder)) == GraphFolder(folder)
  {
    var r := GraphFolder(folder);
    if r == Lower(folder) {
      LowerIsLowerCase(folder);
    } else {
      assert r in ["inbox", "sentitems", "drafts", "deleteditems", "junkemail"];
    }
    LowerOfLowerCase(r);
  }

  /** Folder names that differ only in case read the same folder. */
  lemma GraphFolderIgnoresCase(a: string, b: string)
    requires Lower(a) == Lower(b)
    ensures GraphFolder(a) == GraphFolder(b)
  {
    UpperLower(a);
    UpperLower(b);
  }

  const MaxPageSize := 999

  /** `min(limit, 999)`: the `$top` of the request. */
  function PageSize(limit: int): (n: int)
    ensures n <= limit && n <= MaxPageSize
    ensures n == limit || n == MaxPageSize
  {
    if limit < MaxPageSize then limit else MaxPageSize
  }

  // ---------------------------------------------------------------------------
  // Token expiry
  // ---------------------------------------------------------------------------

  const ExpiryMargin := 5 * 60
  const DefaultLifetime := 3600

  /**
   * What `self.expiry` holds: nothing usable (a falsy value, or text that is
   * no ISO 8601 time), a time, or a truthy value that is neither text nor a
   * time, which the connector keeps as it is.
   */
  datatype Expiry = NoExpiry | At(time: int) | NotATime(typeName: string)

  /**
   * `_is_token_expired`: no known expiry, or less than five minutes left;
   * `None` when `self.expiry - buffer` raises a `TypeError`.
   */
  function IsTokenExpired(expiry: Expiry, now: int): Option<bool> {
    match expiry
    case NoExpiry => Some(true)
    case At(t) => Some(now >= t - ExpiryMargin)
    case NotATime(_) => None
  }

  /** The text of the `TypeError` that subtracting the buffer from a non-time raises. */
  function ExpiryTypeError(typeName: string): string {
    "unsupported operand type(s) for -: '" + typeName + "' and 'datetime.timedelta'"
  }

  /**
   * A token once expired stays expired, an unexpired one has more than five
   * minutes left, and the check raises exactly for a non-time expiry.
   */
  lemma ExpiryIsMonotone(expiry: Expiry, now: int, later: int)
    requires now <= later
    ensures IsTokenExpired(expiry, now).None? <==> expiry.NotATime?
    ensures IsTokenExpired(expiry, now) == Some(true) ==> IsTokenExpired(expiry, later) == Some(true)
    ensures IsTokenExpired(expiry, now) == Some(false) ==> expiry.At? && expiry.time - now > ExpiryMargin
  {
  }

  // ---------------------------------------------------------------------------
  // _parse_microsoft_message
  // ---------------------------------------------------------------------------

  /** A message's `from.emailAddress`. */
  datatype Address = Address(name: Option<string>, address: Option<string>)

  /** A Graph message; a field is `None` when the key is absent. */
  datatype Message = Message(
    id: Option<string>,
    internetMessageId: Option<string>,
    subject: Option<string>,
    from: Option<Option<Address>>,
    receivedDateTime: Option<string>,
    bodyPreview: Option<string>,
    hasAttachments: Option<bool>)

  /** The connector's record of a Graph message; `dateReceived` is in seconds. */
  datatype Email = Email(
    messageId: string,
    microsoftId: Option<string>,
    subject: string,
    sender: string,
    dateReceived: int,
    body: string,
    hasAttachments: bool,
    attachmentCount: nat)

  const MaxBodyLength := 2000
  const NoSubject := "No Subject"
  const UnknownAddress := "unknown"

  /** `"<name> <<address>>"`, with an empty name and the address "unknown" by default. */
  function Sender(from: Option<Option<Address>>): string {
    var a := if from.Some? && from.value.Some? then from.value.value else Address(None, None);
    a.name.GetOr("") + " <" + a.address.GetOr(UnknownAddress) + ">"
  }

  /**
   * `_parse_microsoft_message`: the Internet message id, else the Graph id,
   * else ""; the sender's display form; the parsed reception time (`now`
   * when missing or unparseable); the first 2000 characters of the preview;
   * and no attachment count, since Graph does not report one here.
   */
  function ParseMessage(m: Message, parseTime: string -> Option<int>, now: int): (e: Email)
    ensures m.internetMessageId.Some? ==> e.messageId == m.internetMessageId.value
    ensures m.internetMessageId.None? && m.id.Some? ==> e.messageId == m.id.value
    ensures m.internetMessageId.None? && m.id.None? ==> e.messageId == ""
    ensures e.microsoftId == m.id
    ensures e.subject == m.subject.GetOr(NoSubject)
    ensures |e.body| <= MaxBodyLength
    ensures m.bodyPreview.Some? ==> e.body <= m.bodyPreview.value
    ensures m.bodyPreview.Some? && |m.bodyPreview.value| <= MaxBodyLength ==> e.body == m.bodyPreview.value
    ensures m.bodyPreview.None? ==> e.body == ""
    ensures e.hasAttachments == m.hasAttachments.GetOr(false) && e.attachmentCount == 0
    ensures m.receivedDateTime.None? || m.receivedDateTime == Some("") ==> e.dateReceived == now
  {
    var date := if m.receivedDateTime.Some? && m.receivedDateTime.value != "" then parseTime(m.receivedDateTime.value).GetOr(now) else now;
    var preview := m.bodyPreview.GetOr("");
    Email(if m.internetMessageId.Some? then m.internetMessageId.value else m.id.GetOr(""),
          m.id, m.subject.GetOr(NoSubject), Sender(m.from), date,
          if preview != "" then Prefix(preview, MaxBodyLength) else "",
          m.hasAttachments.GetOr(false), 0)
  }

  /** The sender's display form ends with its address between angle brackets. */
  lemma SenderEndsWithAddress(name: string, address: string)
    ensures var s := Sender(Some(Some(Address(Some(name), Some(address)))));
            |s| == |name| + |address| + 3 && s[..|name|] == name
            && s[|name| + 2..|s| - 1] == address && s[|s| - 1] == '>'
  {
    var s := Sender(Some(Some(Address(Some(name), Some(address)))));
    assert s == name + " <" + address + ">";
  }

  /** Unlike Gmail's record, a Graph record can report attachments with a count of 0. */
  lemma AttachmentCountCanUnderstate(parseTime: string -> Option<int>, now: int)
    ensures var e := ParseMessage(Message(None, None, None, None, None, None, Some(true)), parseTime, now);
            e.hasAttachments && e.attachmentCount == 0
  {
  }

  // ---------------------------------------------------------------------------
  // Credentials and tokens
  // ---------------------------------------------------------------------------

  const DefaultTenant := "common"
  const DefaultScopes: seq<string> := ["https://graph.microsoft.com/Mail.Read", "https://graph.microsoft.com/Mail.ReadWrite"]

  /** Python truthiness of a credential value. */
  predicate Truthy(v: CredValue) {
    match v
    case CText(s) => s != ""
    case CNumber(n) => n != 0
    case CFlag(b) => b
    case CList(items) => items != []
    case CNone => false
    case COther => true
  }

  /** `credentials.get(key, default)`. */
  function Get(credentials: Credentials, key: string, default: CredValue): CredValue {
    if key in credentials then credentials[key] else default
  }

  /** The access token, the refresh token and the access token's expiry. */
  datatype Tokens = Tokens(token: CredValue, refreshToken: CredValue, expiry: Expiry)

  /** What the connector keeps of its credentials. */
  datatype Settings = Settings(clientId: CredValue, clientSecret: CredValue, tenantId: CredValue, scopes: CredValue,
                               tokens: Tokens)

  /** The Python type name of a credential value that is not text. */
  function TypeName(v: CredValue): string {
    match v
    case CNumber(_) => "int"
    case CFlag(_) => "bool"
    case CList(_) => "list"
    case _ => "dict"
  }

  /** `self.expiry` as `__init__` leaves it. */
  function ReadExpiry(v: CredValue, parseTime: string -> Option<int>): Expiry {
    match v
    case CText(t) => if parseTime(t).Some? then At(parseTime(t).value) else NoExpiry
    case _ => if Truthy(v) then NotATime(TypeName(v)) else NoExpiry
  }

  /**
   * `__init__`: read the credentials with their defaults (tenant "common",
   * the connector's two scopes). An expiry text is parsed, and one that does
   * not parse gives no expiry; a falsy value gives no expiry; any other
   * value is kept as it is.
   */
  function Read(credentials: Credentials, parseTime: string -> Option<int>): (s: Settings)
    ensures "tenant_id" !in credentials ==> s.tenantId == CText(DefaultTenant)
    ensures "tenant_id" in credentials ==> s.tenantId == credentials["tenant_id"]
    ensures "scopes" !in credentials ==> s.scopes == CList(DefaultScopes)
    ensures s.tokens.expiry.At? <==> "expiry" in credentials && credentials["expiry"].CText?
                                     && parseTime(credentials["expiry"].s).Some?
    ensures s.tokens.expiry.At? ==> parseTime(credentials["expiry"].s) == Some(s.tokens.expiry.time)
    ensures s.tokens.expiry.NotATime? <==> "expiry" in credentials && !credentials["expiry"].CText?
                                           && Truthy(credentials["expiry"])
  {
    Settings(Get(credentials, "client_id", CNone), Get(credentials, "client_secret", CNone),
             Get(credentials, "tenant_id", CText(DefaultTenant)), Get(credentials, "scopes", CList(DefaultScopes)),
             Tokens(Get(credentials, "token", CNone), Get(credentials, "refresh_token", CNone),
                    ReadExpiry(Get(credentials, "expiry", CNone), parseTime)))
  }

  /**
   * `get_refreshed_credentials`: nothing without an access token, otherwise
   * the seven values to store, the expiry formatted as ISO 8601 text; an
   * expiry that is not a time has no `isoformat` and raises.
   */
  function Stored(s: Settings, format: int -> string): (c: Result<Option<Credentials>>)
    ensures c.Err? <==> Truthy(s.tokens.token) && s.tokens.expiry.NotATime?
    ensures c == Ok(None) <==> !Truthy(s.tokens.token)
    ensures c.Ok? && c.value.Some? ==>
              c.value.value.Keys == {"token", "refresh_token", "client_id", "client_secret", "tenant_id", "scopes", "expiry"}
              && c.value.value["token"] == s.tokens.token && c.value.value["refresh_token"] == s.tokens.refreshToken
  {
    if !Truthy(s.tokens.token) then Ok(None)
    else match s.tokens.expiry
      case NotATime(typeName) => Err("'" + typeName + "' object has no attribute 'isoformat'")
      case NoExpiry => Ok(Some(StoredMap(s, CNone)))
      case At(t) => Ok(Some(StoredMap(s, CText(format(t)))))
  }

  /** The seven stored values, with the expiry already rendered. */
  function StoredMap(s: Settings, expiry: CredValue): Credentials {
    map["token" := s.tokens.token, "refresh_token" := s.tokens.refreshToken,
        "client_id" := s.clientId, "client_secret" := s.clientSecret, "tenant_id" := s.tenantId,
        "scopes" := s.scopes, "expiry" := expiry]
  }

  /**
   * The stored credentials read back give the same connector settings,
   * provided parsing undoes formatting on the expiry.
   */
  lemma StoredCredentialsReadBack(s: Settings, format: int -> string, parseTime: string -> Option<int>)
    requires Truthy(s.tokens.token)
    requires !s.tokens.expiry.NotATime?
    requires s.tokens.expiry.At? ==> parseTime(format(s.tokens.expiry.time)) == Some(s.tokens.expiry.time)
    ensures Stored(s, format).Ok? && Stored(s, format).value.Some?
    ensures Read(Stored(s, format).value.value, parseTime) == s
  {
    var c := Stored(s, format).value.value;
    assert c["token"] == s.tokens.token && c["refresh_token"] == s.tokens.refreshToken;
    assert c["client_id"] == s.clientId && c["client_secret"] == s.clientSecret;
    assert c["tenant_id"] == s.tenantId && c["scopes"] == s.scopes;
  }

  /** What the identity platform answers to a refresh. */
  datatype TokenReply =
    | Granted(accessToken: string, refreshToken: Option<string>, expiresIn: Option<int>)
    | Refused(description: Option<string>)
    | TokenRaised(message: string)

  const NoRefreshToken := "No refresh token available"
  const RefreshFailedPrefix := "Failed to refresh token: "
  const RefusedPrefix := "Token refresh failed: "
  const UnknownError := "Unknown error"

  /** The new access token's expiry, `expires_in` seconds (3600 by default) from now. */
  function RefreshedExpiry(expiresIn: Option<int>, now: int): int {
    now + expiresIn.GetOr(DefaultLifetime)
  }

  /**
   * `_refresh_access_token`: without a refresh token it fails at once;
   * otherwise a granted token replaces the access token, keeps the refresh
   * token unless a new one came, and expires `expires_in` seconds from now;
   * a refusal or an exception fails with its message wrapped once more.
   */
  function Refreshed(t: Tokens, reply: TokenReply, now: int): (r: Result<Tokens>)
    ensures !Truthy(t.refreshToken) ==> r == Err(NoRefreshToken)
    ensures r.Ok? <==> Truthy(t.refreshToken) && reply.Granted?
    ensures r.Ok? ==> r.value.token == CText(reply.accessToken)
                      && (reply.refreshToken.None? ==> r.value.refreshToken == t.refreshToken)
                      && (reply.refreshToken.Some? ==> r.value.refreshToken == CText(reply.refreshToken.value))
    ensures Truthy(t.refreshToken) && reply.Refused? ==>
              r == Err(RefreshFailedPrefix + RefusedPrefix + reply.description.GetOr(UnknownError))
    ensures Truthy(t.refreshToken) && reply.TokenRaised? ==> r == Err(RefreshFailedPrefix + reply.message)
  {
    if !Truthy(t.refreshToken) then Err(NoRefreshToken)
    else match reply
      case Granted(access, newRefresh, expiresIn) =>
        Ok(Tokens(CText(access), if newRefresh.Some? then CText(newRefresh.value) else t.refreshToken,
                  At(RefreshedExpiry(expiresIn, now))))
      case Refused(description) => Err(RefreshFailedPrefix + RefusedPrefix + description.GetOr(UnknownError))
      case TokenRaised(message) => Err(RefreshFailedPrefix + message)
  }

  /** A token granted for more than five minutes is not expired when it arrives. */
  lemma FreshTokenIsNotExpired(t: Tokens, reply: TokenReply, now: int)
    requires Refreshed(t, reply, now).Ok?
    requires reply.expiresIn.GetOr(DefaultLifetime) > ExpiryMargin
    ensures IsTokenExpired(Refreshed(t, reply, now).value.expiry, now) == Some(false)
  {
  }

  // ---------------------------------------------------------------------------
  // Folder ids and the requests of move_email and delete_email
  // ---------------------------------------------------------------------------

  /** The answer of a folder search by display name. */
  datatype FolderSearch = Found(ids: seq<string>) | SearchFailed

  /** The Graph requests the connector sends. */
  datatype Request =
    | GetMe
    | SearchFolders(displayName: string)
    | MoveMessage(messageId: string, destinationId: string)
    | DeleteMessage(messageId: string)

  /** The well-known folder names `_get_folder_id` answers without a request. */
  const WellKnown: set<string> := {"inbox", "deleteditems", "drafts", "sentitems", "junkemail"}
  const DeletedItems := "deleteditems"

  /**
   * `_get_folder_id`: a well-known name, in any case, is its own id; any
   * other name is searched by display name and the first folder found gives
   * the id; a failed search gives none.
   */
  function FolderId(name: string, search: string -> FolderSearch): (id: Option<string>)
    ensures Lower(name) in WellKnown ==> id == Some(Lower(name))
  {
    if Lower(name) in WellKnown then Some(Lower(name))
    else match search(name)
      case Found(ids) => if ids != [] then Some(ids[0]) else None
      case SearchFailed => None
  }

  /** The requests a folder-id lookup sends: none for a well-known name, else one search. */
  function Lookups(name: string): seq<Request> {
    if Lower(name) in WellKnown then [] else [SearchFolders(name)]
  }

  /** An id Python treats as found: present and not empty. */
  predicate Usable(id: Option<string>) {
    id.Some? && id.value != ""
  }

  /** The requests of `move_email` once connected: the lookup, then the move only when the id is usable. */
  function MoveRequests(messageId: string, folder: string, search: string -> FolderSearch): seq<Request> {
    var id := FolderId(folder, search);
    Lookups(folder) + (if Usable(id) then [MoveMessage(messageId, id.value)] else [])
  }

  /** What `move_email` reports once connected: whether a move was sent and accepted. */
  function MoveOutcome(messageId: string, folder: string, search: string -> FolderSearch, accepts: Request -> bool): bool {
    var id := FolderId(folder, search);
    Usable(id) && accepts(MoveMessage(messageId, id.value))
  }

  /** Without a usable destination id no move is sent and the move reports failure. */
  lemma UnresolvedFolderSendsNoMove(messageId: string, folder: string, search: string -> FolderSearch,
                                    accepts: Request -> bool)
    requires !Usable(FolderId(folder, search))
    ensures forall q :: q in MoveRequests(messageId, folder, search) ==> !q.MoveMessage?
    ensures !MoveOutcome(messageId, folder, search, accepts)
  {
  }

  /**
   * The requests of `delete_email` once connected: a hard delete when
   * permanent; otherwise the trash lookup, then a move to the trash, or a
   * hard delete when the trash has no usable id.
   */
  function DeleteRequests(messageId: string, permanent: bool, search: string -> FolderSearch): (sent: seq<Request>)
    ensures |sent| >= 1
  {
    if permanent then [DeleteMessage(messageId)]
    else
      var trash := FolderId(DeletedItems, search);
      Lookups(DeletedItems) + (if Usable(trash) then [MoveMessage(messageId, trash.value)] else [DeleteMessage(messageId)])
  }

  /** The one request `delete_email` ends up sending: a hard delete when permanent, else a move to the trash. */
  function DeleteRequest(messageId: string, permanent: bool): Request {
    if permanent then DeleteMessage(messageId) else MoveMessage(messageId, DeletedItems)
  }

  /**
   * A soft delete always moves the message to "deleteditems" with no lookup
   * request: the trash is a well-known folder, so the hard-delete fallback is
   * never taken.
   */
  lemma SoftDeleteMovesToTrash(messageId: string, permanent: bool, search: string -> FolderSearch)
    ensures DeleteRequests(messageId, permanent, search) == [DeleteRequest(messageId, permanent)]
  {
    TrashIsWellKnown();
    assert FolderId(DeletedItems, search) == Some(DeletedItems);
    assert Lookups(DeletedItems) == [];
  }

  lemma TrashIsWellKnown()
    ensures Lower(DeletedItems) == DeletedItems && DeletedItems in WellKnown
  {
    LowerOfLowerCase(DeletedItems);
  }

  // ---------------------------------------------------------------------------
  // The connector
  // ---------------------------------------------------------------------------

  /**
   * How Graph answers: `probe` is the error of the `GET /me` check, if any;
   * `search` answers folder searches; `accepts` tells whether a move or a
   * delete request succeeds (`false` standing for a request exception); and
   * `token` answers a refresh.
   */
  datatype Graph = Graph(
    probe: Option<string>,
    search: string -> FolderSearch,
    accepts: Request -> bool,
    token: TokenReply)

  const ConnectFailedPrefix := "Microsoft connection failed: "
  const ProbeFailedPrefix := "Failed to connect to Microsoft Graph API: "

  /** Whether `connect` gets past the expiry check and the refresh and opens a session. */
  predicate OpensSession(t: Tokens, graph: Graph, now: int) {
    !t.expiry.NotATime?
    && !(IsTokenExpired(t.expiry, now) == Some(true) && Refreshed(t, graph.token, now).Err?)
  }

  /** The Graph requests `connect` sends: `GET /me` once the session is open. */
  function ConnectRequests(t: Tokens, graph: Graph, now: int): seq<Request> {
    if OpensSession(t, graph, now) then [GetMe] else []
  }

  /** The tokens after `connect`: refreshed only when expired and the refresh succeeds. */
  function ConnectedTokens(t: Tokens, graph: Graph, now: int): Tokens {
    var r := Refreshed(t, graph.token, now);
    if IsTokenExpired(t.expiry, now) == Some(true) && r.Ok? then r.value else t
  }

  /** The message of the `ConnectionError` that `connect` raises, if it raises. */
  function ConnectError(t: Tokens, graph: Graph, now: int): Option<string> {
    var r := Refreshed(t, graph.token, now);
    if t.expiry.NotATime? then Some(ConnectFailedPrefix + ExpiryTypeError(t.expiry.typeName))
    else if IsTokenExpired(t.expiry, now) == Some(true) && r.Err? then Some(ConnectFailedPrefix + r.error)
    else if graph.probe.Some? then Some(ProbeFailedPrefix + graph.probe.value)
    else None
  }

  /**
   * `connect` raises exactly when the expiry is not a time, an expired token
   * cannot be refreshed, or `GET /me` is rejected; a success always opens the
   * session and sends `GET /me`, and a failure sends it only when the check
   * itself failed.
   */
  lemma ConnectFailsIff(t: Tokens, graph: Graph, now: int)
    ensures ConnectError(t, graph, now).Some? <==>
              t.expiry.NotATime?
              || (IsTokenExpired(t.expiry, now) == Some(true) && Refreshed(t, graph.token, now).Err?)
              || graph.probe.Some?
    ensures ConnectError(t, graph, now).None? ==>
              OpensSession(t, graph, now) && ConnectRequests(t, graph, now) == [GetMe]
    ensures ConnectError(t, graph, now).Some? && OpensSession(t, graph, now) ==>
              ConnectError(t, graph, now) == Some(ProbeFailedPrefix + graph.probe.value)
    ensures !OpensSession(t, graph, now) ==>
              ConnectRequests(t, graph, now) == [] && ConnectedTokens(t, graph, now) == t
  {
  }

  class MicrosoftConnector {
    const emailAddress: string
    const credentials: Credentials
    const graph: Graph
    const clientId: CredValue
    const clientSecret: CredValue
    const tenantId: CredValue
    const scopes: CredValue
    var tokens: Tokens
    /** Whether `self._session` is set. */
    var session: bool
    /** Every Graph request sent, oldest first. */
    var requests: seq<Request>

    /** The settings as they stand now. */
    function Current(): Settings
      reads this
    {
      Settings(clientId, clientSecret, tenantId, scopes, tokens)
    }

    /** `__init__`: keep the address and the credentials, and read the settings from them. */
    constructor(emailAddress: string, credentials: Credentials, graph: Graph, parseTime: string -> Option<int>)
      ensures this.emailAddress == emailAddress && this.credentials == credentials && this.graph == graph
      ensures Current() == Read(credentials, parseTime)
      ensures !session && requests == []
    {
      this.emailAddress := emailAddress;
      this.credentials := credentials;
      this.graph := graph;
      var s := Read(credentials, parseTime);
      clientId := s.clientId;
      clientSecret := s.clientSecret;
      tenantId := s.tenantId;
      scopes := s.scopes;
      tokens := s.tokens;
      session := false;
      requests := [];
    }

    /** `_refresh_access_token`: replace the tokens, or report why not. */
    method RefreshAccessToken(now: int) returns (failure: Option<string>)
      modifies this
      ensures var r := Refreshed(old(tokens), graph.token, now);
              (r.Ok? ==> failure.None? && tokens == r.value)
              && (r.Err? ==> failure == Some(r.error) && tokens == old(tokens))
      ensures session == old(session) && requests == old(requests)
    {
      var r := Refreshed(tokens, graph.token, now);
      if r.Err? {
        return Some(r.error);
      }
      tokens := r.value;
      failure := None;
    }

    /**
     * `connect`: an expiry that is not a time makes the expiry check raise,
     * reported as a connection failure; otherwise refresh an expired token
     * first (a failure there is reported as a connection failure and opens no
     * session), then open the session
     * and check it with `GET /me`; the session stays open even when the check
     * fails.
     */
    method Connect(now: int) returns (failure: Option<string>)
      modifies this
      ensures old(tokens.expiry).NotATime? ==>
                failure == Some(ConnectFailedPrefix + ExpiryTypeError(old(tokens.expiry).typeName))
                && tokens == old(tokens) && session == old(session) && requests == old(requests)
      ensures var expired := IsTokenExpired(old(tokens.expiry), now) == Some(true);
              var r := Refreshed(old(tokens), graph.token, now);
              !old(tokens.expiry).NotATime? ==>
              if expired && r.Err? then
                failure == Some(ConnectFailedPrefix + r.error)
                && tokens == old(tokens) && session == old(session) && requests == old(requests)
              else
                session && requests == old(requests) + [GetMe]
                && tokens == (if expired then r.value else old(tokens))
                && failure == (if graph.probe.Some? then Some(ProbeFailedPrefix + graph.probe.value) else None)
      ensures failure == ConnectError(old(tokens), graph, now)
      ensures session == (old(session) || OpensSession(old(tokens), graph, now))
      ensures requests == old(requests) + ConnectRequests(old(tokens), graph, now)
      ensures tokens == ConnectedTokens(old(tokens), graph, now)
    {
      var expired := IsTokenExpired(tokens.expiry, now);
      if expired.None? {
        return Some(ConnectFailedPrefix + ExpiryTypeError(tokens.expiry.typeName));
      }
      if expired.value {
        var refreshFailure := RefreshAccessToken(now);
        if refreshFailure.Some? {
          return Some(ConnectFailedPrefix + refreshFailure.value);
        }
      }
      session := true;
      requests := requests + [GetMe];
      if graph.probe.Some? {
        return Some(ProbeFailedPrefix + graph.probe.value);
      }
      failure := None;
    }

    /** `disconnect`: close the session if there is one. */
    method Disconnect()
      modifies this
      ensures !session && requests == old(requests) && tokens == old(tokens)
    {
      session := false;
    }

    /** `if not self._session: self.connect()`; a failure raises a `ConnectionError`. */
    method EnsureSession(now: int) returns (failure: Option<Failure>)
      modifies this
      ensures old(session) ==> failure.None? && requests == old(requests) && tokens == old(tokens) && session
      ensures failure.None? ==> session
      ensures failure.Some? ==> failure.value.kind == "ConnectionError"
      ensures requests == old(requests) || requests == old(requests) + [GetMe]
      ensures !old(session) ==>
                var m := ConnectError(old(tokens), graph, now);
                failure == (if m.Some? then Some(Failure("ConnectionError", m.value)) else None)
                && session == OpensSession(old(tokens), graph, now)
                && requests == old(requests) + ConnectRequests(old(tokens), graph, now)
                && tokens == ConnectedTokens(old(tokens), graph, now)
    {
      failure := None;
      if !session {
        var message := Connect(now);
        if message.Some? {
          failure := Some(Failure("ConnectionError", message.value));
        }
      }
    }

    /** `_get_folder_id`: the id, sending a search only for a name that is not well known. */
    method GetFolderId(name: string) returns (id: Option<string>)
      modifies this
      ensures id == FolderId(name, graph.search)
      ensures requests == old(requests) + Lookups(name)
      ensures session == old(session) && tokens == old(tokens)
    {
      var lower := Lower(name);
      if lower in WellKnown {
        return Some(lower);
      }
      requests := requests + [SearchFolders(name)];
      match graph.search(name)
      case Found(ids) =>
        id := if ids != [] then Some(ids[0]) else None;
      case SearchFailed =>
        id := None;
    }

    /**
     * `move_email`: connect when needed, resolve the destination's id, and
     * send the move only when the id is usable; report whether Graph accepted
     * it.  A failed connect raises.
     */
    method MoveEmail(messageId: string, folder: string, now: int) returns (r: Reply)
      modifies this
      ensures old(session) ==>
                r == Returned(MoveOutcome(messageId, folder, graph.search, graph.accepts))
                && requests == old(requests) + MoveRequests(messageId, folder, graph.search)
      ensures r.Raised? ==> r.failure.kind == "ConnectionError"
                            && (requests == old(requests) || requests == old(requests) + [GetMe])
      ensures r.Returned? ==>
                r.ok == MoveOutcome(messageId, folder, graph.search, graph.accepts)
                && (requests == old(requests) + MoveRequests(messageId, folder, graph.search)
                    || requests == old(requests) + [GetMe] + MoveRequests(messageId, folder, graph.search))
      ensures !old(session) ==>
                var m := ConnectError(old(tokens), graph, now);
                (m.Some? ==> r == Raised(Failure("ConnectionError", m.value))
                             && requests == old(requests) + ConnectRequests(old(tokens), graph, now))
                && (m.None? ==> r == Returned(MoveOutcome(messageId, folder, graph.search, graph.accepts))
                                && requests == old(requests) + [GetMe] + MoveRequests(messageId, folder, graph.search))
                && tokens == ConnectedTokens(old(tokens), graph, now)
    {
      var failure := EnsureSession(now);
      if failure.Some? {
        return Raised(failure.value);
      }
      var id := GetFolderId(folder);
      if id.None? || id.value == "" {
        return Returned(false);
      }
      var request := MoveMessage(messageId, id.value);
      requests := requests + [request];
      r := Returned(graph.accepts(request));
    }

    /** The trash lookup of a soft delete: no request, since the trash is a well-known folder. */
    method TrashId() returns (trash: Option<string>)
      modifies this
      ensures trash == Some(DeletedItems)
      ensures requests == old(requests) && session == old(session) && tokens == old(tokens)
    {
      TrashIsWellKnown();
      trash := GetFolderId(DeletedItems);
    }

    /** The delete request of `delete_email` on an open session. */
    method SendDelete(messageId: string, permanent: bool) returns (ok: bool)
      modifies this
      ensures ok == graph.accepts(DeleteRequest(messageId, permanent))
      ensures requests == old(requests) + [DeleteRequest(messageId, permanent)]
      ensures session == old(session) && tokens == old(tokens)
    {
      var request := DeleteMessage(messageId);
      if !permanent {
        var trash := TrashId();
        if trash.Some? && trash.value != "" {
          request := MoveMessage(messageId, trash.value);
        }
      }
      requests := requests + [request];
      ok := graph.accepts(request);
    }

    /**
     * `delete_email`: connect when needed, then hard-delete when permanent,
     * otherwise move to the trash (or hard-delete when the trash has no
     * usable id); report whether Graph accepted the request.  A failed
     * connect raises.
     */
    method DeleteEmail(messageId: string, now: int, permanent: bool := false) returns (r: Reply)
      modifies this
      ensures old(session) ==>
                r == Returned(graph.accepts(DeleteRequest(messageId, permanent)))
                && requests == old(requests) + [DeleteRequest(messageId, permanent)]
      ensures r.Raised? ==> r.failure.kind == "ConnectionError"
                            && (requests == old(requests) || requests == old(requests) + [GetMe])
      ensures r.Returned? ==>
                r.ok == graph.accepts(DeleteRequest(messageId, permanent))
                && (requests == old(requests) + [DeleteRequest(messageId, permanent)]
                    || requests == old(requests) + [GetMe, DeleteRequest(messageId, permanent)])
      ensures !old(session) ==>
                var m := ConnectError(old(tokens), graph, now);
                (m.Some? ==> r == Raised(Failure("ConnectionError", m.value))
                             && requests == old(requests) + ConnectRequests(old(tokens), graph, now))
                && (m.None? ==> r == Returned(graph.accepts(DeleteRequest(messageId, permanent)))
                                && requests == old(requests) + [GetMe, DeleteRequest(messageId, permanent)])
                && tokens == ConnectedTokens(old(tokens), graph, now)
    {
      var failure := EnsureSession(now);
      if failure.Some? {
        return Raised(failure.value);
      }
      var ok := SendDelete(messageId, permanent);
      r := Returned(ok);
    }
  }
}
