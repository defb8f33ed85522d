/**
 * The provider-neutral email connector (shared/integrations/base.py).
 *
 * A connector talks to one mailbox.  The provider's behaviour (whether
 * connecting fails, what a move, a delete or a label request answers) is a
 * `Provider` value; the connector records every request it sends, in order,
 * so that callers can be held to "connect first, always disconnect".
 */
module Connectors {
  import opened Common

  /** An exception raised by a provider: its class name and its text. */
  datatype Failure = Failure(kind: string, message: string)

  /** A provider call either returns a boolean outcome or raises. */
  datatype Reply = Returned(ok: bool) | Raised(failure: Failure)

  /** A decrypted credential value (the credentials are a JSON object). */
  datatype CredValue = CText(s: string) | CNumber(n: int) | CFlag(b: bool) | CList(items: seq<string>) | CNone | COther

  type Credentials = map<string, CredValue>

  /** The requests a connector sends to its provider. */
  datatype Op =
    | Connect
    | Disconnect
    | Move(messageId: string, folder: string)
    | Delete(messageId: string, permanent: bool)
    | Label(messageId: string, name: string)

  /**
   * How a provider answers.  `labeller` is `None` for a connector class that has
   * no `apply_label` method.
   */
  datatype Provider = Provider(
    connectFailure: Option<Failure>,
    move: (string, string) -> Reply,
    delete: (string, bool) -> Reply,
    labeller: Option<(string, string) -> Reply>)

  /** The result of `test_connection`. */
  datatype ConnectionTest = ConnectionTest(success: bool, message: string, details: map<string, string>)

  const ConnectionSuccessful := "Connection successful"
  const ConnectionFailedPrefix := "Connection failed: "

  /** The report of a connection test whose connect step failed with `failure`, if at all. */
  function ConnectionReport(emailAddress: string, failure: Option<Failure>): (t: ConnectionTest)
    ensures t.success <==> failure.None?
    ensures failure.None? ==> t.message == ConnectionSuccessful && t.details == map["email" := emailAddress]
    ensures failure.Some? ==>
              t.message == ConnectionFailedPrefix + failure.value.message
              && t.details == map["error_type" := failure.value.kind]
  {
    match failure
    case None => ConnectionTest(true, ConnectionSuccessful, map["email" := emailAddress])
    case Some(f) => ConnectionTest(false, ConnectionFailedPrefix + f.message, map["error_type" := f.kind])
  }

  /** The message alone tells a successful test from a failed one, whatever the error text. */
  lemma ReportMessageTellsOutcome(emailAddress: string, failure: Option<Failure>)
    ensures ConnectionReport(emailAddress, failure).success
            <==> ConnectionReport(emailAddress, failure).message == ConnectionSuccessful
  {
    var t := ConnectionReport(emailAddress, failure);
    if failure.Some? {
      assert t.message[11] == 'f';
      assert ConnectionSuccessful[11] == 's';
    }
  }

  class Connector {
    const emailAddress: string
    const credentials: Credentials
    const provider: Provider
    var connected: bool
    /** Every request sent to the provider, oldest first. */
    var calls: seq<Op>

    /** `BaseEmailConnector.__init__`: keep the address and the credentials as given. */
    constructor(emailAddress: string, credentials: Credentials, provider: Provider)
      ensures this.emailAddress == emailAddress && this.credentials == credentials
      ensures this.provider == provider
      ensures !connected && calls == []
    {
      this.emailAddress := emailAddress;
      this.credentials := credentials;
      this.provider := provider;
      connected := false;
      calls := [];
    }

    /** `connect`: open the session, or report the provider's failure. */
    method Connect() returns (failure: Option<Failure>)
      modifies this
      ensures failure == provider.connectFailure
      ensures connected == (failure.None? || old(connected))
      ensures calls == old(calls) + [Op.Connect]
    {
      failure := provider.connectFailure;
      if failure.None? {
        connected := true;
      }
      calls := calls + [Op.Connect];
    }

    /** `disconnect`: close the session; never raises. */
    method Disconnect()
      modifies this
      ensures !connected
      ensures calls == old(calls) + [Op.Disconnect]
    {
      connected := false;
      calls := calls + [Op.Disconnect];
    }

    /** `move_email`: the provider's answer to moving `messageId` to `folder`. */
    method MoveEmail(messageId: string, folder: string) returns (r: Reply)
      modifies this
      ensures r == provider.move(messageId, folder)
      ensures connected == old(connected)
      ensures calls == old(calls) + [Move(messageId, folder)]
    {
      r := provider.move(messageId, folder);
      calls := calls + [Move(messageId, folder)];
    }

    /** `delete_email`: the provider's answer to deleting `messageId`; a soft delete unless told otherwise. */
    method DeleteEmail(messageId: string, permanent: bool := false) returns (r: Reply)
      modifies this
      ensures r == provider.delete(messageId, permanent)
      ensures connected == old(connected)
      ensures calls == old(calls) + [Delete(messageId, permanent)]
    {
      r := provider.delete(messageId, permanent);
      calls := calls + [Delete(messageId, permanent)];
    }

    /** `apply_label`, for a connector class that has one. */
    method ApplyLabel(messageId: string, name: string) returns (r: Reply)
      requires provider.labeller.Some?
      modifies this
      ensures r == provider.labeller.value(messageId, name)
      ensures connected == old(connected)
      ensures calls == old(calls) + [Label(messageId, name)]
    {
      r := provider.labeller.value(messageId, name);
      calls := calls + [Label(messageId, name)];
    }

    /**
     * `test_connection`: connect then disconnect; a failing connect is
     * reported instead and is not followed by a disconnect.
     */
    method TestConnection() returns (t: ConnectionTest)
      modifies this
      ensures t == ConnectionReport(emailAddress, provider.connectFailure)
      ensures !t.success ==> calls == old(calls) + [Op.Connect] && connected == old(connected)
      ensures t.success ==> calls == old(calls) + [Op.Connect, Op.Disconnect] && !connected
    {
      var failure := Connect();
      if failure.Some? {
        return ConnectionReport(emailAddress, failure);
      }
      Disconnect();
      t := ConnectionReport(emailAddress, None);
    }
  }
}
