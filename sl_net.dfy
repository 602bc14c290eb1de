/** SLNetCommunication: opens one authenticated, subscribed connection to an
    agent, refusing cloud-hosted agents, and sends a request that wants a
    single reply. */
module SLNet {
  import opened Wrappers
  import opened Strings
  import opened Connection

  /** Host names containing this are cloud-hosted agents. */
  const CloudDomain := ".dataminer.services"
  const CloudAgentMessage :=
    "Unable to directly deploy to a cloud agent. Please use CatalogUpload tool and Deployment from-catalog with this tool."
  /** The oldest server version the connection library can reach. */
  const MinimumVersion := "MR 10.3 / FR 10.3.2"
  const UnreachableMessage :=
    "Unable to reach DataMiner. Make sure that DataMiner and APIGateway are up and running and DataMiner has a minimum version of "
    + MinimumVersion + " "
  /** The polling-request, connect and authenticate timeouts, in milliseconds. */
  const SetupTimeout := 120000
  /** The timeout of a request, in milliseconds. */
  const SendTimeout := 3600000

  /** Every call a successful setup makes, in its order. */
  function FullSetupTrace(hostname: string, username: string, password: string): seq<Event> {
    [ Construct(hostname),
      SetTimeout(PollingRequestTimeout, SetupTimeout),
      SetTimeout(ConnectTimeoutTime, SetupTimeout),
      SetTimeout(AuthenticateMessageTimeout, SetupTimeout),
      Event.Authenticate(username, password),
      Event.Subscribe(EmptyFilter) ]
  }

  /** The calls the constructor makes: none for a cloud host, and otherwise
      the full setup up to and including the first call that throws. */
  function SetupTrace(hostname: string, username: string, password: string, t: Transport): seq<Event> {
    var full := FullSetupTrace(hostname, username, password);
    if Contains(hostname, CloudDomain) then []
    else if t.construct.Throws? then full[..1]
    else if t.authenticate.Throws? then full[..5]
    else full
  }

  /** What the constructor throws, if anything: the cloud refusal, a failure to
      construct the connection wrapped in one InvalidOperationException, or
      what Authenticate or Subscribe throw, unwrapped. */
  function SetupError(hostname: string, t: Transport): Option<Exception> {
    if Contains(hostname, CloudDomain) then Some(InvalidOperation(CloudAgentMessage, None))
    else if t.construct.Throws? then Some(InvalidOperation(UnreachableMessage, Some(t.construct.exception)))
    else if t.authenticate.Throws? then Some(t.authenticate.exception)
    else if t.subscribe.Throws? then Some(t.subscribe.exception)
    else None
  }

  /** Enumerable.FirstOrDefault on the replies: the first, or null if there is none. */
  function FirstOrDefault(replies: seq<DmsMessage>): (r: Option<DmsMessage>)
    ensures r.None? <==> replies == []
    ensures r.Some? ==> r.value == replies[0]
  {
    if replies == [] then None else Some(replies[0])
  }

  class SLNetCommunication {
    const connection: GrpcConnection
    var endPoint: string

    /** The state the constructor leaves: timeouts set, authenticated,
        subscribed, not disposed, and the end point is the connection's host. */
    ghost predicate Ready()
      reads this, connection
    {
      && connection.pollingRequestTimeout == SetupTimeout
      && connection.connectTimeoutTime == SetupTimeout
      && connection.authenticateMessageTimeout == SetupTimeout
      && connection.authenticated && connection.subscribed && !connection.disposed
      && connection.host == endPoint
    }

    /** The last step of the source's constructor, `EndPoint = hostname`,
        reached only when every earlier step completed. */
    constructor (connection: GrpcConnection, hostname: string)
      ensures this.connection == connection && endPoint == hostname
    {
      this.connection := connection;
      endPoint := hostname;
    }

    /** GetConnection, which runs the source's constructor: the cloud guard,
        constructing the connection, the three timeouts, Authenticate,
        Subscribe with an empty filter, and finally the end point. */
    static method GetConnection(endUrlPoint: string, username: string, password: string, network: Network)
      returns (r: Result<SLNetCommunication, Exception>)
      modifies network
      ensures network.trace == old(network.trace) + SetupTrace(endUrlPoint, username, password, network.transport)
      ensures r.Failure? <==> SetupError(endUrlPoint, network.transport).Some?
      ensures r.Failure? ==> r.error == SetupError(endUrlPoint, network.transport).value
      ensures r.Success? ==> fresh(r.value) && fresh(r.value.connection)
      ensures r.Success? ==> r.value.connection.network == network && r.value.endPoint == endUrlPoint && r.value.Ready()
    {
      if Contains(endUrlPoint, CloudDomain) {
        return Failure(InvalidOperation(CloudAgentMessage, None));
      }
      var created := GrpcConnection.Open(endUrlPoint, network);
      if created.Failure? {
        return Failure(InvalidOperation(UnreachableMessage, Some(created.error)));
      }
      var c := created.value;
      c.SetPollingRequestTimeout(SetupTimeout);
      c.SetConnectTimeoutTime(SetupTimeout);
      c.SetAuthenticateMessageTimeout(SetupTimeout);
      var authenticated := c.Authenticate(username, password);
      if authenticated.Throws? {
        return Failure(authenticated.exception);
      }
      var subscribed := c.Subscribe(EmptyFilter);
      if subscribed.Throws? {
        return Failure(subscribed.exception);
      }
      var s := new SLNetCommunication(c, endUrlPoint);
      r := Success(s);
    }

    /** Disposes the underlying connection. */
    method Dispose()
      modifies connection, connection.network
      ensures connection.disposed
      ensures connection.network.trace == old(connection.network.trace) + [Event.Dispose]
      ensures connection.pollingRequestTimeout == old(connection.pollingRequestTimeout)
      ensures connection.connectTimeoutTime == old(connection.connectTimeoutTime)
      ensures connection.authenticateMessageTimeout == old(connection.authenticateMessageTimeout)
      ensures connection.authenticated == old(connection.authenticated) && connection.subscribed == old(connection.subscribed)
    {
      connection.Dispose();
    }

    /** Sends `message` alone with the one-hour timeout and yields the first
        reply, or null when there is none; an exception of the library
        passes through. */
    method SendSingleResponseMessage(message: DmsMessage) returns (r: Result<Option<DmsMessage>, Exception>)
      modifies connection.network
      ensures connection.network.trace == old(connection.network.trace) + [SendAsync([message], SendTimeout)]
      ensures connection.network.transport.send.Failure? ==> r == Failure(connection.network.transport.send.error)
      ensures connection.network.transport.send.Success? ==>
        r == Success(FirstOrDefault(connection.network.transport.send.value))
    {
      var result := connection.SendAsyncOverConnection([message], SendTimeout);
      if result.Failure? {
        return Failure(result.error);
      }
      r := Success(FirstOrDefault(result.value));
    }
  }

  /** A host containing the cloud domain is refused before any call on the
      library is made. */
  lemma CloudHostRejected(hostname: string, username: string, password: string, t: Transport)
    requires Contains(hostname, CloudDomain)
    ensures SetupError(hostname, t) == Some(InvalidOperation(CloudAgentMessage, None))
    ensures SetupTrace(hostname, username, password, t) == []
  {
  }

  /** The guard is a substring test, not a suffix test: a host that merely
      contains the cloud domain is refused as well as one that ends with it. */
  lemma CloudGuardIsSubstringTest(hostname: string)
    requires EndsWith(hostname, CloudDomain) || hostname == "agent" + CloudDomain + ".example.com"
    ensures SetupError(hostname, Transport(Completes, Completes, Completes, Success([])))
      == Some(InvalidOperation(CloudAgentMessage, None))
    ensures hostname == "agent" + CloudDomain + ".example.com" ==> !EndsWith(hostname, CloudDomain)
  {
    if EndsWith(hostname, CloudDomain) {
      EndsWithImpliesContains(hostname, CloudDomain);
    } else {
      assert hostname[5..5 + |CloudDomain|] == CloudDomain;
      assert OccursAt(hostname, CloudDomain, 5);
      ContainsIff(hostname, CloudDomain);
    }
    if hostname == "agent" + CloudDomain + ".example.com" {
      assert hostname[|hostname| - 1] == 'm' != CloudDomain[|CloudDomain| - 1];
    }
  }

  /** A failure to construct the connection becomes one InvalidOperationException
      that names the minimum server version and keeps the cause as inner exception. */
  lemma ConstructFailureWrapped(hostname: string, username: string, password: string, t: Transport)
    requires !Contains(hostname, CloudDomain) && t.construct.Throws?
    ensures SetupError(hostname, t) == Some(InvalidOperation(UnreachableMessage, Some(t.construct.exception)))
    ensures Contains(UnreachableMessage, "MR 10.3 / FR 10.3.2")
    ensures SetupTrace(hostname, username, password, t) == [Construct(hostname)]
  {
    var k := |UnreachableMessage| - |MinimumVersion| - 1;
    assert UnreachableMessage[k..k + |MinimumVersion|] == MinimumVersion;
    assert OccursAt(UnreachableMessage, MinimumVersion, k);
    ContainsIff(UnreachableMessage, MinimumVersion);
  }

  /** The setup runs in its fixed order and stops at the first failure: the
      calls made are always a prefix of the full setup (so all three timeouts
      precede Authenticate, which precedes Subscribe), all of it when no
      exception is thrown, and less of it when Authenticate or an earlier
      step throws. */
  lemma SetupOrder(hostname: string, username: string, password: string, t: Transport)
    ensures var calls := SetupTrace(hostname, username, password, t);
      var full := FullSetupTrace(hostname, username, password);
      && |calls| <= |full| && calls == full[..|calls|]
      && (SetupError(hostname, t).None? ==> calls == full)
      && (t.subscribe.Completes? ==> (calls == full <==> SetupError(hostname, t).None?))
  {
  }

  /** When Authenticate or Subscribe throws, its exception leaves the
      constructor unwrapped, and the calls made end with the one that threw:
      the connection was constructed and configured, and no Dispose follows.
      The run that loses the connection this way is ConnectedRun's failing
      branch, whose calls are exactly these. */
  lemma SetupFailureLeavesConnection(hostname: string, username: string, password: string, t: Transport)
    requires !Contains(hostname, CloudDomain) && t.construct.Completes?
    requires t.authenticate.Throws? || t.subscribe.Throws?
    ensures SetupError(hostname, t)
      == Some(if t.authenticate.Throws? then t.authenticate.exception else t.subscribe.exception)
    ensures var calls := SetupTrace(hostname, username, password, t);
      var full := FullSetupTrace(hostname, username, password);
      && calls == (if t.authenticate.Throws? then full[..5] else full)
      && calls[0] == Construct(hostname)
      && calls[|calls| - 1] == (if t.authenticate.Throws? then Event.Authenticate(username, password)
                                else Event.Subscribe(EmptyFilter))
      && Event.Dispose !in calls
  {
  }
}
