/** The remote connection library the tool drives, seen only at its
    interface: what a GRPCConnection is asked to do, and what it answers.
    Every call on a connection is recorded, in order, in the trace of the
    Network it talks over; what each call returns or throws is fixed by the
    network's Transport. */
module Connection {
  import opened Wrappers

  /** The exceptions that reach the core. */
  datatype Exception =
    | InvalidOperation(message: string, inner: Option<Exception>)  // InvalidOperationException
    | NullReference                                                 // NullReferenceException
    | Foreign(name: string)                                         // raised inside the library

  /** DMSMessage, as far as the core looks into one. The script output is the
      ScriptOutput dictionary as its enumeration yields it; null fields are None. */
  datatype DmsMessage =
    | ExecuteScript(scriptName: string, options: seq<string>)
    | ExecuteScriptResponse(scriptOutput: Option<seq<(string, string)>>, hadError: bool,
                            errorCode: int, errorMessages: Option<seq<string>>)
    | OtherMessage(kind: string)

  /** `new SubscriptionFilter()`: the filter that selects nothing. */
  datatype SubscriptionFilter = EmptyFilter

  datatype TimeoutSetting = PollingRequestTimeout | ConnectTimeoutTime | AuthenticateMessageTimeout

  /** One call made on the library. */
  datatype Event =
    | Construct(host: string)
    | SetTimeout(setting: TimeoutSetting, milliseconds: int)
    | Authenticate(username: string, password: string)
    | Subscribe(filter: SubscriptionFilter)
    | SendAsync(messages: seq<DmsMessage>, timeoutMilliseconds: int)
    | Dispose

  /** A call that returns normally or throws. */
  datatype Step = Completes | Throws(exception: Exception)

  /** How the library answers: whether constructing a connection, Authenticate
      and Subscribe complete, and what SendAsyncOverConnection returns or throws. */
  datatype Transport = Transport(construct: Step, authenticate: Step, subscribe: Step,
                                 send: Result<seq<DmsMessage>, Exception>)

  /** The outside world the library talks to, with the record of every call. */
  class Network {
    const transport: Transport
    var trace: seq<Event>

    constructor (transport: Transport)
      ensures this.transport == transport && trace == []
    {
      this.transport := transport;
      trace := [];
    }
  }

  /** GRPCConnection: the three timeouts the tool sets, and how far the
      session has come. */
  class GrpcConnection {
    const network: Network
    const host: string
    var pollingRequestTimeout: int
    var connectTimeoutTime: int
    var authenticateMessageTimeout: int
    var authenticated: bool
    var subscribed: bool
    var disposed: bool

    /** The object `new GRPCConnection(host)` yields once it did not throw. */
    constructor (host: string, network: Network)
      ensures this.host == host && this.network == network
      ensures !authenticated && !subscribed && !disposed
    {
      this.host := host;
      this.network := network;
      authenticated, subscribed, disposed := false, false, false;
    }

    /** `new GRPCConnection(host)`, which throws when the server cannot be
        reached or is too old. */
    static method Open(host: string, network: Network) returns (r: Result<GrpcConnection, Exception>)
      modifies network
      ensures network.trace == old(network.trace) + [Construct(host)]
      ensures r.Failure? <==> network.transport.construct.Throws?
      ensures r.Failure? ==> r.error == network.transport.construct.exception
      ensures r.Success? ==> fresh(r.value) && r.value.host == host && r.value.network == network
      ensures r.Success? ==> !r.value.authenticated && !r.value.subscribed && !r.value.disposed
    {
      network.trace := network.trace + [Construct(host)];
      if network.transport.construct.Throws? {
        return Failure(network.transport.construct.exception);
      }
      var c := new GrpcConnection(host, network);
      r := Success(c);
    }

    method SetPollingRequestTimeout(milliseconds: int)
      modifies this, network
      ensures pollingRequestTimeout == milliseconds
      ensures network.trace == old(network.trace) + [SetTimeout(PollingRequestTimeout, milliseconds)]
      ensures connectTimeoutTime == old(connectTimeoutTime) && authenticateMessageTimeout == old(authenticateMessageTimeout)
      ensures authenticated == old(authenticated) && subscribed == old(subscribed) && disposed == old(disposed)
    {
      pollingRequestTimeout := milliseconds;
      network.trace := network.trace + [SetTimeout(PollingRequestTimeout, milliseconds)];
    }

    method SetConnectTimeoutTime(milliseconds: int)
      modifies this, network
      ensures connectTimeoutTime == milliseconds
      ensures network.trace == old(network.trace) + [SetTimeout(ConnectTimeoutTime, milliseconds)]
      ensures pollingRequestTimeout == old(pollingRequestTimeout) && authenticateMessageTimeout == old(authenticateMessageTimeout)
      ensures authenticated == old(authenticated) && subscribed == old(subscribed) && disposed == old(disposed)
    {
      connectTimeoutTime := milliseconds;
      network.trace := network.trace + [SetTimeout(ConnectTimeoutTime, milliseconds)];
    }

    method SetAuthenticateMessageTimeout(milliseconds: int)
      modifies this, network
      ensures authenticateMessageTimeout == milliseconds
      ensures network.trace == old(network.trace) + [SetTimeout(AuthenticateMessageTimeout, milliseconds)]
      ensures pollingRequestTimeout == old(pollingRequestTimeout) && connectTimeoutTime == old(connectTimeoutTime)
      ensures authenticated == old(authenticated) && subscribed == old(subscribed) && disposed == old(disposed)
    {
      authenticateMessageTimeout := milliseconds;
      network.trace := network.trace + [SetTimeout(AuthenticateMessageTimeout, milliseconds)];
    }

    method Authenticate(username: string, password: string) returns (outcome: Step)
      modifies this, network
      ensures outcome == network.transport.authenticate
      ensures network.trace == old(network.trace) + [Event.Authenticate(username, password)]
      ensures authenticated == (old(authenticated) || outcome.Completes?)
      ensures pollingRequestTimeout == old(pollingRequestTimeout) && connectTimeoutTime == old(connectTimeoutTime)
      ensures authenticateMessageTimeout == old(authenticateMessageTimeout)
      ensures subscribed == old(subscribed) && disposed == old(disposed)
    {
      outcome := network.transport.authenticate;
      network.trace := network.trace + [Event.Authenticate(username, password)];
      authenticated := authenticated || outcome.Completes?;
    }

    method Subscribe(filter: SubscriptionFilter) returns (outcome: Step)
      modifies this, network
      ensures outcome == network.transport.subscribe
      ensures network.trace == old(network.trace) + [Event.Subscribe(filter)]
      ensures subscribed == (old(subscribed) || outcome.Completes?)
      ensures pollingRequestTimeout == old(pollingRequestTimeout) && connectTimeoutTime == old(connectTimeoutTime)
      ensures authenticateMessageTimeout == old(authenticateMessageTimeout)
      ensures authenticated == old(authenticated) && disposed == old(disposed)
    {
      outcome := network.transport.subscribe;
      network.trace := network.trace + [Event.Subscribe(filter)];
      subscribed := subscribed || outcome.Completes?;
    }

    /** SendAsyncOverConnection: the replies to `messages`, or what it throws. */
    method SendAsyncOverConnection(messages: seq<DmsMessage>, timeoutMilliseconds: int)
      returns (r: Result<seq<DmsMessage>, Exception>)
      modifies network
      ensures r == network.transport.send
      ensures network.trace == old(network.trace) + [SendAsync(messages, timeoutMilliseconds)]
    {
      r := network.transport.send;
      network.trace := network.trace + [SendAsync(messages, timeoutMilliseconds)];
    }

    method Dispose()
      modifies this, network
      ensures disposed
      ensures network.trace == old(network.trace) + [Event.Dispose]
      ensures pollingRequestTimeout == old(pollingRequestTimeout) && connectTimeoutTime == old(connectTimeoutTime)
      ensures authenticateMessageTimeout == old(authenticateMessageTimeout)
      ensures authenticated == old(authenticated) && subscribed == old(subscribed)
    {
      disposed := true;
      network.trace := network.trace + [Event.Dispose];
    }
  }
}
