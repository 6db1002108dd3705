/**
 * The reconnectable DBAL connection factory: it wraps a queue connection
 * factory, finds the raw connection inside it (directly, or by searching the
 * factory's declared properties for a known name), closes and reopens that
 * connection before every context it hands out, and classifies a context's
 * connection as live or disconnected.
 */
module DbalReconnectable {
  import opened Wrappers
  import opened DbalCollaborators

  /** The property names under which a factory may keep its raw connection, tried in this order. */
  const ConnectionProperties: seq<string> := ["connection", "_conn"]

  /** The exceptions the factory raises or lets through. */
  datatype DbalError =
    | NoEstablishConnectionMethod(className: string)  // the factory class declares no establishConnection
    | EstablishConnectionFailed(className: string)    // the factory's establishConnection threw
    | InvalidArgument(message: string)                // no declared property carries an allowed name
    | NotAConnection(className: string)               // the matched property holds no connection
    | ConnectFailed                                   // the database refused the new link

  /** The message of the exception raised when no property name is allowed. */
  function NotFoundMessage(className: string): (m: string)
    ensures |m| > |className| && m[|m| - |className|..] == className
  {
    "Did not found connection property in " + className
  }

  /** The decimal digit character for `d`. */
  function DigitChar(d: nat): (c: char)
    requires d < 10
    ensures '0' <= c <= '9'
  {
    (48 + d) as char
  }

  /** The decimal notation of `n`, as string concatenation renders an integer. */
  function Decimal(n: nat): (s: string)
    ensures 1 <= |s| && forall i :: 0 <= i < |s| ==> '0' <= s[i] <= '9'
  {
    if n < 10 then [DigitChar(n)] else Decimal(n / 10) + [DigitChar(n % 10)]
  }

  /** The number a string of decimal digits spells, most significant digit first. */
  function DigitsValue(s: string): int
  {
    if s == [] then 0 else 10 * DigitsValue(s[..|s| - 1]) + (s[|s| - 1] as int - 48)
  }

  /** `Decimal(n)` spells `n`, with no leading zero. */
  lemma {:induction false} DecimalSpells(n: nat)
    ensures DigitsValue(Decimal(n)) == n
    ensures n >= 10 ==> Decimal(n)[0] != '0'
  {
    if n >= 10 {
      var s := Decimal(n);
      assert s[..|s| - 1] == Decimal(n / 10);
      DecimalSpells(n / 10);
      assert s[0] == Decimal(n / 10)[0];
    }
  }

  /** Distinct numbers have distinct decimal notations. */
  lemma {:induction false} DecimalInjective(m: nat, n: nat)
    requires Decimal(m) == Decimal(n)
    ensures m == n
  {
    if m < 10 && n < 10 {
      assert Decimal(m)[0] == DigitChar(m) && Decimal(n)[0] == DigitChar(n);
    } else if 10 <= m && 10 <= n {
      var s := Decimal(m);
      assert s == Decimal(m / 10) + [DigitChar(m % 10)];
      assert s == Decimal(n / 10) + [DigitChar(n % 10)];
      assert DigitChar(m % 10) == s[|s| - 1] == DigitChar(n % 10);
      assert Decimal(m / 10) == s[..|s| - 1] == Decimal(n / 10);
      DecimalInjective(m / 10, n / 10);
    }
  }

  /**
   * The index of the first declared property whose name is in `allowList`:
   * properties are scanned in declaration order, so an earlier property wins
   * whatever the order of `allowList`.
   */
  function FirstAllowed(props: seq<Property>, allowList: seq<string>): (r: Option<nat>)
    ensures r.Some? ==> r.value < |props| && props[r.value].name in allowList
    ensures r.Some? ==> forall j :: 0 <= j < r.value ==> props[j].name !in allowList
    ensures r.None? <==> forall j :: 0 <= j < |props| ==> props[j].name !in allowList
  {
    if props == [] then None
    else if props[0].name in allowList then Some(0)
    else match FirstAllowed(props[1..], allowList)
      case None => None
      case Some(i) => Some(i + 1)
  }

  /** Only the set of allowed names matters to the search, not their order. */
  lemma {:induction false} AllowListOrderIrrelevant(props: seq<Property>, a: seq<string>, b: seq<string>)
    requires forall x :: x in a <==> x in b
    ensures FirstAllowed(props, a) == FirstAllowed(props, b)
  {
    if props != [] && props[0].name !in a {
      AllowListOrderIrrelevant(props[1..], a, b);
    }
  }

  /**
   * What `getWrappedConnection` yields for factory `f`: the factory's own
   * connection for the two direct classes; otherwise, once the properties are
   * established, the value of the first declared property with an allowed name.
   */
  ghost function Wrapped(f: ConnectionFactory): (r: Result<Connection, DbalError>)
    ensures r.Success? ==> r.value in f.Connections()
  {
    match f.shape
    case ManagerRegistry => Success(f.connection)
    case AlreadyConnected => Success(f.connection)
    case Reflective(declared) =>
      if !declared then Failure(NoEstablishConnectionMethod(f.className))
      else if f.establishFails then Failure(EstablishConnectionFailed(f.className))
      else match FirstAllowed(f.establishedProperties, ConnectionProperties)
        case None => Failure(InvalidArgument(NotFoundMessage(f.className)))
        case Some(i) =>
          match f.establishedProperties[i].value
          case NotAConnectionValue => Failure(NotAConnection(f.className))
          case Conn(c) => Success(c)
  }

  /**
   * What looking for the raw connection does to factory `f`: a non-direct
   * factory has `establishConnection` invoked exactly once, which fills its
   * properties unless it throws; a direct factory is left as it was.
   */
  twostate predicate SearchEffect(f: ConnectionFactory)
    reads f
  {
    && (f.shape == Reflective(true) ==>
          && f.establishCalls == old(f.establishCalls) + 1
          && f.properties == if f.establishFails then old(f.properties) else f.establishedProperties)
    && (f.shape != Reflective(true) ==>
          f.properties == old(f.properties) && f.establishCalls == old(f.establishCalls))
  }

  /** A direct factory yields its own connection. */
  lemma DirectFactoryYieldsOwnConnection(f: ConnectionFactory)
    requires f.shape.ManagerRegistry? || f.shape.AlreadyConnected?
    ensures Wrapped(f) == Success(f.connection)
  {
  }

  /** Another factory yields the value of its first established property with an allowed name. */
  lemma ReflectiveFactoryYieldsFirstDeclaredMatch(f: ConnectionFactory, i: nat)
    requires f.shape == Reflective(true) && !f.establishFails
    requires i < |f.establishedProperties| && f.establishedProperties[i].name in ConnectionProperties
    requires forall j :: 0 <= j < i ==> f.establishedProperties[j].name !in ConnectionProperties
    requires f.establishedProperties[i].value.Conn?
    ensures Wrapped(f) == Success(f.establishedProperties[i].value.connection)
  {
    FirstAllowedAt(f.establishedProperties, i);
  }

  /** Declaration order decides: a `_conn` declared before a `connection` is the one taken. */
  lemma DeclarationOrderBeatsAllowListOrder(c1: Connection, c2: Connection)
    ensures FirstAllowed([Property("_conn", Conn(c1)), Property("connection", Conn(c2))], ConnectionProperties) == Some(0)
  {
  }

  /** A factory with no allowed property name yields an exception naming its class. */
  lemma MissingPropertyNamesFactoryClass(f: ConnectionFactory)
    requires f.shape == Reflective(true) && !f.establishFails
    requires forall j :: 0 <= j < |f.establishedProperties| ==> f.establishedProperties[j].name !in ConnectionProperties
    ensures Wrapped(f).Failure? && Wrapped(f).error.InvalidArgument?
    ensures var m := Wrapped(f).error.message; |m| > |f.className| && m[|m| - |f.className|..] == f.className
  {
  }

  /**
   * `getWrappedConnection`: asks a direct factory for its connection; for any
   * other factory invokes `establishConnection` first, then scans the declared
   * properties (outer loop) against the allowed names (inner loop).
   */
  method GetWrappedConnection(f: ConnectionFactory) returns (r: Result<Connection, DbalError>)
    modifies f`properties, f`establishCalls
    ensures r == Wrapped(f)
    ensures SearchEffect(f)
  {
    if f.shape.ManagerRegistry? || f.shape.AlreadyConnected? {
      var c := f.GetConnection();
      return Success(c);
    }
    if !f.shape.declaresEstablishConnection {
      return Failure(NoEstablishConnectionMethod(f.className));
    }
    var established := f.EstablishConnection();
    if !established {
      return Failure(EstablishConnectionFailed(f.className));
    }
    var props := f.properties;
    var i := 0;
    while i < |props|
      invariant 0 <= i <= |props|
      invariant forall j :: 0 <= j < i ==> props[j].name !in ConnectionProperties
    {
      var k := 0;
      while k < |ConnectionProperties|
        invariant 0 <= k <= |ConnectionProperties|
        invariant forall m :: 0 <= m < k ==> props[i].name != ConnectionProperties[m]
      {
        if props[i].name == ConnectionProperties[k] {
          FirstAllowedAt(props, i);
          match props[i].value {
            case NotAConnectionValue => return Failure(NotAConnection(f.className));
            case Conn(c) => return Success(c);
          }
        }
        k := k + 1;
      }
      i := i + 1;
    }
    return Failure(InvalidArgument(NotFoundMessage(f.className)));
  }

  /** The search result is index `i` when `i` is the first property with an allowed name. */
  lemma FirstAllowedAt(props: seq<Property>, i: nat)
    requires i < |props| && props[i].name in ConnectionProperties
    requires forall j :: 0 <= j < i ==> props[j].name !in ConnectionProperties
    ensures FirstAllowed(props, ConnectionProperties) == Some(i)
  {
    var r := FirstAllowed(props, ConnectionProperties);
    assert r.Some?;
    assert !(r.value < i) && !(i < r.value);
  }

  /** `isDisconnected` on a context's connection: the flag, then (if available) a ping on a link that claims to be open. */
  predicate LooksDisconnected(connected: bool, answers: bool, pingAvailable: bool)
  {
    !connected || (pingAvailable && !answers)
  }

  /** With ping available, a connection looks disconnected exactly when its link is not open and answering. */
  lemma PingDetectsStaleLinks(connected: bool, answers: bool)
    ensures LooksDisconnected(connected, answers, true) <==> !(connected && answers)
  {
  }

  /** Without ping, only the flag is consulted: an open but dead link looks connected. */
  lemma FlagAloneMissesStaleLinks(answers: bool)
    ensures LooksDisconnected(false, answers, false)
    ensures !LooksDisconnected(true, answers, false)
  {
  }

  /** The reconnectable factory over one wrapped queue connection factory. */
  class ReconnectableConnectionFactory {
    const factory: ConnectionFactory

    constructor (factory: ConnectionFactory)
      ensures this.factory == factory
    {
      this.factory := factory;
    }

    /** `getConnectionInstanceId`: the wrapped factory's class name followed by its object id. */
    function GetConnectionInstanceId(): (id: string)
      ensures |id| > |factory.className| && id[..|factory.className|] == factory.className
      ensures id[|factory.className|..] == Decimal(factory.objectId)
      ensures DigitsValue(id[|factory.className|..]) == factory.objectId
    {
      DecimalSpells(factory.objectId);
      factory.className + Decimal(factory.objectId)
    }

    /**
     * `isDisconnected`: no context means nothing to check; otherwise the
     * connection's flag, and only when the flag says connected and `ping`
     * exists (`pingAvailable`), a ping.
     */
    method IsDisconnected(context: Option<Context>, pingAvailable: bool) returns (b: bool)
      requires context.Some? ==> context.value.connection.Valid()
      modifies if context.Some? then {context.value.connection} else {}
      ensures context.None? ==> !b
      ensures context.Some? ==>
                var c := context.value.connection;
                && b == LooksDisconnected(old(c.connected), old(c.answers), pingAvailable)
                && c.calls == old(c.calls) + (if old(c.connected) && pingAvailable then [PingCall] else [])
                && c.connected == old(c.connected) && c.answers == old(c.answers)
                && c.serverReachable == old(c.serverReachable)
    {
      if context.None? {
        return false;
      }
      var c := context.value.connection;
      var connected := c.IsConnected();
      if !connected {
        return true;
      }
      if !pingAvailable {
        return false;
      }
      var answered := c.Ping();
      b := !answered;
    }

    /** The connections of the wrapped factory satisfy their invariant. */
    ghost predicate ConnectionsValid()
      reads factory.Connections()
    {
      forall c :: c in factory.Connections() ==> c.Valid()
    }

    /**
     * The effect of one `reconnect` on the wrapped factory and its
     * connections: the raw connection is found as `getWrappedConnection`
     * finds it, then closed, then connected; nothing else changes.
     */
    twostate predicate Reconnected()
      reads factory, factory.Connections()
    {
      && SearchEffect(factory)
      && match Wrapped(factory)
         case Failure(_) =>
           forall c :: c in factory.Connections() ==> unchanged(c)
         case Success(w) =>
           && w.calls == old(w.calls) + [CloseCall, ConnectCall]
           && w.serverReachable == old(w.serverReachable)
           && w.connected == w.answers == w.serverReachable
           && forall c :: c in factory.Connections() && c != w ==> unchanged(c)
    }

    /** `getConnection`: the raw connection of the wrapped factory. */
    method GetConnection() returns (r: Result<Connection, DbalError>)
      modifies factory`properties, factory`establishCalls
      ensures r == Wrapped(factory)
      ensures SearchEffect(factory)
    {
      r := GetWrappedConnection(factory);
    }

    /** `reconnect`: close, then connect, the wrapped raw connection. */
    method Reconnect() returns (r: Outcome<DbalError>)
      requires ConnectionsValid()
      modifies factory`properties, factory`establishCalls, factory.Connections()
      ensures Reconnected() && ConnectionsValid()
      ensures Wrapped(factory).Failure? ==> r == Fail(Wrapped(factory).error)
      ensures Wrapped(factory).Success? ==>
                r == if old(Wrapped(factory).value.serverReachable) then Pass else Fail(ConnectFailed)
      ensures factory.contextsCreated == old(factory.contextsCreated)
    {
      var found := GetConnection();
      match found
      case Failure(e) =>
        r := Fail(e);
      case Success(c) =>
        c.Close();
        var ok := c.Connect();
        r := if ok then Pass else Fail(ConnectFailed);
    }

    /** `createContext`: reconnect, then the wrapped factory's own context. */
    method CreateContext() returns (r: Result<Context, DbalError>)
      requires ConnectionsValid()
      modifies factory`properties, factory`establishCalls, factory`contextsCreated, factory.Connections()
      ensures Reconnected() && ConnectionsValid()
      ensures Wrapped(factory).Failure? ==>
                r == Failure(Wrapped(factory).error)
                && factory.contextsCreated == old(factory.contextsCreated)
      ensures Wrapped(factory).Success? && !old(Wrapped(factory).value.serverReachable) ==>
                r == Failure(ConnectFailed)
                && factory.contextsCreated == old(factory.contextsCreated)
      ensures Wrapped(factory).Success? && old(Wrapped(factory).value.serverReachable) ==>
                r == Success(Context(factory.connection, old(factory.contextsCreated)))
                && factory.contextsCreated == old(factory.contextsCreated) + 1
    {
      var reconnected := Reconnect();
      if reconnected.Fail? {
        return Failure(reconnected.error);
      }
      var ctx := factory.CreateContext();
      r := Success(ctx);
    }
  }

  /** Two wrappers of factories of one class share an instance id exactly when they wrap the same object id. */
  lemma {:induction false} InstanceIdIdentifiesInstanceWithinClass(a: ReconnectableConnectionFactory, b: ReconnectableConnectionFactory)
    requires a.factory.className == b.factory.className
    ensures a.GetConnectionInstanceId() == b.GetConnectionInstanceId() <==> a.factory.objectId == b.factory.objectId
  {
    if a.GetConnectionInstanceId() == b.GetConnectionInstanceId() {
      var n := |a.factory.className|;
      var id := a.GetConnectionInstanceId();
      assert Decimal(a.factory.objectId) == id[n..] == Decimal(b.factory.objectId);
      DecimalInjective(a.factory.objectId, b.factory.objectId);
    }
  }

  /**
   * Nothing separates the class name from the object id, so factories of two
   * classes whose names end in digits can share an instance id.
   */
  lemma InstanceIdAmbiguousAcrossClasses(a: ReconnectableConnectionFactory, b: ReconnectableConnectionFactory)
    requires a.factory.className == "Queue1" && a.factory.objectId == 23
    requires b.factory.className == "Queue12" && b.factory.objectId == 3
    ensures a.factory.className != b.factory.className
    ensures a.GetConnectionInstanceId() == b.GetConnectionInstanceId()
  {
    assert Decimal(2) == "2" && Decimal(3) == "3";
    assert Decimal(23) == "23";
  }

  /**
   * A connection that was closed is reported disconnected; once
   * `createContext` has run against a reachable database, the context it
   * returns is reported connected, with or without ping.
   */
  method ClosedConnectionIsLiveAfterCreateContext(w: ReconnectableConnectionFactory, pingAvailable: bool)
    returns (before: bool, r: Result<Context, DbalError>, after: bool)
    requires w.ConnectionsValid()
    requires Wrapped(w.factory) == Success(w.factory.connection)
    requires !w.factory.connection.connected && w.factory.connection.serverReachable
    modifies w.factory`properties, w.factory`establishCalls, w.factory`contextsCreated, w.factory.Connections()
    ensures before
    ensures r.Success? && r.value.connection == w.factory.connection
    ensures !after
  {
    var conn := w.factory.connection;
    before := w.IsDisconnected(Some(Context(conn, w.factory.contextsCreated)), pingAvailable);
    r := w.CreateContext();
    after := w.IsDisconnected(Some(r.value), pingAvailable);
  }
}
