/**
 * The objects the reconnectable factory works on, as abstract state: the raw
 * database connection, the queue connection factory it wraps, and the
 * contexts that factory hands out. Their real implementations live in
 * libraries outside this model; only what the factory observes is kept.
 */
module DbalCollaborators {

  /** A call made on a raw connection; `calls` records them in order. */
  datatype ConnectionCall = CloseCall | ConnectCall | PingCall

  /** The raw database connection. */
  class Connection {
    /** What the connection reports through `isConnected()`. */
    var connected: bool
    /** Whether the current link would answer a round trip (a `ping`). */
    var answers: bool
    /** Whether the database would accept a new link; the environment, never changed here. */
    var serverReachable: bool
    /** The close, connect and ping calls made on this connection, oldest first. */
    var calls: seq<ConnectionCall>

    /** A link can only answer while it is open. */
    ghost predicate Valid()
      reads this
    {
      answers ==> connected
    }

    constructor (connected: bool, answers: bool, serverReachable: bool)
      requires answers ==> connected
      ensures Valid()
      ensures this.connected == connected && this.answers == answers
      ensures this.serverReachable == serverReachable && calls == []
    {
      this.connected := connected;
      this.answers := answers;
      this.serverReachable := serverReachable;
      calls := [];
    }

    /** `isConnected()`: the flag only, no round trip. */
    method IsConnected() returns (b: bool)
      ensures b == connected
    {
      b := connected;
    }

    /** `ping()`: a round trip on the current link. */
    method Ping() returns (b: bool)
      requires Valid()
      modifies this`calls
      ensures b == answers && (b ==> connected)
      ensures calls == old(calls) + [PingCall]
    {
      b := answers;
      calls := calls + [PingCall];
    }

    /** `close()`: drops the link. */
    method Close()
      modifies this`connected, this`answers, this`calls
      ensures Valid() && !connected && !answers
      ensures calls == old(calls) + [CloseCall]
    {
      connected, answers := false, false;
      calls := calls + [CloseCall];
    }

    /**
     * `connect()`: opens a link unless one is open already; `ok` is false when
     * the database refuses it, where the driver would throw.
     */
    method Connect() returns (ok: bool)
      requires Valid()
      modifies this`connected, this`answers, this`calls
      ensures Valid()
      ensures ok == (old(connected) || serverReachable)
      ensures connected == ok
      ensures answers == if old(connected) then old(answers) else serverReachable
      ensures calls == old(calls) + [ConnectCall]
    {
      if !connected && serverReachable {
        connected, answers := true, true;
      }
      ok := connected;
      calls := calls + [ConnectCall];
    }
  }

  /** A context handed out by a factory; `serial` tells successive contexts apart. */
  datatype Context = Context(connection: Connection, serial: nat)

  /**
   * The concrete kind of a wrapped factory, as far as the reconnectable
   * factory distinguishes it: the two factory classes that expose their
   * connection through `getConnection()`, and any other class, which may or
   * may not declare an `establishConnection` method.
   */
  datatype Shape = ManagerRegistry | AlreadyConnected | Reflective(declaresEstablishConnection: bool)

  /** The value held by a declared property: a connection, or anything else. */
  datatype PropertyValue = Conn(connection: Connection) | NotAConnectionValue

  /** A declared property of a factory class and its current value. */
  datatype Property = Property(name: string, value: PropertyValue)

  /** The wrapped queue connection factory. */
  class ConnectionFactory {
    /** The value of `get_class` on the factory. */
    const className: string
    /** The value of `spl_object_id` on the factory. */
    const objectId: nat
    const shape: Shape
    /** The connection `getConnection()` returns and the factory builds its contexts on. */
    const connection: Connection
    /** The declared properties, in declaration order, as `establishConnection` leaves them. */
    const establishedProperties: seq<Property>
    /** Whether `establishConnection` throws (for one, because the database refuses the link). */
    const establishFails: bool
    /** The declared properties, in declaration order, with their current values. */
    var properties: seq<Property>
    var establishCalls: nat
    var contextsCreated: nat

    constructor (className: string, objectId: nat, shape: Shape, connection: Connection,
                 properties: seq<Property>, establishedProperties: seq<Property>, establishFails: bool)
      ensures this.className == className && this.objectId == objectId && this.shape == shape
      ensures this.connection == connection && this.establishedProperties == establishedProperties
      ensures this.establishFails == establishFails
      ensures this.properties == properties && establishCalls == 0 && contextsCreated == 0
    {
      this.className := className;
      this.objectId := objectId;
      this.shape := shape;
      this.connection := connection;
      this.properties := properties;
      this.establishedProperties := establishedProperties;
      this.establishFails := establishFails;
      establishCalls, contextsCreated := 0, 0;
    }

    /** Every connection the factory can hand back: its own and those its properties hold once established. */
    ghost function Connections(): set<Connection>
    {
      {connection} + set i | 0 <= i < |establishedProperties| && establishedProperties[i].value.Conn?
                           :: establishedProperties[i].value.connection
    }

    /** `getConnection()`, which only the two direct factory classes declare. */
    method GetConnection() returns (c: Connection)
      requires shape.ManagerRegistry? || shape.AlreadyConnected?
      ensures c == connection
    {
      c := connection;
    }

    /**
     * The private `establishConnection()`: fills the connection-bearing
     * properties, or throws (`ok` is false) and leaves them as they were.
     */
    method EstablishConnection() returns (ok: bool)
      requires shape == Reflective(true)
      modifies this`properties, this`establishCalls
      ensures ok == !establishFails
      ensures properties == if ok then establishedProperties else old(properties)
      ensures establishCalls == old(establishCalls) + 1
    {
      ok := !establishFails;
      if ok {
        properties := establishedProperties;
      }
      establishCalls := establishCalls + 1;
    }

    /** `createContext()`: a new context on the factory's connection. */
    method CreateContext() returns (ctx: Context)
      modifies this`contextsCreated
      ensures ctx == Context(connection, old(contextsCreated))
      ensures contextsCreated == old(contextsCreated) + 1
    {
      ctx := Context(connection, contextsCreated);
      contextsCreated := contextsCreated + 1;
    }
  }
}
