# Reconnectable DBAL connection factory and container channel resolver

This project models two pieces of control logic of the Ecotone messaging framework.

The first is `DbalReconnectableConnectionFactory`. It wraps a queue connection factory. Before it hands out a context, it finds the raw Doctrine connection inside the wrapped factory and closes and reopens it. It also classifies a context's connection as live or disconnected. It builds an identity token for the wrapped factory from its class name and object id.

The raw connection is found in one of two ways:
- The two factory classes `EcotoneManagerRegistryConnectionFactory` and `AlreadyConnectedDbalConnectionFactory` are asked through `getConnection()`.
- Any other factory has its private `establishConnection` invoked first. Then its declared properties are scanned in declaration order for a name in the allow-list `['connection', '_conn']`.

The second is `ChannelResolverWithContainer`. It passes an already resolved channel through unchanged. It looks a channel name up in a service container under the channel reference built from that name, and it answers membership queries under the same reference.

Files:
- `wrappers.dfy`: `Option`, `Result` and `Outcome`, which stand for the source's exceptions.
- `dbal_collaborators.dfy`: the raw connection, the wrapped factory and its contexts, as abstract state. These are external libraries, so only what the reconnectable factory observes is kept. Every `close`, `connect` and `ping` is recorded in the connection's `calls`, so call order can be stated.
- `dbal_reconnectable.dfy`: the reconnectable factory as a class over its wrapped factory. It includes the nested property × allow-list search, the instance id and the liveness check.
- `channel_resolver.dfy`: the resolver as a value over an immutable `map` container. The source's resolver has no mutable state, so it is a datatype.

Three behaviours of the code are easy to misread:
- `reconnect` does not silently do nothing when no raw connection is found. The search throws, and `reconnect` and `createContext` pass the exception on (`Fail`/`Failure`).
- The allow-list does not set a priority between names. The first matching property in declaration order wins, whatever the order of the allow-list (`DeclarationOrderBeatsAllowListOrder`, `AllowListOrderIrrelevant`).
- A channel name with no entry does not return "not found". The container's `get` throws its not-found exception, modelled as `ChannelNotFound`.

The availability of `ping` (`method_exists(Connection::class, 'ping')`, which depends on the installed Doctrine version) is the parameter `pingAvailable` of `IsDisconnected`.

## Model

| member | source | states |
|---|---|---|
| `DbalReconnectable.NotFoundMessage` | packages/Dbal/src/DbalReconnectableConnectionFactory.php:91 | the exception message ends with the factory's class name |
| `DbalReconnectable.Decimal` | packages/Dbal/src/DbalReconnectableConnectionFactory.php:33 | the integer rendered by concatenation is a non-empty string of decimal digits |
| `DbalReconnectable.DecimalSpells` | packages/Dbal/src/DbalReconnectableConnectionFactory.php:33 | the rendered digits spell the object id in decimal, most significant first, with no leading zero |
| `DbalReconnectable.DecimalInjective` | packages/Dbal/src/DbalReconnectableConnectionFactory.php:33 | distinct object ids render as distinct strings |
| `DbalReconnectable.FirstAllowed` | packages/Dbal/src/DbalReconnectableConnectionFactory.php:80-89 | the search yields the index of a property with an allowed name, and no earlier property has one; it yields nothing exactly when no property name is allowed |
| `DbalReconnectable.AllowListOrderIrrelevant` | packages/Dbal/src/DbalReconnectableConnectionFactory.php:80-89 | the result depends only on the set of allowed names, not their order, because the outer loop runs over the properties |
| `DbalReconnectable.DeclarationOrderBeatsAllowListOrder` | packages/Dbal/src/DbalReconnectableConnectionFactory.php:80-86 | a `_conn` property declared before a `connection` property is the one taken, although `connection` comes first in the allow-list |
| `DbalReconnectable.FirstAllowedAt` | packages/Dbal/src/DbalReconnectableConnectionFactory.php:80-86 | the first property with an allowed name is the one the search picks |
| `DbalReconnectable.Wrapped` | packages/Dbal/src/DbalReconnectableConnectionFactory.php:67-92 | whatever connection is found is the factory's own connection or one held by its established properties |
| `DbalReconnectable.DirectFactoryYieldsOwnConnection` | packages/Dbal/src/DbalReconnectableConnectionFactory.php:69-73 | for the two direct factory classes, the result is the factory's `getConnection()` |
| `DbalReconnectable.ReflectiveFactoryYieldsFirstDeclaredMatch` | packages/Dbal/src/DbalReconnectableConnectionFactory.php:75-89 | for any other factory whose `establishConnection` succeeds, the result is the value of the first declared property, after establishment, whose name is allowed |
| `DbalReconnectable.MissingPropertyNamesFactoryClass` | packages/Dbal/src/DbalReconnectableConnectionFactory.php:91 | when `establishConnection` succeeds but no property name is allowed, the result is an `InvalidArgumentException` whose message names the factory's class |
| `DbalReconnectable.GetWrappedConnection` | packages/Dbal/src/DbalReconnectableConnectionFactory.php:67-93 | the nested loops return exactly `Wrapped(f)`; `establishConnection` runs once, before the scan, for non-direct factories only, and if it throws the exception propagates and no scan happens; a direct factory is left untouched |
| `DbalReconnectable.PingDetectsStaleLinks` | packages/Dbal/src/DbalReconnectableConnectionFactory.php:46 | with ping available, a connection is disconnected iff it is not both flagged connected and answering |
| `DbalReconnectable.FlagAloneMissesStaleLinks` | packages/Dbal/src/DbalReconnectableConnectionFactory.php:46 | without ping, only the flag counts: an open but dead link is reported connected |
| `DbalReconnectable.ReconnectableConnectionFactory.constructor` | packages/Dbal/src/DbalReconnectableConnectionFactory.php:19-22 | the wrapper keeps the factory it is given |
| `DbalReconnectable.ReconnectableConnectionFactory.GetConnectionInstanceId` | packages/Dbal/src/DbalReconnectableConnectionFactory.php:31-34 | the token is the class name followed by the decimal digits that spell the object id; it reads only immutable data, so repeated calls agree and change nothing |
| `DbalReconnectable.InstanceIdIdentifiesInstanceWithinClass` | packages/Dbal/src/DbalReconnectableConnectionFactory.php:31-34 | for factories of one class, the tokens are equal iff the object ids are equal |
| `DbalReconnectable.InstanceIdAmbiguousAcrossClasses` | packages/Dbal/src/DbalReconnectableConnectionFactory.php:33 | factories of the distinct classes `Queue1` (id 23) and `Queue12` (id 3) share a token, because nothing separates name and id |
| `DbalReconnectable.ReconnectableConnectionFactory.IsDisconnected` | packages/Dbal/src/DbalReconnectableConnectionFactory.php:40-47 | no context gives false and touches no connection; otherwise the result is "not connected, or ping available and not answering", and a ping is made only when the flag says connected and ping exists |
| `DbalReconnectable.ReconnectableConnectionFactory.GetConnection` | packages/Dbal/src/DbalReconnectableConnectionFactory.php:59-62 | the wrapper's connection is `getWrappedConnection` of its own factory |
| `DbalReconnectable.ReconnectableConnectionFactory.Reconnect` | packages/Dbal/src/DbalReconnectableConnectionFactory.php:49-57 | the found connection gets exactly `close` then `connect` and ends open and answering iff the database is reachable; a failed search is passed on as is, and a refused link gives `ConnectFailed`; every other connection and the factory's context count are unchanged |
| `DbalReconnectable.ReconnectableConnectionFactory.CreateContext` | packages/Dbal/src/DbalReconnectableConnectionFactory.php:24-29 | reconnect runs first; if the search fails or the database refuses the link, that exception propagates and no context is created; otherwise the result is exactly the wrapped factory's next context |
| `DbalReconnectable.ClosedConnectionIsLiveAfterCreateContext` | packages/Dbal/src/DbalReconnectableConnectionFactory.php:24-47 | a closed connection is reported disconnected, and after `createContext` against a reachable database the returned context is reported connected |
| `DbalCollaborators.Connection.IsConnected` | packages/Dbal/src/DbalReconnectableConnectionFactory.php:46 | the flag is read without a round trip |
| `DbalCollaborators.Connection.Ping` | packages/Dbal/src/DbalReconnectableConnectionFactory.php:46 | a ping reports whether the link answers and is logged |
| `DbalCollaborators.Connection.Close` | packages/Dbal/src/DbalReconnectableConnectionFactory.php:54 | close leaves the connection not connected, and the call is logged |
| `DbalCollaborators.Connection.Connect` | packages/Dbal/src/DbalReconnectableConnectionFactory.php:55 | connect opens a link iff the database is reachable or one is already open, and the call is logged |
| `DbalCollaborators.ConnectionFactory.GetConnection` | packages/Dbal/src/DbalReconnectableConnectionFactory.php:73 | a direct factory hands out its own connection |
| `DbalCollaborators.ConnectionFactory.EstablishConnection` | packages/Dbal/src/DbalReconnectableConnectionFactory.php:76-78 | each call is counted; it fills the declared properties with their established values, or throws and leaves them as they were |
| `DbalCollaborators.ConnectionFactory.CreateContext` | packages/Dbal/src/DbalReconnectableConnectionFactory.php:28 | the wrapped factory returns a new context on its connection |
| `ChannelResolution.HasChannelIffResolvable` | packages/Ecotone/src/Messaging/Config/Container/ChannelResolverWithContainer.php:20-26 | `hasChannelWithName(n)` holds iff the container holds `ChannelReference(n)`, iff `resolve(n)` succeeds; then `resolve(n)` yields the registered channel, and otherwise the not-found error for `ChannelReference(n)` |
| `ChannelResolution.ResolvedChannelIgnoresContainer` | packages/Ecotone/src/Messaging/Config/Container/ChannelResolverWithContainer.php:17-19 | passing a channel through gives the same result whatever the container holds |
| `ChannelResolution.RegistrationAffectsOnlyItsName` | packages/Ecotone/src/Messaging/Config/Container/ChannelResolverWithContainer.php:20 | registering a channel under a name makes that name resolve to it and changes no other name's resolution or membership |

## Left out

- Real Doctrine connection behaviour, PHP reflection and `setAccessible`, and the allocation of `spl_object_id` values are not modelled. A connection is abstract state: a flag, whether its link answers, whether the database is reachable, and a call log. The object id is a given number.
- DbalCollaborators.Connection.Connect: the driver's exception when the database refuses a link is modelled as `ok == false`. `reconnect` turns it into `ConnectFailed`.
- DbalCollaborators.ConnectionFactory.GetConnection: the two direct factories' `getConnection()` is modelled as never throwing. A failure inside it would propagate from `getWrappedConnection` in the source.
- DbalCollaborators.ConnectionFactory.EstablishConnection: its failure is one flag per factory (`establishFails`) with one error, `EstablishConnectionFailed`. The exception the factory actually throws is not distinguished, and a failure is assumed to leave the properties as they were.
- DbalCollaborators.Connection.Ping: a ping on a closed connection does not open a new link, as some Doctrine versions do. `isDisconnected` never pings a closed connection, so this does not affect the model.
- DbalCollaborators.ConnectionFactory.CreateContext: the wrapped factory's own `createContext` code is not part of this model. It is modelled as a new context on the factory's connection. For a factory whose context connection differs from the one the property search finds, the model does not relate the two.
- The `if ($connection)` guard in `reconnect` has no branch of its own. `getWrappedConnection` either returns a connection or throws, so the guard always holds.
- A matched property whose value is not a connection is modelled as the error `NotAConnection`, which stands for PHP's return-type error. A factory class without `establishConnection` is modelled as `NoEstablishConnectionMethod`, which stands for the reflection exception.
- Concurrent use of one shared factory is not modelled. `reconnect` mutates it without locking, and the model is sequential.
- The concrete string format of `ChannelReference` is not modelled. A reference is a constructor of the id type, so distinct names give distinct ids. The source passes the reference object to `get` and its string to `has`. The model assumes the container treats both as the same id. It also assumes that no other service is registered under a string equal to some channel reference's string: other services' ids are a separate constructor.
- Container entries that are not message channels are not modelled. The container maps ids to channels only.
- The declarative write-method compiler, its parameter binding and expression evaluation, the ORM integration tests and the authentication service are not part of this model. Their behaviour is not in the modelled source files.
