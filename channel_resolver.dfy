/**
 * The channel resolver over a service container: an already resolved channel
 * passes straight through; a channel name is looked up in the container under
 * the channel reference built from it, and membership queries use the same
 * reference.
 */
module ChannelResolution {
  import opened Wrappers

  /**
   * The ids the container is keyed by. A channel's id is the channel
   * reference built from its name; other services have ids of their own.
   * Distinct names give distinct references.
   */
  datatype ContainerId = ChannelReference(channelName: string) | ServiceId(serviceId: string)

  /** The argument of `resolve`: a channel name, or a channel resolved already. */
  datatype ChannelArgument<C> = Named(name: string) | Resolved(channel: C)

  /** The container's "not found" exception, with the id it was asked for. */
  datatype ResolveError = ChannelNotFound(id: ContainerId)

  /** The resolver; its only state is the container it was built with. */
  datatype ChannelResolverWithContainer<C> = ChannelResolverWithContainer(container: map<ContainerId, C>)
  {
    /** `resolve`: pass a channel through, or fetch the channel registered under the name's reference. */
    function Resolve(argument: ChannelArgument<C>): Result<C, ResolveError>
    {
      match argument
      case Resolved(channel) => Success(channel)
      case Named(name) =>
        var id := ChannelReference(name);
        if id in container then Success(container[id]) else Failure(ChannelNotFound(id))
    }

    /** `hasChannelWithName`: whether a channel is registered under the name's reference. */
    function HasChannelWithName(name: string): bool
    {
      ChannelReference(name) in container
    }
  }

  /**
   * A name is known to the resolver exactly when resolving it succeeds; then
   * it yields the channel registered under the name's reference, and
   * otherwise the container's not-found error for that reference.
   */
  lemma HasChannelIffResolvable<C>(resolver: ChannelResolverWithContainer<C>, name: string)
    ensures resolver.HasChannelWithName(name) <==> ChannelReference(name) in resolver.container
    ensures resolver.HasChannelWithName(name) <==> resolver.Resolve(Named(name)).Success?
    ensures resolver.HasChannelWithName(name) ==>
              resolver.Resolve(Named(name)).value == resolver.container[ChannelReference(name)]
    ensures !resolver.HasChannelWithName(name) ==>
              resolver.Resolve(Named(name)) == Failure(ChannelNotFound(ChannelReference(name)))
  {
  }

  /** Resolving a channel that is resolved already does not depend on the container. */
  lemma ResolvedChannelIgnoresContainer<C>(r1: ChannelResolverWithContainer<C>, r2: ChannelResolverWithContainer<C>, channel: C)
    ensures r1.Resolve(Resolved(channel)) == r2.Resolve(Resolved(channel)) == Success(channel)
  {
  }

  /**
   * Registering a channel under one name makes that name resolve to it and
   * leaves every other name's resolution and membership as it was.
   */
  lemma RegistrationAffectsOnlyItsName<C>(resolver: ChannelResolverWithContainer<C>, registered: string, channel: C, name: string)
    ensures var after := ChannelResolverWithContainer(resolver.container[ChannelReference(registered) := channel]);
            && after.Resolve(Named(registered)) == Success(channel)
            && after.HasChannelWithName(registered)
            && (name != registered ==>
                  after.Resolve(Named(name)) == resolver.Resolve(Named(name))
                  && after.HasChannelWithName(name) == resolver.HasChannelWithName(name))
  {
  }
}
