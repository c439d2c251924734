/**
 * The route-policy naming strategy of camel-micrometer: given a route, it
 * derives the meter names and the tag sets under which the route-policy
 * service records that route's counters and timers.
 *
 * The interface's one abstract capability, `getName`, is a field of the
 * `NamingStrategy` datatype; its default methods are member functions that,
 * as in the interface, do not depend on the implementation.
 */
module RoutePolicyNaming {
  import opened Wrappers
  import opened MicrometerTags

  /**
   * The constants of `MicrometerConstants` used here: four tag keys and six
   * default meter names. Their literal values are not part of this model, so
   * they are parameters of every operation that reads them.
   */
  datatype MicrometerConstants = MicrometerConstants(
    camelContextTag: string,
    serviceName: string,
    routeIdTag: string,
    routeDescriptionTag: string,
    routePolicyMeterName: string,
    exchangesSucceededMeterName: string,
    exchangesFailedMeterName: string,
    exchangesTotalMeterName: string,
    failuresHandledMeterName: string,
    externalRedeliveriesMeterName: string)
  {
    /** The four tag keys are pairwise different. */
    predicate DistinctTagKeys()
    {
      && camelContextTag != serviceName
      && camelContextTag != routeIdTag
      && camelContextTag != routeDescriptionTag
      && serviceName != routeIdTag
      && serviceName != routeDescriptionTag
      && routeIdTag != routeDescriptionTag
    }
  }

  /** `MicrometerRoutePolicyService.class.getSimpleName()`: the service marker. */
  const ServiceMarker: string := "MicrometerRoutePolicyService"

  datatype CamelContext = CamelContext(name: string)

  /**
   * A route: its id, its description (Java's nullable `getRouteDescription()`)
   * and its owning context (nullable too, though every operation that reads
   * it demands it be present).
   */
  datatype Route = Route(id: string, description: Option<string>, context: Option<CamelContext>)

  /** The route-policy meter filter `ROUTE_POLICIES`. */
  predicate RoutePolicies(c: MicrometerConstants, id: MeterId)
  {
    id.GetTag(c.serviceName) == Some(ServiceMarker)
  }

  datatype NamingStrategy = NamingStrategy(nameOf: Route -> string)
  {
    /** `getName(route)`: the one capability every strategy supplies. */
    function GetName(route: Route): (name: string)
    {
      nameOf(route)
    }

    function GetExchangesSucceededName(c: MicrometerConstants, route: Route): (name: string)
    {
      c.exchangesSucceededMeterName
    }

    function GetExchangesFailedName(c: MicrometerConstants, route: Route): (name: string)
    {
      c.exchangesFailedMeterName
    }

    function GetExchangesTotalName(c: MicrometerConstants, route: Route): (name: string)
    {
      c.exchangesTotalMeterName
    }

    function GetFailuresHandledName(c: MicrometerConstants, route: Route): (name: string)
    {
      c.failuresHandledMeterName
    }

    function GetExternalRedeliveriesName(c: MicrometerConstants, route: Route): (name: string)
    {
      c.externalRedeliveriesMeterName
    }

    /**
     * `getTags(route)`: context, service marker and route id, and the route's
     * description only when it has one. Whatever the key constants are, the
     * key set is exactly the keys emitted, and a present description is the
     * value of the description key (it is the last tag emitted).
     */
    function GetTags(c: MicrometerConstants, route: Route): (tags: map<string, string>)
      requires route.context.Some?
      ensures tags.Keys == {c.camelContextTag, c.serviceName, c.routeIdTag}
                           + (if route.description.Some? then {c.routeDescriptionTag} else {})
      ensures route.description.Some? ==> tags[c.routeDescriptionTag] == route.description.value
    {
      var ctx := Tag(c.camelContextTag, route.context.value.name);
      var service := Tag(c.serviceName, ServiceMarker);
      var routeId := Tag(c.routeIdTag, route.id);
      TagsOfThree(ctx, service, routeId);
      if route.description.Some? then
        var description := Tag(c.routeDescriptionTag, route.description.value);
        TagsOfFour(ctx, service, routeId, description);
        TagsOf([ctx, service, routeId, description])
      else
        TagsOf([ctx, service, routeId])
    }

    /**
     * `getExchangeStatusTags(route)`: context, service marker and route id,
     * never the description. Whatever the key constants are, the key set is
     * exactly these three keys and the route id key holds the route's id.
     */
    function GetExchangeStatusTags(c: MicrometerConstants, route: Route): (tags: map<string, string>)
      requires route.context.Some?
      ensures tags.Keys == {c.camelContextTag, c.serviceName, c.routeIdTag}
      ensures tags[c.routeIdTag] == route.id
    {
      var ctx := Tag(c.camelContextTag, route.context.value.name);
      var service := Tag(c.serviceName, ServiceMarker);
      var routeId := Tag(c.routeIdTag, route.id);
      TagsOfThree(ctx, service, routeId);
      TagsOf([ctx, service, routeId])
    }
  }

  /** `DEFAULT`: the strategy whose name is the default route-policy meter name. */
  function Default(c: MicrometerConstants): (s: NamingStrategy)
  {
    NamingStrategy(route => c.routePolicyMeterName)
  }

  /** The route's three base entries, applied in the order they are emitted. */
  function BaseEntries(c: MicrometerConstants, r: Route): (entries: map<string, string>)
    requires r.context.Some?
  {
    map[c.camelContextTag := r.context.value.name][c.serviceName := ServiceMarker][c.routeIdTag := r.id]
  }

  /** Both tag sets written out as map updates. */
  lemma TagsAsEntries(s: NamingStrategy, c: MicrometerConstants, r: Route)
    requires r.context.Some?
    ensures s.GetExchangeStatusTags(c, r) == BaseEntries(c, r)
    ensures s.GetTags(c, r) == if r.description.Some?
                               then BaseEntries(c, r)[c.routeDescriptionTag := r.description.value]
                               else BaseEntries(c, r)
  {
    var ctx := Tag(c.camelContextTag, r.context.value.name);
    var service := Tag(c.serviceName, ServiceMarker);
    var routeId := Tag(c.routeIdTag, r.id);
    TagsOfThree(ctx, service, routeId);
    if r.description.Some? {
      TagsOfFour(ctx, service, routeId, Tag(c.routeDescriptionTag, r.description.value));
    }
  }

  /** The default strategy names every route's policy meter alike. */
  lemma DefaultNameIgnoresRoute(c: MicrometerConstants, r1: Route, r2: Route)
    ensures Default(c).GetName(r1) == Default(c).GetName(r2) == c.routePolicyMeterName
  {
  }

  /** The five exchange-status meter names do not depend on the route. */
  lemma StatusNamesIgnoreRoute(s: NamingStrategy, c: MicrometerConstants, r1: Route, r2: Route)
    ensures s.GetExchangesSucceededName(c, r1) == s.GetExchangesSucceededName(c, r2) == c.exchangesSucceededMeterName
    ensures s.GetExchangesFailedName(c, r1) == s.GetExchangesFailedName(c, r2) == c.exchangesFailedMeterName
    ensures s.GetExchangesTotalName(c, r1) == s.GetExchangesTotalName(c, r2) == c.exchangesTotalMeterName
    ensures s.GetFailuresHandledName(c, r1) == s.GetFailuresHandledName(c, r2) == c.failuresHandledMeterName
    ensures s.GetExternalRedeliveriesName(c, r1) == s.GetExternalRedeliveriesName(c, r2) == c.externalRedeliveriesMeterName
  {
  }

  /** The context, service and route-id keys always carry the route's own values. */
  lemma GetTagsBaseEntries(s: NamingStrategy, c: MicrometerConstants, r: Route)
    requires r.context.Some? && c.DistinctTagKeys()
    ensures s.GetTags(c, r)[c.camelContextTag] == r.context.value.name
    ensures s.GetTags(c, r)[c.serviceName] == ServiceMarker
    ensures s.GetTags(c, r)[c.routeIdTag] == r.id
  {
    TagsAsEntries(s, c, r);
  }

  /**
   * The description key is present exactly when the route has a description,
   * and then holds that description; an absent description is left out, not
   * emitted with an empty value.
   */
  lemma GetTagsDescription(s: NamingStrategy, c: MicrometerConstants, r: Route)
    requires r.context.Some? && c.DistinctTagKeys()
    ensures c.routeDescriptionTag in s.GetTags(c, r) <==> r.description.Some?
    ensures r.description.Some? ==> s.GetTags(c, r)[c.routeDescriptionTag] == r.description.value
  {
    TagsAsEntries(s, c, r);
  }

  /** Four tags with a description, three without. */
  lemma GetTagsSize(s: NamingStrategy, c: MicrometerConstants, r: Route)
    requires r.context.Some? && c.DistinctTagKeys()
    ensures |s.GetTags(c, r)| == if r.description.Some? then 4 else 3
  {
    TagsAsEntries(s, c, r);
  }

  /** Exactly the three base tags, with the route's values, whatever the description. */
  lemma ExchangeStatusTagsEntries(s: NamingStrategy, c: MicrometerConstants, r: Route)
    requires r.context.Some? && c.DistinctTagKeys()
    ensures |s.GetExchangeStatusTags(c, r)| == 3
    ensures c.routeDescriptionTag !in s.GetExchangeStatusTags(c, r)
    ensures s.GetExchangeStatusTags(c, r)[c.camelContextTag] == r.context.value.name
    ensures s.GetExchangeStatusTags(c, r)[c.serviceName] == ServiceMarker
    ensures s.GetExchangeStatusTags(c, r)[c.routeIdTag] == r.id
  {
    TagsAsEntries(s, c, r);
  }

  /** Without a description, both tag sets coincide. */
  lemma GetTagsWithoutDescription(s: NamingStrategy, c: MicrometerConstants, r: Route)
    requires r.context.Some? && r.description.None?
    ensures s.GetTags(c, r) == s.GetExchangeStatusTags(c, r)
  {
    TagsAsEntries(s, c, r);
  }

  /** With a description, the tag set is the exchange-status set plus one new entry. */
  lemma GetTagsWithDescription(s: NamingStrategy, c: MicrometerConstants, r: Route)
    requires r.context.Some? && r.description.Some?
    ensures s.GetTags(c, r) == s.GetExchangeStatusTags(c, r)[c.routeDescriptionTag := r.description.value]
    ensures c.DistinctTagKeys() ==> c.routeDescriptionTag !in s.GetExchangeStatusTags(c, r)
  {
    TagsAsEntries(s, c, r);
  }

  /** `ROUTE_POLICIES` holds exactly when the service tag is present and is the marker. */
  lemma RoutePoliciesIff(c: MicrometerConstants, id: MeterId)
    ensures RoutePolicies(c, id) <==> c.serviceName in id.tags && id.tags[c.serviceName] == ServiceMarker
  {
  }

  /** Every meter tagged by the strategy passes the route-policy filter. */
  lemma RoutePoliciesSelectsOwnMeters(s: NamingStrategy, c: MicrometerConstants, r: Route, name: string)
    requires r.context.Some? && c.DistinctTagKeys()
    ensures RoutePolicies(c, MeterId(name, s.GetTags(c, r)))
    ensures RoutePolicies(c, MeterId(name, s.GetExchangeStatusTags(c, r)))
  {
    TagsAsEntries(s, c, r);
  }

  /**
   * Two routes get the same tag set exactly when they agree on context name,
   * id and description: the tags tell the routes' meters apart.
   */
  lemma GetTagsIdentifyRoute(s: NamingStrategy, c: MicrometerConstants, r1: Route, r2: Route)
    requires r1.context.Some? && r2.context.Some? && c.DistinctTagKeys()
    ensures s.GetTags(c, r1) == s.GetTags(c, r2)
            <==> r1.context.value.name == r2.context.value.name && r1.id == r2.id && r1.description == r2.description
  {
    var t1, t2 := s.GetTags(c, r1), s.GetTags(c, r2);
    if t1 == t2 {
      GetTagsBaseEntries(s, c, r1);
      GetTagsBaseEntries(s, c, r2);
      GetTagsDescription(s, c, r1);
      GetTagsDescription(s, c, r2);
      assert t1[c.camelContextTag] == t2[c.camelContextTag] && t1[c.routeIdTag] == t2[c.routeIdTag];
      if r1.description.Some? {
        assert t1[c.routeDescriptionTag] == t2[c.routeDescriptionTag];
      }
    } else {
      TagsAsEntries(s, c, r1);
      TagsAsEntries(s, c, r2);
    }
  }

  /** Exchange-status tag sets agree exactly when context name and id agree. */
  lemma ExchangeStatusTagsIdentifyRoute(s: NamingStrategy, c: MicrometerConstants, r1: Route, r2: Route)
    requires r1.context.Some? && r2.context.Some? && c.DistinctTagKeys()
    ensures s.GetExchangeStatusTags(c, r1) == s.GetExchangeStatusTags(c, r2)
            <==> r1.context.value.name == r2.context.value.name && r1.id == r2.id
  {
    TagsAsEntries(s, c, r1);
    TagsAsEntries(s, c, r2);
  }
}
