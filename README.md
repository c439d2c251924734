# Route-policy metric naming (camel-micrometer)

A Dafny model of `MicrometerRoutePolicyNamingStrategy`, the strategy that the
Micrometer route policy of Apache Camel uses to name and tag the meters it
records per route. Given a route it yields:

- the generic route-policy meter name (`getName`, the one method every
  strategy supplies; the built-in `DEFAULT` strategy returns one fixed name);
- five exchange-status meter names (succeeded, failed, total, failures
  handled, external redeliveries), each a fixed default constant;
- the tag set of the route-policy meter (`getTags`): context name, service
  marker, route id, and the route description only when the route has one;
- the tag set of the exchange-status meters (`getExchangeStatusTags`):
  context name, service marker and route id, never the description;
- and the filter `ROUTE_POLICIES`, which selects exactly the meters whose
  service tag is the marker `"MicrometerRoutePolicyService"`.

Files:

- `wrappers.dfy` — `Option`, standing in for Java's nullable references.
- `tags.dfy` — module `MicrometerTags`: a `Tag` is a key/value pair, `TagsOf`
  models `Tags.of(k1, v1, ...)` as a finite map from key to value (a later tag
  replaces an earlier one with the same key), and `MeterId` is a meter name
  with its tag set and the `getTag` lookup.
- `naming_strategy.dfy` — module `RoutePolicyNaming`: routes, the constants of
  `MicrometerConstants` as parameters, the strategy and its properties.

The strategy interface is the datatype `NamingStrategy`, whose field `nameOf`
is the abstract `getName`; its default methods are member functions of that
datatype and, as in the interface, do not look at the implementation. The
tag keys and default meter names live in `MicrometerConstants`, which is not
part of this model: they are a `MicrometerConstants` value passed to each
operation, and the properties that need the four tag keys to be different
require `DistinctTagKeys()`. A route's owning context is optional, as the
Java reference may be null, and every operation that reads it requires it
to be present.

`Tags.of` orders and deduplicates tags itself, so a tag set is a finite map.
The six default meter names come from `MicrometerConstants`, whose values are
parameters here, so nothing is claimed about their being distinct.

## Model

| member | source | states |
|---|---|---|
| `MicrometerTags.TagsOf` | components/camel-micrometer/src/main/java/org/apache/camel/component/micrometer/routepolicy/MicrometerRoutePolicyNamingStrategy.java:76-79 | `Tags.of` keeps exactly the keys it is given, one entry per distinct key; with distinct keys it has one entry per tag |
| `MicrometerTags.TagsOfLastWins` | components/camel-micrometer/src/main/java/org/apache/camel/component/micrometer/routepolicy/MicrometerRoutePolicyNamingStrategy.java:70-74 | each key of a `Tags.of` list maps to the value of its last occurrence |
| `MicrometerTags.MeterId.GetTag` | components/camel-micrometer/src/main/java/org/apache/camel/component/micrometer/routepolicy/MicrometerRoutePolicyNamingStrategy.java:42 | `id.getTag(key)` is present exactly when the key is tagged, and then is its value |
| `RoutePolicyNaming.RoutePoliciesIff` | components/camel-micrometer/src/main/java/org/apache/camel/component/micrometer/routepolicy/MicrometerRoutePolicyNamingStrategy.java:41-42 | `ROUTE_POLICIES` holds if and only if the service tag is present and equals `"MicrometerRoutePolicyService"`; an absent or different service tag is rejected |
| `RoutePolicyNaming.DefaultNameIgnoresRoute` | components/camel-micrometer/src/main/java/org/apache/camel/component/micrometer/routepolicy/MicrometerRoutePolicyNamingStrategy.java:44 | `DEFAULT.getName` is the default route-policy meter name for every route |
| `RoutePolicyNaming.StatusNamesIgnoreRoute` | components/camel-micrometer/src/main/java/org/apache/camel/component/micrometer/routepolicy/MicrometerRoutePolicyNamingStrategy.java:48-66 | each of the five exchange-status names is its default constant, the same for every route and every strategy |
| `RoutePolicyNaming.NamingStrategy.GetTags` | components/camel-micrometer/src/main/java/org/apache/camel/component/micrometer/routepolicy/MicrometerRoutePolicyNamingStrategy.java:68-81 | the keys are context, service and route id, plus the description key exactly when a description is present, which it then maps to that description |
| `RoutePolicyNaming.NamingStrategy.GetExchangeStatusTags` | components/camel-micrometer/src/main/java/org/apache/camel/component/micrometer/routepolicy/MicrometerRoutePolicyNamingStrategy.java:83-88 | the keys are exactly context, service and route id, and the route-id key holds the route's id |
| `RoutePolicyNaming.TagsAsEntries` | components/camel-micrometer/src/main/java/org/apache/camel/component/micrometer/routepolicy/MicrometerRoutePolicyNamingStrategy.java:68-88 | both tag sets equal the route's base entries applied in emission order, with the description entry added last when present |
| `RoutePolicyNaming.GetTagsBaseEntries` | components/camel-micrometer/src/main/java/org/apache/camel/component/micrometer/routepolicy/MicrometerRoutePolicyNamingStrategy.java:70-79 | with distinct keys, `getTags` maps the context key to the context name, the service key to the marker and the route-id key to the id |
| `RoutePolicyNaming.GetTagsDescription` | components/camel-micrometer/src/main/java/org/apache/camel/component/micrometer/routepolicy/MicrometerRoutePolicyNamingStrategy.java:69-79 | with distinct keys, the description key is in `getTags` if and only if the route has a description, and then maps to it; an absent description is omitted, not emptied |
| `RoutePolicyNaming.GetTagsSize` | components/camel-micrometer/src/main/java/org/apache/camel/component/micrometer/routepolicy/MicrometerRoutePolicyNamingStrategy.java:68-80 | with distinct keys, `getTags` has four entries when a description is present and three otherwise |
| `RoutePolicyNaming.ExchangeStatusTagsEntries` | components/camel-micrometer/src/main/java/org/apache/camel/component/micrometer/routepolicy/MicrometerRoutePolicyNamingStrategy.java:83-88 | with distinct keys, `getExchangeStatusTags` has exactly three entries with the route's values and never the description key |
| `RoutePolicyNaming.GetTagsWithoutDescription` | components/camel-micrometer/src/main/java/org/apache/camel/component/micrometer/routepolicy/MicrometerRoutePolicyNamingStrategy.java:76-88 | without a description, `getTags` equals `getExchangeStatusTags` |
| `RoutePolicyNaming.GetTagsWithDescription` | components/camel-micrometer/src/main/java/org/apache/camel/component/micrometer/routepolicy/MicrometerRoutePolicyNamingStrategy.java:70-88 | with a description, `getTags` is `getExchangeStatusTags` plus the description entry, whose key (for distinct keys) was not already there |
| `RoutePolicyNaming.RoutePoliciesSelectsOwnMeters` | components/camel-micrometer/src/main/java/org/apache/camel/component/micrometer/routepolicy/MicrometerRoutePolicyNamingStrategy.java:41-88 | with distinct keys, every meter id tagged by `getTags` or `getExchangeStatusTags`, whatever its name, passes `ROUTE_POLICIES` |
| `RoutePolicyNaming.GetTagsIdentifyRoute` | components/camel-micrometer/src/main/java/org/apache/camel/component/micrometer/routepolicy/MicrometerRoutePolicyNamingStrategy.java:68-81 | with distinct keys, two routes get equal `getTags` if and only if they agree on context name, id and description |
| `RoutePolicyNaming.ExchangeStatusTagsIdentifyRoute` | components/camel-micrometer/src/main/java/org/apache/camel/component/micrometer/routepolicy/MicrometerRoutePolicyNamingStrategy.java:83-88 | with distinct keys, two routes get equal `getExchangeStatusTags` if and only if they agree on context name and id |

## Left out

- The literal values of the tag keys and default meter names in `MicrometerConstants`: that class is not part of this model, so they are parameters; no claim is made that the six default names differ from each other.
- Micrometer's `Tags` internals (the key sort and `Meter.Id` storage): a tag set is a map, and the model resolves a repeated key in favour of the later tag, which is what Micrometer's key sort followed by keep-last deduplication does. `MicrometerTags.TagsOfLastWins` states that rule, and the contracts of `RoutePolicyNaming.NamingStrategy.GetTags`, `RoutePolicyNaming.TagsAsEntries` and the first ensures of `RoutePolicyNaming.GetTagsWithDescription` rely on it when the tag keys are arbitrary; the lemmas that require `DistinctTagKeys()` do not depend on it.
- Strategies that override the default methods: no implementation in this code does so, so the five status names and both tag functions are the interface defaults.
- `MicrometerRoutePolicyService`, the meter registry and the route-policy event hooks that record meters: registration and metric I/O; only the marker `"MicrometerRoutePolicyService"` (its simple class name) is used.
- A null route, a null `route.getId()` or a null `getCamelContext().getName()` reaching `Tags.of` (source lines 71/73, 77/79 and 85/87): ids and context names are always strings here; the code dereferences the route, so a route is always present, and a missing context is a precondition of the tag functions.
