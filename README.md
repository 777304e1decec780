# cucumber-kubernetes: a Dafny model of the step interpreter

cucumber-kubernetes lets Cucumber scenarios about a Kubernetes cluster read as
plain English ("namespace is \"default\"", "I get pods", "list size is greater
then 2"). This project models the small interpreter behind those sentences and
proves properties of the model:

- `Dsl`: the enum `Maybe`, with its eleven affirmation phrases and the
  derived `yes`, `no`, `plural` and `optional`. It also holds the enum's name
  lookup (`Enum.valueOf`), which the phrase parser relies on.
- `Configurations`: the `dslNameConverter` bean. Its forward direction
  upper-cases a phrase and turns spaces into underscores. Its backward
  direction lower-cases and turns underscores into spaces.
- `Features`: the `KubernetesFeature` glue class. It contains:
  - the `{maybe}` and `{kubernetesResource}` parameter types;
  - the scenario cache (`put`, `get(key, Class)` and `get(key, loader)`), as
    functions over a `map<string, Value>`;
  - the steps that read and write that cache, as the methods and functions
    of a class `KubernetesFeature`, whose `cache` field the steps reassign;
  - three scenario methods that run steps in sequence on one glue object.
- `Cluster`: the fabric8 client, reduced to data. It has a namespace lookup by
  name that may find nothing, per-kind item lists tagged with a namespace,
  and a master URL.
- `Text`: the `java.lang.String` operations the code calls (`toUpperCase`,
  `toLowerCase`, `replace(char, char)`, `contains`), restricted to ASCII.
- `Wrappers`: `Option`, `Result` and `Outcome`. They stand in for Java's
  nulls, thrown exceptions and failed assertions.

A failing step is an `Outcome.Fail` or a `Result.Failure` carrying a
`StepError`. That error names the exception or assertion that Java raises.

Behaviour worth knowing. Each point that names a member is proved by that
member; the last one is a modelling decision.

- The `{maybe}` pattern accepts "should" and "should not". These convert to
  `SHOULD` and `SHOULD_NOT`, and no constant has either name, so both fail to
  parse (`Features.ParseShouldPhrases`, `Features.StepPhrasesParse`).
- `kubernetesResource` has no case for "pods" or "stateful sets". Both reach
  the default branch, which is the pods accessor
  (`Features.ResourcePhrasesReachingPods`).
- `resources` lists in the cached Namespace's `metadata.namespace`; the
  Namespace's own `metadata.name` is not used
  (`Features.KubernetesFeature.Resources`).
- `listSize` and `resourceWithPathMaybeExist` ignore their `Maybe` arguments
  (`Features.KubernetesFeature.ListSize`,
  `Features.KubernetesFeature.ResourceWithPathMaybeExist`).
- `resourceWithPathMaybeExist` reads the value at the path of every item
  before matching, so one item without that property fails the step even
  when another item matches; the match then stops at the first value that
  contains the expected string, so a null value before it fails the step
  and a null value after it does not (`Features.Matching`).
- `resourceWithPathMaybeExist` stores an empty list on a cache miss. So after
  it fails, a `listSize` check with bound 0 or less passes
  (`Features.MatchBeforeFetch`).
- The cache manager is an application-wide bean
  (src/main/java/dev/hiberbee/configurations/ApplicationConfiguration.java:55-58).
  The code never clears it between scenarios. The model therefore hands
  the glue object an arbitrary cache instead of an empty one.

## Model

| member | source | states |
|---|---|---|
| `Text.UpperChar` | src/main/java/dev/hiberbee/configurations/ApplicationConfiguration.java:45 | the result is never a lower-case letter; a lower-case letter becomes an upper-case one that lower-cases back to it; every other character is unchanged |
| `Text.LowerChar` | src/main/java/dev/hiberbee/configurations/ApplicationConfiguration.java:50 | the result is never an upper-case letter; an upper-case letter becomes a lower-case one that upper-cases back to it; every other character is unchanged |
| `Text.ToUpper` | src/main/java/dev/hiberbee/configurations/ApplicationConfiguration.java:45 | same length as the input, and each character is the upper-cased character at that position |
| `Text.ToLower` | src/main/java/dev/hiberbee/configurations/ApplicationConfiguration.java:50 | same length as the input, and each character is the lower-cased character at that position |
| `Text.Replace` | src/main/java/dev/hiberbee/configurations/ApplicationConfiguration.java:45-50 | same length; each occurrence of `from` becomes `to` and every other character stays in place; if `from != to`, no `from` remains |
| `Text.Contains` | src/main/java/dev/hiberbee/features/KubernetesFeature.java:91-96 | true exactly when some index of `s` starts an occurrence of `t` |
| `Text.ContainsItself` | src/main/java/dev/hiberbee/features/KubernetesFeature.java:96 | every string contains itself |
| `Dsl.Maybe.Name` | src/main/java/dev/hiberbee/dsl/Maybe.java:31-42 | the constant's name: at least two characters, upper-case letters and underscores only, not starting or ending with an underscore |
| `Dsl.Maybe.Predicate` | src/main/java/dev/hiberbee/dsl/Maybe.java:44-53 | the predicate accepts a Boolean exactly when it equals "this constant is IS, ARE, SHOULD_BE, HAS, HAVE or CONTAINS" |
| `Dsl.Maybe.Yes` | src/main/java/dev/hiberbee/dsl/Maybe.java:44-61 | true exactly for IS, ARE, SHOULD_BE, HAS, HAVE and CONTAINS |
| `Dsl.Maybe.No` | src/main/java/dev/hiberbee/dsl/Maybe.java:44-65 | always the negation of `yes()`; true exactly for IS_NOT, HAS_NOT, HAVE_NOT, ARE_NOT and SHOULD_NOT_BE |
| `Dsl.Maybe.Plural` | src/main/java/dev/hiberbee/dsl/Maybe.java:55-57 | a plural constant always affirms, and its name is ARE or HAVE |
| `Dsl.Maybe.Optional` | src/main/java/dev/hiberbee/dsl/Maybe.java:67-69 | always present, holding `yes()` |
| `Dsl.PluralExactly` | src/main/java/dev/hiberbee/dsl/Maybe.java:55-57 | `plural()` holds for ARE and HAVE and for no other constant |
| `Dsl.NegativesDeny` | src/main/java/dev/hiberbee/dsl/Maybe.java:31-65 | the five negative constants have `yes()` false and `no()` true |
| `Dsl.DeniesIffNameSaysNot` | src/main/java/dev/hiberbee/dsl/Maybe.java:31-65 | a constant denies exactly when its name contains NOT |
| `Dsl.ValuesComplete` | src/main/java/dev/hiberbee/dsl/Maybe.java:31-42 | `values()` lists all eleven constants |
| `Dsl.NameInjective` | src/main/java/dev/hiberbee/dsl/Maybe.java:31-42 | two constants with the same name are the same constant |
| `Dsl.FindByName` | src/main/java/dev/hiberbee/features/KubernetesFeature.java:56 | a constant that is found is in the searched list and carries the name; when none is found, no listed constant has the name |
| `Dsl.ValueOf` | src/main/java/dev/hiberbee/features/KubernetesFeature.java:56 | returns `m` exactly when `m`'s name equals the string; otherwise nothing, which is Java's IllegalArgumentException |
| `Configurations.Forward` | src/main/java/dev/hiberbee/configurations/ApplicationConfiguration.java:44-46 | same length as the input; no space and no lower-case letter; every space becomes `_` |
| `Configurations.Backward` | src/main/java/dev/hiberbee/configurations/ApplicationConfiguration.java:49-51 | same length as the input; no `_` and no upper-case letter; every `_` becomes a space |
| `Configurations.ForwardFixesConstantNames` | src/main/java/dev/hiberbee/configurations/ApplicationConfiguration.java:44-46 | a string with no space and no lower-case letter is unchanged by the forward conversion |
| `Configurations.ForwardIdempotent` | src/main/java/dev/hiberbee/configurations/ApplicationConfiguration.java:45 | forward(forward(s)) == forward(s) |
| `Configurations.ForwardIgnoresCase` | src/main/java/dev/hiberbee/configurations/ApplicationConfiguration.java:45 | forward(upper(s)) == forward(s) == forward(lower(s)) |
| `Configurations.BackwardForward` | src/main/java/dev/hiberbee/configurations/ApplicationConfiguration.java:44-51 | a phrase with no `_` and no upper-case letter survives backward(forward(s)) |
| `Configurations.ForwardBackward` | src/main/java/dev/hiberbee/configurations/ApplicationConfiguration.java:44-51 | a constant name with no space and no lower-case letter survives forward(backward(s)) |
| `Cluster.Client.NamespaceWithName` | src/main/java/dev/hiberbee/features/KubernetesFeature.java:103 | the lookup finds a namespace exactly when the cluster has one under that name, and returns that one; in a cluster that files each namespace under its own name, the one found carries the name asked for |
| `Cluster.Client.InAnyNamespace` | src/main/java/dev/hiberbee/features/KubernetesFeature.java:129 | the kind's whole item list, whatever the namespaces; empty for a kind the cluster has no items of |
| `Cluster.Client.InNamespace` | src/main/java/dev/hiberbee/features/KubernetesFeature.java:130 | exactly the items of the kind tagged with the namespace, each as many times as in the list over every namespace (none of another namespace), and never more than that list |
| `Cluster.TaggedWith` | src/main/java/dev/hiberbee/features/KubernetesFeature.java:130 | keeps exactly the items tagged with the namespace, each with its multiplicity in the input, and drops every other item |
| `Cluster.TaggedWithAppend` | src/main/java/dev/hiberbee/features/KubernetesFeature.java:130 | filtering a concatenation gives the filtered parts in the same order, so the listing keeps the cluster's order |
| `Features.ParseMaybe` | src/main/java/dev/hiberbee/features/KubernetesFeature.java:54-59 | a result is the constant whose name is forward(value); a failure names forward(value), and no constant has that name |
| `Features.ParseMaybeIgnoresCase` | src/main/java/dev/hiberbee/features/KubernetesFeature.java:54-59 | upper- or lower-casing the phrase does not change the parse |
| `Features.ParseMaybeOfPhrase` | src/main/java/dev/hiberbee/features/KubernetesFeature.java:54-59 | every constant parses back from its own phrase, the backward conversion of its name |
| `Features.ParseIsPhrases` | src/main/java/dev/hiberbee/features/KubernetesFeature.java:54-59 | "is" parses to IS and "is not" to IS_NOT |
| `Features.ParseHasPhrases` | src/main/java/dev/hiberbee/features/KubernetesFeature.java:54-59 | "has" parses to HAS and "has not" to HAS_NOT |
| `Features.ParseHavePhrases` | src/main/java/dev/hiberbee/features/KubernetesFeature.java:54-59 | "have" parses to HAVE and "have not" to HAVE_NOT |
| `Features.ParseArePhrases` | src/main/java/dev/hiberbee/features/KubernetesFeature.java:54-59 | "are" parses to ARE and "are not" to ARE_NOT |
| `Features.ParseContainsPhrases` | src/main/java/dev/hiberbee/features/KubernetesFeature.java:54-59 | "contains" parses to CONTAINS |
| `Features.ParseShouldPhrases` | src/main/java/dev/hiberbee/features/KubernetesFeature.java:54-59 | "should" and "should not" both fail to parse, naming SHOULD and SHOULD_NOT |
| `Features.StepPhrasesParse` | src/main/java/dev/hiberbee/features/KubernetesFeature.java:54 | of the eleven phrases the pattern accepts, exactly "should" and "should not" fail to parse |
| `Features.KubernetesResource` | src/main/java/dev/hiberbee/features/KubernetesFeature.java:61-75 | a non-pods accessor is chosen only by its own phrase; the pods accessor is chosen exactly when the value is none of the seven dedicated phrases |
| `Features.KubernetesResourceOfPhrase` | src/main/java/dev/hiberbee/features/KubernetesFeature.java:65-74 | every accessor is selected by its own phrase |
| `Features.ResourcePhrasesReachingPods` | src/main/java/dev/hiberbee/features/KubernetesFeature.java:61-75 | of the nine phrases the pattern accepts, exactly "pods" and "stateful sets" resolve to the pods accessor |
| `Features.KubernetesResourceDefaults` | src/main/java/dev/hiberbee/features/KubernetesFeature.java:73 | "pods", "stateful sets" and an unknown word all resolve to the pods accessor |
| `Features.Put` | src/main/java/dev/hiberbee/features/KubernetesFeature.java:101 | the key now holds the value, and every other key is as it was |
| `Features.Get` | src/main/java/dev/hiberbee/features/KubernetesFeature.java:126 | nothing exactly when the key is absent; the stored value when it has the class asked for; a type error exactly when it has another class |
| `Features.GetOrCreate` | src/main/java/dev/hiberbee/features/KubernetesFeature.java:90 | a present value is returned and the cache is unchanged; on a miss the created value is returned and stored |
| `Features.PutReplaces` | src/main/java/dev/hiberbee/features/KubernetesFeature.java:101 | a later put to a key fully replaces an earlier one |
| `Features.GetOrCreateStable` | src/main/java/dev/hiberbee/features/KubernetesFeature.java:90 | a second get-or-create returns the first one's value and changes nothing |
| `Features.Extracting` | src/main/java/dev/hiberbee/features/KubernetesFeature.java:91 | fails, naming the path, exactly when some item has no such property; otherwise one entry per item, in order, null or the value's text |
| `Features.AnyMatch` | src/main/java/dev/hiberbee/features/KubernetesFeature.java:91 | true exactly when some value contains the expected string and no null comes before it; false exactly when every value is present and none contains it; any other case is the null-pointer failure |
| `Features.Matching` | src/main/java/dev/hiberbee/features/KubernetesFeature.java:91 | a missing property on any item fails first; otherwise it is true exactly when some item's value contains the expected string with only present values before it, false exactly when every value is present and none contains it, and a null-pointer failure otherwise |
| `Features.KubernetesFeature.constructor` | src/main/java/dev/hiberbee/features/KubernetesFeature.java:31-40 | the glue object keeps the injected client and cache |
| `Features.KubernetesFeature.Namespace` | src/main/java/dev/hiberbee/features/KubernetesFeature.java:100-106 | a failed lookup fails the step and leaves the cache unchanged; a found namespace is returned and replaces the "namespace" entry, and nothing else changes |
| `Features.KubernetesFeature.Resources` | src/main/java/dev/hiberbee/features/KubernetesFeature.java:120-131 | with no "namespace" entry it lists in every namespace; otherwise it lists in the cached Namespace's metadata.namespace; the list replaces "resources" and no other key changes; a "namespace" entry of another class fails and changes nothing; on a well-typed cache it always succeeds and keeps the cache well-typed |
| `Features.KubernetesFeature.ListSize` | src/main/java/dev/hiberbee/features/KubernetesFeature.java:133-137 | passes exactly when "resources" holds a list of size at least `size`, whatever the phrase; a missing list fails; a well-typed cache never gives the type error |
| `Features.KubernetesFeature.ResourceWithPathMaybeExist` | src/main/java/dev/hiberbee/features/KubernetesFeature.java:84-92 | on a miss it stores an empty list and fails; a present entry is left unchanged; a cached value that is not a list is a type error; otherwise it passes exactly when the match over the cached items succeeds, and fails with the match's error or with no-match; the two phrases play no part; a well-typed cache never gives the type error |
| `Features.KubernetesFeature.KubernetesIsRunningOn` | src/main/java/dev/hiberbee/features/KubernetesFeature.java:94-98 | passes exactly when "the master URL contains the host" agrees with the phrase's `yes()` |
| `Features.KubernetesFeature.MasterUrlVerdictsOpposite` | src/main/java/dev/hiberbee/features/KubernetesFeature.java:94-98 | an affirming and a denying phrase never both pass for the same host |
| `Features.KubernetesFeature.MasterUrlIsItself` | src/main/java/dev/hiberbee/features/KubernetesFeature.java:94-98 | for the configured URL itself, "is" passes and "is not" fails |
| `Features.SelectFetchCount` | src/main/java/dev/hiberbee/features/KubernetesFeature.java:100-137 | the scenario namespace, fetch, size check passes exactly when the namespace exists, the phrase parses and at least n items of the kind carry the Namespace's metadata.namespace; an unknown namespace fails first |
| `Features.FetchAnywhereThenMatch` | src/main/java/dev/hiberbee/features/KubernetesFeature.java:84-131 | with no namespace cached, fetching then asserting a field passes exactly when the match over the items of the kind, in every namespace, succeeds |
| `Features.MatchBeforeFetch` | src/main/java/dev/hiberbee/features/KubernetesFeature.java:84-137 | asserting a field before any fetch fails, and the empty list it stores then passes a size check exactly for bounds up to 0 |

## Left out

- `dependencyAddedAndInstalled` (src/main/java/dev/hiberbee/features/KubernetesFeature.java:77-82): it reads `~/.Brewfile.lock.json`, which is file I/O.
- `subPathExists` (src/main/java/dev/hiberbee/features/KubernetesFeature.java:115-118): it spawns a process with `Runtime.exec`.
- `defaultTransformer` (src/main/java/dev/hiberbee/features/KubernetesFeature.java:42-47): Jackson's reflective conversion, a foreign library.
- `context` (src/main/java/dev/hiberbee/features/KubernetesFeature.java:108-113): it only sets a field of the foreign fabric8 configuration object.
- The fabric8 client's networking, authentication and real list calls. The client is the `Cluster.Client` value: a namespace map, per-kind item lists tagged by namespace, and a master URL string.
- A cached Namespace whose `metadata.namespace` is null: strings in the model are never null. This is the usual case for a cluster-scoped Namespace object, and what fabric8 lists for `inNamespace(null)` is not part of this model.
- Spring's caching proxy (`@CachePut`) and the thread safety of `ConcurrentMapCacheManager`: the cache is a sequential map. A put happens only when the step returns normally, as with the proxy.
- AssertJ's property introspection: what `extracting(path)` reads from one item (no such property, null, or the value's `toString()` text) is a function of the item and the path that the caller supplies.
- Text.ToUpper: only the ASCII letters 'a' to 'z' change case; Java's `toUpperCase` maps every Unicode letter and depends on the default locale (in a Turkish locale "is" becomes "İS").
- Text.ToLower: only the ASCII letters 'A' to 'Z' change case, for the same reason.
- Cucumber's step matching and parameter regexes: the model starts from the phrase string that a regex alternative captured.
- Assertion messages: a failure carries a `StepError` naming its kind and its inputs, not AssertJ's message text.
- The 32-bit width of `{int}` and of Java list sizes: `ListSize` compares unbounded integers, which agrees for every value Java can hold.
- src/test/java/dev/hiberbee/TestApplicationTest.java: it only checks the types of Spring beans, so there is nothing to model.
