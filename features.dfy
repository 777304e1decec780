/** The step definitions of KubernetesFeature: phrase parsing, resource-kind
    resolution, and the steps that share state through the scenario cache. */
module Features {
  import opened Wrappers
  import opened Text
  import Dsl
  import Configurations
  import Cluster

  /** Why a step fails: the exception or assertion error it raises. */
  datatype StepError =
    | ParseError(constantName: string)              // Enum.valueOf finds no constant
    | NamespaceNotFound(name: string)               // the looked-up namespace is null
    | WrongType(key: string)                        // cached value of another class
    | NullList                                      // asserting the size of a missing list
    | SizeTooSmall(boundary: int, size: int)        // hasSizeGreaterThanOrEqualTo fails
    | NoMatch(path: string, value: string)          // anyMatch finds no item
    | MissingProperty(path: string)                 // extracting(path) meets an item without it
    | NullProperty(path: string)                    // toString() on a null value at `path`
    | MasterUrlMismatch(expectedContained: bool)     // isEqualTo(maybe.yes()) fails

  // ---------------------------------------------------------------------
  // Affirmation phrases

  /** The alternatives the {maybe} parameter pattern accepts. */
  const StepPhrases: seq<string> :=
    ["is", "is not", "has", "has not", "have", "have not", "should", "should not", "are", "are not", "contains"]

  /** maybe(value): Enum.valueOf applied to the converter's forward form. */
  function ParseMaybe(value: string): (r: Result<Dsl.Maybe, StepError>)
    ensures r.Success? ==> r.value.Name() == Configurations.Forward(value)
    ensures r.Failure? ==> r.error == ParseError(Configurations.Forward(value))
    ensures r.Failure? ==> forall m: Dsl.Maybe :: m.Name() != Configurations.Forward(value)
  {
    var name := Configurations.Forward(value);
    match Dsl.ValueOf(name)
    case Some(m) => Success(m)
    case None => Failure(ParseError(name))
  }

  /** The parse does not see the case of the phrase. */
  lemma ParseMaybeIgnoresCase(value: string)
    ensures ParseMaybe(ToUpper(value)) == ParseMaybe(value)
    ensures ParseMaybe(ToLower(value)) == ParseMaybe(value)
  {
    Configurations.ForwardIgnoresCase(value);
  }

  /** Every constant is reached from its own phrase: its name lower-cased,
      with spaces for underscores. */
  lemma ParseMaybeOfPhrase(m: Dsl.Maybe)
    ensures ParseMaybe(Configurations.Backward(m.Name())) == Success(m)
  {
    var name := m.Name();
    assert Configurations.IsConstantName(name) by {
      forall i | 0 <= i < |name| ensures name[i] != ' ' && !IsLower(name[i]) {
        assert name[i] in "ABCDEFGHIJKLMNOPQRSTUVWXYZ_";
      }
    }
    Configurations.ForwardBackward(name);
  }

  /** A phrase parses to the constant whose name is its forward form. */
  lemma ParseNamed(p: string, m: Dsl.Maybe)
    requires Configurations.Forward(p) == m.Name()
    ensures ParseMaybe(p) == Success(m)
  {
  }

  /** Forward on a phrase, stated character by character. */
  lemma ForwardOfPhrase(p: string, name: string)
    requires |p| == |name|
    requires forall i :: 0 <= i < |p| ==> name[i] == if p[i] == ' ' then '_' else UpperChar(p[i])
    ensures Configurations.Forward(p) == name
  {
  }

  /** A phrase whose forward form names no constant fails to parse. */
  lemma ParseUnnamed(p: string)
    requires forall m: Dsl.Maybe :: m.Name() != Configurations.Forward(p)
    ensures ParseMaybe(p) == Failure(ParseError(Configurations.Forward(p)))
  {
  }

  /** The "is" phrases of the step pattern parse to their constants. */
  lemma ParseIsPhrases(p: string)
    ensures p == "is" ==> ParseMaybe(p) == Success(Dsl.Is)
    ensures p == "is not" ==> ParseMaybe(p) == Success(Dsl.IsNot)
  {
    if p == "is" {
      ForwardOfPhrase(p, "IS");
      ParseNamed(p, Dsl.Is);
    } else if p == "is not" {
      ForwardOfPhrase(p, "IS_NOT");
      ParseNamed(p, Dsl.IsNot);
    }
  }

  /** The "has" phrases of the step pattern parse to their constants. */
  lemma ParseHasPhrases(p: string)
    ensures p == "has" ==> ParseMaybe(p) == Success(Dsl.Has)
    ensures p == "has not" ==> ParseMaybe(p) == Success(Dsl.HasNot)
  {
    if p == "has" {
      ForwardOfPhrase(p, "HAS");
      ParseNamed(p, Dsl.Has);
    } else if p == "has not" {
      ForwardOfPhrase(p, "HAS_NOT");
      ParseNamed(p, Dsl.HasNot);
    }
  }

  /** The "have" phrases of the step pattern parse to their constants. */
  lemma ParseHavePhrases(p: string)
    ensures p == "have" ==> ParseMaybe(p) == Success(Dsl.Have)
    ensures p == "have not" ==> ParseMaybe(p) == Success(Dsl.HaveNot)
  {
    if p == "have" {
      ForwardOfPhrase(p, "HAVE");
      ParseNamed(p, Dsl.Have);
    } else if p == "have not" {
      ForwardOfPhrase(p, "HAVE_NOT");
      ParseNamed(p, Dsl.HaveNot);
    }
  }

  /** The "are" phrases of the step pattern parse to their constants. */
  lemma ParseArePhrases(p: string)
    ensures p == "are" ==> ParseMaybe(p) == Success(Dsl.Are)
    ensures p == "are not" ==> ParseMaybe(p) == Success(Dsl.AreNot)
  {
    if p == "are" {
      ForwardOfPhrase(p, "ARE");
      ParseNamed(p, Dsl.Are);
    } else if p == "are not" {
      ForwardOfPhrase(p, "ARE_NOT");
      ParseNamed(p, Dsl.AreNot);
    }
  }

  /** The "contains" phrases of the step pattern parse to their constants. */
  lemma ParseContainsPhrases(p: string)
    ensures p == "contains" ==> ParseMaybe(p) == Success(Dsl.Contains)
  {
    if p == "contains" {
      ForwardOfPhrase(p, "CONTAINS");
      ParseNamed(p, Dsl.Contains);
    }
  }

  /** "should" and "should not" match the step pattern, yet no constant is
      named SHOULD or SHOULD_NOT, so both fail to parse. */
  lemma ParseShouldPhrases(p: string)
    ensures p == "should" ==> ParseMaybe(p) == Failure(ParseError("SHOULD"))
    ensures p == "should not" ==> ParseMaybe(p) == Failure(ParseError("SHOULD_NOT"))
  {
    if p == "should" {
      ForwardOfPhrase(p, "SHOULD");
      ParseUnnamed(p);
    } else if p == "should not" {
      ForwardOfPhrase(p, "SHOULD_NOT");
      ParseUnnamed(p);
    }
  }

  /** Of the phrases the step pattern accepts, exactly "should" and
      "should not" fail. */
  lemma StepPhrasesParse(p: string)
    requires p in StepPhrases
    ensures ParseMaybe(p).Failure? <==> p == "should" || p == "should not"
  {
    ParseIsPhrases(p);
    ParseHasPhrases(p);
    ParseHavePhrases(p);
    ParseArePhrases(p);
    ParseContainsPhrases(p);
    ParseShouldPhrases(p);
  }

  // ---------------------------------------------------------------------
  // Resource kinds

  /** The alternatives the {kubernetesResource} parameter pattern accepts. */
  const ResourcePhrases: seq<string> :=
    ["pods", "services", "ingresses", "deployments", "replica sets", "daemon sets", "stateful sets", "secrets", "config maps"]

  /** The phrase an accessor is selected by. */
  function Phrase(a: Cluster.Accessor): string
  {
    match a
    case Pods => "pods"
    case Services => "services"
    case Ingresses => "ingresses"
    case ConfigMaps => "config maps"
    case Secrets => "secrets"
    case Deployments => "deployments"
    case DaemonSets => "daemon sets"
    case ReplicaSets => "replica sets"
  }

  /** kubernetesResource(value): the client accessor a phrase is bound to;
      seven phrases have an accessor of their own, every other string
      falls back to the pods accessor. */
  function KubernetesResource(value: string): (r: Cluster.Accessor)
    ensures r != Cluster.Pods ==> value == Phrase(r)
    ensures r == Cluster.Pods <==> forall a: Cluster.Accessor :: a != Cluster.Pods ==> value != Phrase(a)
  {
    match value
    case "services" => Cluster.Services
    case "ingresses" => Cluster.Ingresses
    case "config maps" => Cluster.ConfigMaps
    case "secrets" => Cluster.Secrets
    case "deployments" => Cluster.Deployments
    case "daemon sets" => Cluster.DaemonSets
    case "replica sets" => Cluster.ReplicaSets
    case _ => Cluster.Pods
  }

  /** Every accessor is selected by its own phrase. */
  lemma KubernetesResourceOfPhrase(a: Cluster.Accessor)
    ensures KubernetesResource(Phrase(a)) == a
  {
  }

  /** "pods" reaches the pods accessor only through the default branch,
      and "stateful sets", accepted by the pattern, lands there too. */
  lemma KubernetesResourceDefaults()
    ensures KubernetesResource("pods") == Cluster.Pods
    ensures KubernetesResource("stateful sets") == Cluster.Pods
    ensures KubernetesResource("widgets") == Cluster.Pods
  {
  }

  /** Of the phrases the pattern accepts, exactly "pods" and "stateful sets"
      reach the pods accessor: the second has no accessor of its own. */
  lemma ResourcePhrasesReachingPods(p: string)
    requires p in ResourcePhrases
    ensures KubernetesResource(p) == Cluster.Pods <==> p == "pods" || p == "stateful sets"
  {
  }

  // ---------------------------------------------------------------------
  // The scenario cache

  /** The keys the @CachePut steps write: their own method names. */
  const NamespaceKey: string := "namespace"
  const ResourcesKey: string := "resources"

  /** What the cache can hold: a Namespace or a resource list. */
  datatype Value = NamespaceValue(namespace: Cluster.Namespace) | ListValue(items: seq<Cluster.Resource>)

  /** The class a typed read asks for. */
  datatype ValueClass = NamespaceClass | ListClass

  predicate IsInstance(v: Value, cls: ValueClass)
  {
    match cls
    case NamespaceClass => v.NamespaceValue?
    case ListClass => v.ListValue?
  }

  type Cache = map<string, Value>

  /** Each step key holds a value of the class its step writes. */
  predicate WellTyped(c: Cache)
  {
    && (NamespaceKey in c ==> c[NamespaceKey].NamespaceValue?)
    && (ResourcesKey in c ==> c[ResourcesKey].ListValue?)
  }

  /** Cache.put: `key` now holds `v`; every other key is as it was. */
  function Put(c: Cache, key: string, v: Value): (r: Cache)
    ensures key in r && r[key] == v
    ensures forall k :: k != key ==> (k in r <==> k in c)
    ensures forall k :: k != key && k in c ==> r[k] == c[k]
  {
    c[key := v]
  }

  /** Cache.get(key, Class): absent is None (Java's null); a value of
      another class is the IllegalStateException Spring throws. */
  function Get(c: Cache, key: string, cls: ValueClass): (r: Result<Option<Value>, StepError>)
    ensures r == Success(None) <==> key !in c
    ensures r.Success? && r.value.Some? ==> key in c && r.value.value == c[key] && IsInstance(c[key], cls)
    ensures r.Failure? <==> key in c && !IsInstance(c[key], cls)
  {
    if key !in c then Success(None)
    else if IsInstance(c[key], cls) then Success(Some(c[key]))
    else Failure(WrongType(key))
  }

  /** Cache.get(key, valueLoader): the present value, or the loader's value,
      which is then stored. */
  function GetOrCreate(c: Cache, key: string, created: Value): (r: (Value, Cache))
    ensures key in c ==> r.0 == c[key] && r.1 == c
    ensures key !in c ==> r.0 == created && r.1 == Put(c, key, created)
  {
    if key in c then (c[key], c) else (created, c[key := created])
  }

  /** A later put replaces an earlier one. */
  lemma PutReplaces(c: Cache, key: string, v: Value, w: Value)
    ensures Put(Put(c, key, v), key, w) == Put(c, key, w)
  {
  }

  /** Get-or-create stores on the first read only: a second read returns
      the same value and changes nothing. */
  lemma GetOrCreateStable(c: Cache, key: string, created: Value, other: Value)
    ensures var (v, c1) := GetOrCreate(c, key, created);
            GetOrCreate(c1, key, other) == (v, c1)
  {
  }

  // ---------------------------------------------------------------------
  // Assertion helpers

  /** What extracting(path) reads from one item: no such property (the
      introspection error), a property holding null, or the text its
      value's toString() gives. */
  datatype Extracted = NoSuchProperty | NullValue | Present(text: string)

  /** extracting(path): the value at `path` of every item, in order, read
      before anything is matched; one item without the property fails it. */
  function Extracting(items: seq<Cluster.Resource>, path: string,
                      extract: (Cluster.Resource, string) -> Extracted): (r: Result<seq<Option<string>>, StepError>)
    ensures r.Failure? <==> exists i :: 0 <= i < |items| && extract(items[i], path).NoSuchProperty?
    ensures r.Failure? ==> r.error == MissingProperty(path)
    ensures r.Success? ==> |r.value| == |items|
    ensures r.Success? ==> forall i :: 0 <= i < |items| ==>
              && (extract(items[i], path).NullValue? ==> r.value[i] == None)
              && (extract(items[i], path).Present? ==> r.value[i] == Some(extract(items[i], path).text))
  {
    if items == [] then Success([])
    else
      var rest := Extracting(items[1..], path, extract);
      assert forall i :: 1 <= i < |items| ==> items[i] == items[1..][i - 1];
      match extract(items[0], path)
      case NoSuchProperty => Failure(MissingProperty(path))
      case NullValue => if rest.Failure? then rest else Success([None] + rest.value)
      case Present(t) => if rest.Failure? then rest else Success([Some(t)] + rest.value)
  }

  /** anyMatch(it -> it.toString().contains(value)) over extracted values:
      the values are tried in order and the first one containing `value`
      ends the search; a null reached before that throws. */
  function AnyMatch(texts: seq<Option<string>>, path: string, value: string): (r: Result<bool, StepError>)
    ensures r == Success(true) <==>
              exists i :: 0 <= i < |texts| && texts[i].Some? && Contains(texts[i].value, value)
                          && forall j :: 0 <= j < i ==> texts[j].Some?
    ensures r == Success(false) <==>
              forall i :: 0 <= i < |texts| ==> texts[i].Some? && !Contains(texts[i].value, value)
    ensures r.Failure? ==> r.error == NullProperty(path)
  {
    if texts == [] then Success(false)
    else
      var rest := AnyMatch(texts[1..], path, value);
      assert forall i :: 1 <= i < |texts| ==> texts[i] == texts[1..][i - 1];
      match texts[0]
      case None => Failure(NullProperty(path))
      case Some(t) => if Contains(t, value) then Success(true) else rest
  }

  /** extracting(path).anyMatch(...) as one assertion: a missing property
      on any item fails it first; otherwise it passes at the first item
      whose value contains `value` unless a null value comes before it. */
  function Matching(items: seq<Cluster.Resource>, path: string, value: string,
                    extract: (Cluster.Resource, string) -> Extracted): (r: Result<bool, StepError>)
    ensures r == Failure(MissingProperty(path)) <==>
              exists i :: 0 <= i < |items| && extract(items[i], path).NoSuchProperty?
    ensures r == Success(true) <==>
              && (forall i :: 0 <= i < |items| ==> !extract(items[i], path).NoSuchProperty?)
              && exists i :: 0 <= i < |items| && extract(items[i], path).Present?
                             && Contains(extract(items[i], path).text, value)
                             && forall j :: 0 <= j < i ==> extract(items[j], path).Present?
    ensures r == Success(false) <==>
              forall i :: 0 <= i < |items| ==>
                extract(items[i], path).Present? && !Contains(extract(items[i], path).text, value)
    ensures r.Failure? ==> r.error in {MissingProperty(path), NullProperty(path)}
  {
    var extracted := Extracting(items, path, extract);
    if extracted.Failure? then Failure(extracted.error)
    else AnyMatch(extracted.value, path, value)
  }

  // ---------------------------------------------------------------------
  // The step definitions

  class KubernetesFeature {
    const client: Cluster.Client
    var cache: Cache

    /** The cache is injected, not created: its contents are whatever the
        application-wide cache holds when the glue object is built. */
    constructor (client: Cluster.Client, cache: Cache)
      ensures this.client == client && this.cache == cache
    {
      this.client := client;
      this.cache := cache;
    }

    /** Step "namespace is {string}": look the namespace up by name; a miss
        fails the step and puts nothing, a hit replaces the cached
        "namespace" entry. */
    method Namespace(expected: string) returns (r: Result<Cluster.Namespace, StepError>)
      modifies this
      ensures client.NamespaceWithName(expected).None? ==>
                r == Failure(NamespaceNotFound(expected)) && cache == old(cache)
      ensures client.NamespaceWithName(expected).Some? ==>
                r == Success(client.NamespaceWithName(expected).value)
                && cache == Put(old(cache), NamespaceKey, NamespaceValue(r.value))
      ensures WellTyped(old(cache)) ==> WellTyped(cache)
    {
      var found := client.NamespaceWithName(expected);
      if found.None? {
        return Failure(NamespaceNotFound(expected));
      }
      r := Success(found.value);
      cache := Put(cache, NamespaceKey, NamespaceValue(found.value));
    }

    /** Step "I get {kubernetesResource}": list the kind in every namespace
        when no namespace is cached, otherwise in the cached Namespace's
        metadata.namespace; the list replaces the cached "resources" entry
        and no other key changes. */
    method Resources(kind: Cluster.Accessor) returns (r: Result<seq<Cluster.Resource>, StepError>)
      modifies this
      ensures NamespaceKey !in old(cache) ==> r == Success(client.InAnyNamespace(kind))
      ensures NamespaceKey in old(cache) && old(cache)[NamespaceKey].NamespaceValue? ==>
                r == Success(client.InNamespace(kind, old(cache)[NamespaceKey].namespace.metadata.namespace))
      ensures NamespaceKey in old(cache) && !old(cache)[NamespaceKey].NamespaceValue? ==>
                r == Failure(WrongType(NamespaceKey))
      ensures r.Success? ==> cache == Put(old(cache), ResourcesKey, ListValue(r.value))
      ensures r.Failure? ==> cache == old(cache)
      ensures WellTyped(old(cache)) ==> WellTyped(cache) && r.Success?
    {
      var namespace := Get(cache, NamespaceKey, NamespaceClass);
      if namespace.Failure? {
        return Failure(namespace.error);
      }
      var items;
      if namespace.value.None? {
        items := client.InAnyNamespace(kind);
      } else {
        items := client.InNamespace(kind, namespace.value.value.namespace.metadata.namespace);
      }
      r := Success(items);
      cache := Put(cache, ResourcesKey, ListValue(items));
    }

    /** Step "list size {maybe} greater then {int}": the cached list is
        present and at least `size` long; the phrase plays no part. */
    function ListSize(maybe: Dsl.Maybe, size: int): (r: Outcome<StepError>)
      reads this
      ensures r.Pass? <==> ResourcesKey in cache && cache[ResourcesKey].ListValue?
                           && |cache[ResourcesKey].items| >= size
      ensures ResourcesKey !in cache ==> r == Fail(NullList)
      ensures WellTyped(cache) ==> r != Fail(WrongType(ResourcesKey))
    {
      match Get(cache, ResourcesKey, ListClass)
      case Failure(e) => Fail(e)
      case Success(None) => Fail(NullList)
      case Success(Some(v)) =>
        if |v.items| >= size then Pass else Fail(SizeTooSmall(size, |v.items|))
    }

    /** Step "{maybe} resource with {string} {maybe} equal to {string}": read
        the cached list, creating an empty one on a miss, and pass when the
        match over the items' values at `path` finds `value`; both phrases
        play no part. */
    method ResourceWithPathMaybeExist(maybeHas: Dsl.Maybe, path: string, maybeEqualTo: Dsl.Maybe,
                                      value: string, extract: (Cluster.Resource, string) -> Extracted)
      returns (r: Outcome<StepError>)
      modifies this
      ensures ResourcesKey !in old(cache) ==>
                cache == Put(old(cache), ResourcesKey, ListValue([])) && r == Fail(NoMatch(path, value))
      ensures ResourcesKey in old(cache) ==> cache == old(cache)
      ensures ResourcesKey in old(cache) && !old(cache)[ResourcesKey].ListValue? ==>
                r == Fail(WrongType(ResourcesKey))
      ensures ResourcesKey in old(cache) && old(cache)[ResourcesKey].ListValue? ==>
                var m := Matching(old(cache)[ResourcesKey].items, path, value, extract);
                && (r.Pass? <==> m == Success(true))
                && (m == Success(false) ==> r == Fail(NoMatch(path, value)))
                && (m.Failure? ==> r == Fail(m.error))
      ensures WellTyped(old(cache)) ==> WellTyped(cache) && r != Fail(WrongType(ResourcesKey))
    {
      var (resources, updated) := GetOrCreate(cache, ResourcesKey, ListValue([]));
      cache := updated;
      if !resources.ListValue? {
        return Fail(WrongType(ResourcesKey));
      }
      var matched := Matching(resources.items, path, value, extract);
      if matched.Failure? {
        r := Fail(matched.error);
      } else if matched.value {
        r := Pass;
      } else {
        r := Fail(NoMatch(path, value));
      }
    }

    /** Step "kubernetes master url {maybe} {string}": whether the master URL
        contains `host` must agree with the phrase's yes(). */
    function KubernetesIsRunningOn(maybe: Dsl.Maybe, host: string): (r: Outcome<StepError>)
      ensures r.Pass? <==> (Contains(client.masterUrl, host) <==> maybe.Yes())
    {
      if Contains(client.masterUrl, host) == maybe.Yes() then Pass
      else Fail(MasterUrlMismatch(maybe.Yes()))
    }
  
    /** Two phrases of opposite yes() never both pass for the same host. */
    lemma MasterUrlVerdictsOpposite(m1: Dsl.Maybe, m2: Dsl.Maybe, host: string)
      requires m1.Yes() != m2.Yes()
      ensures KubernetesIsRunningOn(m1, host).Pass? != KubernetesIsRunningOn(m2, host).Pass?
    {
    }

    /** The configured master URL itself: "is" passes and "is not" fails. */
    lemma MasterUrlIsItself()
      ensures KubernetesIsRunningOn(Dsl.Is, client.masterUrl) == Pass
      ensures KubernetesIsRunningOn(Dsl.IsNot, client.masterUrl) == Fail(MasterUrlMismatch(false))
    {
      ContainsItself(client.masterUrl);
    }
  }

  // ---------------------------------------------------------------------
  // Scenarios: steps run in order on one glue object; the first failing
  // step ends the scenario.

  /** "namespace is {name}", "I get {kind}", "list size {maybe} greater then
      {n}": passes exactly when the namespace exists, the phrase parses, and
      at least n items of the kind carry the Namespace's metadata.namespace. */
  method SelectFetchCount(client: Cluster.Client, cache: Cache, name: string, kindPhrase: string,
                          sizePhrase: string, n: int)
    returns (outcome: Outcome<StepError>)
    ensures client.NamespaceWithName(name).None? ==> outcome == Fail(NamespaceNotFound(name))
    ensures client.NamespaceWithName(name).Some? && ParseMaybe(sizePhrase).Failure? ==>
              outcome == Fail(ParseMaybe(sizePhrase).error)
    ensures outcome.Pass? <==>
              && client.NamespaceWithName(name).Some?
              && ParseMaybe(sizePhrase).Success?
              && n <= |client.InNamespace(KubernetesResource(kindPhrase),
                                          client.NamespaceWithName(name).value.metadata.namespace)|
  {
    var feature := new KubernetesFeature(client, cache);
    var selected := feature.Namespace(name);
    if selected.Failure? {
      return Fail(selected.error);
    }
    var fetched := feature.Resources(KubernetesResource(kindPhrase));
    // The namespace step has just cached a Namespace, so the fetch cannot fail.
    assert fetched.Success?;
    var maybe := ParseMaybe(sizePhrase);
    if maybe.Failure? {
      return Fail(maybe.error);
    }
    outcome := feature.ListSize(maybe.value, n);
  }

  /** "I get {kind}" with no namespace cached, then "... resource with
      {path} ... equal to {value}": passes exactly when some item of the kind,
      in any namespace, has a value at `path` containing `value`. */
  method FetchAnywhereThenMatch(client: Cluster.Client, cache: Cache, kind: Cluster.Accessor,
                                path: string, value: string,
                                extract: (Cluster.Resource, string) -> Extracted)
    returns (outcome: Outcome<StepError>)
    requires NamespaceKey !in cache
    ensures outcome.Pass? <==> Matching(client.InAnyNamespace(kind), path, value, extract) == Success(true)
  {
    var feature := new KubernetesFeature(client, cache);
    var fetched := feature.Resources(kind);
    // With no namespace cached the fetch cannot fail.
    assert fetched.Success?;
    outcome := feature.ResourceWithPathMaybeExist(Dsl.Has, path, Dsl.Is, value, extract);
  }

  /** Asserting a field before anything was fetched fails on the empty list
      it creates, and that list then satisfies a size check for n <= 0 only. */
  method MatchBeforeFetch(client: Cluster.Client, cache: Cache, path: string, value: string,
                          extract: (Cluster.Resource, string) -> Extracted, n: int)
    returns (matched: Outcome<StepError>, sized: Outcome<StepError>)
    requires ResourcesKey !in cache
    ensures matched == Fail(NoMatch(path, value))
    ensures sized.Pass? <==> n <= 0
  {
    var feature := new KubernetesFeature(client, cache);
    matched := feature.ResourceWithPathMaybeExist(Dsl.Has, path, Dsl.Is, value, extract);
    sized := feature.ListSize(Dsl.Is, n);
  }
}
