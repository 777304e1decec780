/** The cluster client, reduced to the data the steps read from it: a
    namespace lookup by name, the items of each resource kind tagged with
    their namespace, and the master URL. */
module Cluster {
  import opened Wrappers

  /** The metadata every cluster object carries. */
  datatype ObjectMeta = ObjectMeta(name: string, namespace: string)

  datatype Namespace = Namespace(metadata: ObjectMeta)

  /** A listed resource item (any HasMetadata). */
  datatype Resource = Resource(metadata: ObjectMeta)

  /** The client accessors a resource-kind phrase can be bound to. */
  datatype Accessor =
    | Pods | Services | Ingresses | ConfigMaps | Secrets | Deployments | DaemonSets | ReplicaSets

  datatype Client = Client(
    namespaces: map<string, Namespace>,
    items: map<Accessor, seq<Resource>>,
    masterUrl: string)
  {
    /** Each namespace is filed under its own name. */
    predicate Valid()
    {
      forall n :: n in namespaces ==> namespaces[n].metadata.name == n
    }

    /** namespaces().withName(name).get(), with None for its null. */
    function NamespaceWithName(name: string): (r: Option<Namespace>)
      ensures r.Some? <==> name in namespaces
      ensures r.Some? ==> r.value == namespaces[name]
      ensures Valid() && r.Some? ==> r.value.metadata.name == name
    {
      if name in namespaces then Some(namespaces[name]) else None
    }

    /** inAnyNamespace().list().getItems(): every item of the kind the
        cluster holds, whatever its namespace; none for a kind it has no
        items of. */
    function InAnyNamespace(kind: Accessor): (r: seq<Resource>)
      ensures kind in items ==> r == items[kind]
      ensures kind !in items ==> r == []
    {
      if kind in items then items[kind] else []
    }

    /** inNamespace(ns).list().getItems(): exactly the items of the kind
        tagged with namespace `ns`, each as often as it is listed in all
        namespaces. */
    function InNamespace(kind: Accessor, ns: string): (r: seq<Resource>)
      ensures forall x :: x in r <==> x in InAnyNamespace(kind) && x.metadata.namespace == ns
      ensures forall x :: multiset(r)[x] == if x.metadata.namespace == ns then multiset(InAnyNamespace(kind))[x] else 0
      ensures |r| <= |InAnyNamespace(kind)|
    {
      TaggedWith(InAnyNamespace(kind), ns)
    }
  }

  /** The items of `rs` whose namespace is `ns`, each as often as in `rs`
      (their order is kept too: see TaggedWithAppend). */
  function TaggedWith(rs: seq<Resource>, ns: string): (r: seq<Resource>)
    ensures forall x :: x in r <==> x in rs && x.metadata.namespace == ns
    ensures forall x :: multiset(r)[x] == if x.metadata.namespace == ns then multiset(rs)[x] else 0
    ensures forall i :: 0 <= i < |r| ==> r[i].metadata.namespace == ns
    ensures |r| <= |rs|
  {
    if rs == [] then []
    else
      assert rs == [rs[0]] + rs[1..];
      if rs[0].metadata.namespace == ns then [rs[0]] + TaggedWith(rs[1..], ns)
      else TaggedWith(rs[1..], ns)
  }

  /** Filtering a concatenation filters each part and keeps them in order. */
  lemma {:induction false} TaggedWithAppend(a: seq<Resource>, b: seq<Resource>, ns: string)
    ensures TaggedWith(a + b, ns) == TaggedWith(a, ns) + TaggedWith(b, ns)
  {
    if a == [] {
      assert a + b == b;
    } else {
      var ab := a + b;
      assert ab[0] == a[0];
      assert ab[1..] == a[1..] + b;
      TaggedWithAppend(a[1..], b, ns);
      if a[0].metadata.namespace == ns {
        calc {
          TaggedWith(ab, ns);
          [a[0]] + TaggedWith(a[1..] + b, ns);
          [a[0]] + (TaggedWith(a[1..], ns) + TaggedWith(b, ns));
          ([a[0]] + TaggedWith(a[1..], ns)) + TaggedWith(b, ns);
        }
      } else {
        calc {
          TaggedWith(ab, ns);
          TaggedWith(a[1..] + b, ns);
        }
      }
    }
  }
}
