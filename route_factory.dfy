/**
 * AbstractRouteFactory: the base of the factories that build routes, holding the
 * namespace (a path prefix) under which the routes it builds are collected.
 */
module RouteFactories {
  import opened Wrappers

  /** PHP's string form of a namespace argument: null becomes "". */
  function AsString(ns: Option<string>): (r: string)
  {
    if ns.None? then "" else ns.value
  }

  /** The namespace `ns` extended by `suffix` (PHP's `.=`, where null . x is x):
      the old namespace is kept as the prefix and `suffix` becomes the rest. */
  function Appended(ns: Option<string>, suffix: Option<string>): (r: string)
    ensures |r| == |AsString(ns)| + |AsString(suffix)|
    ensures r[..|AsString(ns)|] == AsString(ns)
    ensures r[|AsString(ns)|..] == AsString(suffix)
  {
    AsString(ns) + AsString(suffix)
  }

  /** The namespace after appending each of `parts` in turn. */
  function AppendedAll(ns: Option<string>, parts: seq<string>): (r: Option<string>)
    decreases |parts|
  {
    if parts == [] then ns else AppendedAll(Some(Appended(ns, Some(parts[0]))), parts[1..])
  }

  /** The parts joined end to end. */
  function Joined(parts: seq<string>): (r: string)
    decreases |parts|
  {
    if parts == [] then "" else parts[0] + Joined(parts[1..])
  }

  /** Two appends in a row give the same namespace as one append of both parts. */
  lemma AppendTwice(ns: Option<string>, a: string, b: string)
    ensures Appended(Some(Appended(ns, Some(a))), Some(b)) == Appended(ns, Some(a + b))
  {
  }

  /** Any run of appends (as nested route groups perform) gives the namespace the
      factory started with followed by every part in order; from null that is
      the parts alone. */
  lemma {:induction false} AppendedAllJoins(ns: Option<string>, parts: seq<string>)
    requires parts != []
    ensures AppendedAll(ns, parts) == Some(AsString(ns) + Joined(parts))
    decreases |parts|
  {
    var next := Some(Appended(ns, Some(parts[0])));
    if |parts| == 1 {
      assert parts[1..] == [];
      assert Joined(parts) == parts[0] + Joined([]) == parts[0];
    } else {
      AppendedAllJoins(next, parts[1..]);
      assert AsString(next) + Joined(parts[1..]) == AsString(ns) + (parts[0] + Joined(parts[1..]));
    }
  }

  /** A route factory's namespace state. The factory method `build` that concrete
      factories implement is not part of this model. */
  class AbstractRouteFactory {
    /** The namespace, null until one is given. */
    var namespace: Option<string>

    /** A factory whose namespace is `namespace` (null when none is given). */
    constructor (namespace: Option<string>)
      ensures this.namespace == namespace
    {
      this.namespace := namespace;
    }

    /** getNamespace(): the current namespace, changing nothing. */
    method GetNamespace() returns (ns: Option<string>)
      ensures ns == namespace
    {
      ns := namespace;
    }

    /** setNamespace(): replace the namespace with the string form of the argument,
        so null becomes ""; returns the factory for chaining. */
    method SetNamespace(ns: Option<string>) returns (self: AbstractRouteFactory)
      modifies this
      ensures self == this
      ensures namespace == Some(AsString(ns))
    {
      namespace := Some(AsString(ns));
      self := this;
    }

    /** appendNamespace(): extend the namespace by the string form of the argument,
        a null namespace counting as ""; returns the factory for chaining. */
    method AppendNamespace(suffix: Option<string>) returns (self: AbstractRouteFactory)
      modifies this
      ensures self == this
      ensures namespace == Some(Appended(old(namespace), suffix))
    {
      namespace := Some(AsString(namespace) + AsString(suffix));
      self := this;
    }
  }

  /** Example client, not part of the source: nested route groups appending
      "/admin" then "/users" to a fresh factory give "/admin/users", and setting
      null afterwards gives "". */
  method NamespaceScenario()
  {
    var f := new AbstractRouteFactory(None);
    var ns := f.GetNamespace();
    assert ns == None;
    var g := f.AppendNamespace(Some("/admin"));
    g := g.AppendNamespace(Some("/users"));
    ns := f.GetNamespace();
    assert "/admin" + "/users" == "/admin/users";
    assert ns == Some("/admin/users");
    g := f.SetNamespace(None);
    ns := f.GetNamespace();
    assert ns == Some("");
  }
}
