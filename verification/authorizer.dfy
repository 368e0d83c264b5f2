/**
 * Link authorisation: the four links the formatter manages (`view`, `update`,
 * `remove`, `patch`) are each offered, blocked or withdrawn according to the
 * caller's grants and the schema's disallowed methods. Every other link passes
 * through untouched.
 */
module Authorizer {
  import opened Wrappers
  import opened Resources
  import opened Links

  /** A managed link: its key, the verb the caller needs and the HTTP method a
      schema may disallow. */
  datatype ManagedLink = ManagedLink(name: string, verb: string, httpMethod: string)

  const Managed: seq<ManagedLink> := [
    ManagedLink("view", "get", "GET"),
    ManagedLink("update", "update", "PUT"),
    ManagedLink("remove", "delete", "DELETE"),
    ManagedLink("patch", "patch", "PATCH")
  ]

  /** The value of a link the caller may use but the schema forbids. */
  const BlockedValue: string := "blocked"

  /** What authorisation needs once caller, schema and object are all resolved. */
  datatype Authz = Authz(gvr: GVR, disallowed: set<string>, meta: Meta, access: AccessSet)

  /** The outcome for one managed link: no link, blocked by the schema, or a URL. */
  datatype Outcome = Absent | Blocked | Link(url: string)

  type LinkSet = map<string, string>

  /** The caller holds the link's verb on this very instance. */
  predicate Granted(m: ManagedLink, z: Authz)
  {
    Grants(z.access, m.verb, GroupResourceOf(z.gvr), z.meta.namespace, z.meta.name)
  }

  function Current(links: LinkSet, name: string): Option<string>
  {
    if name in links then Some(links[name]) else None
  }

  /** The outcome for managed link `m`, whose entry is currently `current`. */
  function Decide(m: ManagedLink, z: Authz, current: Option<string>): (o: Outcome)
    ensures o != Absent ==> Granted(m, z)
    ensures o == Blocked <==> Granted(m, z) && m.httpMethod in z.disallowed
    ensures m.name == "view" ==> (o.Link? <==> Granted(m, z) && m.httpMethod !in z.disallowed)
    ensures m.name != "view" && o.Link? ==> current == Some(o.url)
  {
    if !Granted(m, z) then Absent
    else if m.httpMethod in z.disallowed then Blocked
    else if m.name == "view" then Link(SelfLink(z.gvr, z.meta.namespace, z.meta.name))
    else match current
      case Some(u) => Link(u)
      case None => Absent
  }

  /** The entry an outcome leaves in the link map. */
  function Wire(o: Outcome): Option<string>
  {
    match o
    case Absent => None
    case Blocked => Some(BlockedValue)
    case Link(u) => Some(u)
  }

  /** The link map with entry `name` set to the wire form of `o`. */
  function Apply(links: LinkSet, name: string, o: Outcome): (r: LinkSet)
    ensures Current(r, name) == Wire(o)
    ensures forall k :: k != name ==> Current(r, k) == Current(links, k)
  {
    match o
    case Absent => links - {name}
    case Blocked => links[name := BlockedValue]
    case Link(u) => links[name := u]
  }

  /** The managed links `ms` decided one after another, each on the map left by the
      ones before it. */
  function FilterLinks(links: LinkSet, ms: seq<ManagedLink>, z: Authz): LinkSet
  {
    if ms == [] then links
    else
      var acc := FilterLinks(links, ms[..|ms| - 1], z);
      var m := ms[|ms| - 1];
      Apply(acc, m.name, Decide(m, z, Current(acc, m.name)))
  }

  /** The link map after authorisation; with nothing to authorise against it is
      returned as given. */
  function AuthorizedLinks(links: LinkSet, z: Option<Authz>): LinkSet
  {
    match z
    case None => links
    case Some(z) => FilterLinks(links, Managed, z)
  }

  predicate DistinctNames(ms: seq<ManagedLink>)
  {
    forall i, j :: 0 <= i < j < |ms| ==> ms[i].name != ms[j].name
  }

  // ---------------------------------------------------------------- the fold, key by key

  /** Keys no managed link names are left alone. */
  lemma {:induction false} FilterUnmanaged(links: LinkSet, ms: seq<ManagedLink>, z: Authz, k: string)
    requires forall i :: 0 <= i < |ms| ==> ms[i].name != k
    ensures Current(FilterLinks(links, ms, z), k) == Current(links, k)
  {
    if ms != [] {
      FilterUnmanaged(links, ms[..|ms| - 1], z, k);
    }
  }

  /** Each managed key ends up with the outcome decided on its original entry. */
  lemma {:induction false} FilterManaged(links: LinkSet, ms: seq<ManagedLink>, z: Authz, i: nat)
    requires DistinctNames(ms)
    requires i < |ms|
    ensures Current(FilterLinks(links, ms, z), ms[i].name)
      == Wire(Decide(ms[i], z, Current(links, ms[i].name)))
  {
    var init := ms[..|ms| - 1];
    var last := ms[|ms| - 1];
    var acc := FilterLinks(links, init, z);
    if i == |ms| - 1 {
      FilterUnmanaged(links, init, z, last.name);
    } else {
      FilterManaged(links, init, z, i);
    }
  }

  lemma ManagedDistinct()
    ensures DistinctNames(Managed)
  {
  }

  // ---------------------------------------------------------------- what authorisation promises

  /** Managed link `i` ends with the outcome decided for it. */
  lemma ManagedOutcome(links: LinkSet, z: Authz, i: nat)
    requires i < |Managed|
    ensures Current(AuthorizedLinks(links, Some(z)), Managed[i].name)
      == Wire(Decide(Managed[i], z, Current(links, Managed[i].name)))
  {
    ManagedDistinct();
    FilterManaged(links, Managed, z, i);
  }

  /** Links other than the four managed ones (`default`, say) are never touched. */
  lemma UnmanagedKept(links: LinkSet, z: Option<Authz>, k: string)
    requires k != "view" && k != "update" && k != "remove" && k != "patch"
    ensures Current(AuthorizedLinks(links, z), k) == Current(links, k)
  {
    if z.Some? {
      FilterUnmanaged(links, Managed, z.value, k);
    }
  }

  /** Fail to omission: a managed link survives only if its verb is granted. */
  lemma PresentOnlyIfGranted(links: LinkSet, z: Authz, i: nat)
    requires i < |Managed|
    requires Managed[i].name in AuthorizedLinks(links, Some(z))
    ensures Granted(Managed[i], z)
  {
    ManagedOutcome(links, z, i);
  }

  /** A managed link whose verb is not granted is withdrawn, even if it was present. */
  lemma UngrantedRemoved(links: LinkSet, z: Authz, i: nat)
    requires i < |Managed|
    requires !Granted(Managed[i], z)
    ensures Managed[i].name !in AuthorizedLinks(links, Some(z))
  {
    ManagedOutcome(links, z, i);
  }

  /** A granted link whose method the schema disallows reads `blocked`, whether or
      not it was present. */
  lemma DisallowedBlocked(links: LinkSet, z: Authz, i: nat)
    requires i < |Managed|
    requires Granted(Managed[i], z) && Managed[i].httpMethod in z.disallowed
    ensures Current(AuthorizedLinks(links, Some(z)), Managed[i].name) == Some(BlockedValue)
  {
    ManagedOutcome(links, z, i);
  }

  /** `blocked` is never the result of a missing grant: a link reads `blocked` after
      authorisation only if it was granted and disallowed, or already read so. */
  lemma BlockedMeansDisallowed(links: LinkSet, z: Authz, i: nat)
    requires i < |Managed|
    requires Current(AuthorizedLinks(links, Some(z)), Managed[i].name) == Some(BlockedValue)
    ensures Granted(Managed[i], z)
    ensures Managed[i].httpMethod in z.disallowed || Current(links, Managed[i].name) == Some(BlockedValue)
  {
    ManagedOutcome(links, z, i);
    if Managed[i].name == "view" {
      var url := SelfLink(z.gvr, z.meta.namespace, z.meta.name);
      assert url[0] == '/' && BlockedValue[0] == 'b';
    }
  }

  /** With `get` granted and allowed, `view` is the instance's self link. */
  lemma ViewIsSelfLink(links: LinkSet, z: Authz)
    requires Grants(z.access, "get", GroupResourceOf(z.gvr), z.meta.namespace, z.meta.name)
    requires "GET" !in z.disallowed
    ensures Current(AuthorizedLinks(links, Some(z)), "view")
      == Some(SelfLink(z.gvr, z.meta.namespace, z.meta.name))
  {
    ManagedOutcome(links, z, 0);
  }

  /** `update`, `remove` and `patch` are never created: granted and allowed, they keep
      whatever entry they had. */
  lemma GrantedKept(links: LinkSet, z: Authz, i: nat)
    requires 1 <= i < |Managed|
    requires Granted(Managed[i], z) && Managed[i].httpMethod !in z.disallowed
    ensures Current(AuthorizedLinks(links, Some(z)), Managed[i].name) == Current(links, Managed[i].name)
  {
    ManagedOutcome(links, z, i);
  }

  /** The authorised link map is determined by the four outcomes and the untouched
      remaining keys. */
  lemma AuthorizedFromOutcomes(links: LinkSet, z: Authz, expected: LinkSet)
    requires forall i :: 0 <= i < |Managed| ==>
      Current(expected, Managed[i].name) == Wire(Decide(Managed[i], z, Current(links, Managed[i].name)))
    requires forall k :: k != "view" && k != "update" && k != "remove" && k != "patch" ==>
      Current(expected, k) == Current(links, k)
    ensures AuthorizedLinks(links, Some(z)) == expected
  {
    var r := AuthorizedLinks(links, Some(z));
    forall k ensures Current(r, k) == Current(expected, k) {
      if k == "view" { ManagedOutcome(links, z, 0); }
      else if k == "update" { ManagedOutcome(links, z, 1); }
      else if k == "remove" { ManagedOutcome(links, z, 2); }
      else if k == "patch" { ManagedOutcome(links, z, 3); }
      else { UnmanagedKept(links, Some(z), k); }
    }
    forall k ensures k in r <==> k in expected {
      assert Current(r, k) == Current(expected, k);
    }
    forall k | k in r ensures r[k] == expected[k] {
      assert Current(r, k) == Current(expected, k);
    }
  }
}
