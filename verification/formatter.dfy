/**
 * The per-resource formatter: given the request (caller, query, registered
 * schemas) and the caller's access set, it authorises the resource's links and,
 * for unstructured objects, attaches the permissions the request asked about.
 * It returns early, leaving the resource as given, when there is no schema, the
 * schema names no version, the object has no metadata accessor, there is no
 * caller or the caller has no access set.
 */
module Formatter {
  import opened Wrappers
  import opened Strings
  import opened Tree
  import opened Resources
  import opened Links
  import opened Authorizer
  import opened Permissions
  import Projection

  /** The object a resource wraps: a typed object, whose metadata accessor may be
      missing, or an unstructured body. The `body` here is the same map that a
      `Projection.Unstructured` holds as its `body` field: projecting an unstructured
      object means building that class from this body and reading its `body` back. */
  datatype ApiObject =
    | Typed(id: string, meta: Option<Meta>)
    | Unstructured(id: string, body: map<string, Value>)

  /** The string at `p` in an unstructured body, or "" when there is none. */
  function StringAt(body: map<string, Value>, p: seq<string>): string
  {
    match Get(Map(body), p)
    case Some(Str(s)) => s
    case _ => ""
  }

  /** Namespace and name through the object's metadata accessor; unstructured
      bodies always have one, reading `metadata.namespace` and `metadata.name`. */
  function MetaOf(o: ApiObject): (m: Option<Meta>)
    ensures o.Unstructured? ==> m.Some?
  {
    match o
    case Typed(_, meta) => meta
    case Unstructured(_, body) =>
      Some(Meta(StringAt(body, ["metadata", "namespace"]), StringAt(body, ["metadata", "name"])))
  }

  /** What the formatter reads from the request: the caller, if any, the query and
      the registered schemas by id. */
  datatype Request = Request(user: Option<string>, query: Projection.Query, schemas: map<string, Schema>)

  /** The access-set lookup: the access set of each caller it knows. */
  type AccessLookup = map<string, AccessSet>

  function AccessFor(req: Request, lookup: AccessLookup): (a: Option<AccessSet>)
    ensures a.Some? <==> req.user.Some? && req.user.value in lookup
  {
    match req.user
    case None => None
    case Some(u) => if u in lookup then Some(lookup[u]) else None
  }

  /** Everything authorisation needs, or nothing when any piece is missing. */
  function Authorization(access: Option<AccessSet>, schema: Option<Schema>, o: ApiObject): (z: Option<Authz>)
    ensures z.Some? <==> access.Some? && schema.Some? && HasGVR(schema.value) && MetaOf(o).Some?
    ensures z.Some? ==> z.value.gvr == SchemaGVR(schema.value) && z.value.meta == MetaOf(o).value
                        && z.value.access == access.value && z.value.disallowed == schema.value.disallowMethods
  {
    if access.None? || schema.None? || !HasGVR(schema.value) then None
    else match MetaOf(o)
      case None => None
      case Some(meta) => Some(Authz(SchemaGVR(schema.value), schema.value.disallowMethods, meta, access.value))
  }

  /** The resource names of `checkPermissions` (its first value, split at commas).
      A present but empty value still yields one name, the empty string, which no
      registered schema has. */
  function PermissionNames(query: Projection.Query): (names: Option<seq<string>>)
    ensures names.Some? <==> CheckPermissionsKey in query && |query[CheckPermissionsKey]| > 0
  {
    if CheckPermissionsKey in query && |query[CheckPermissionsKey]| > 0 then
      Some(Split(query[CheckPermissionsKey][0], ','))
    else None
  }

  /** The object after permission aggregation: an unstructured body gains the
      table under `resourcePermissions` when it is not empty. */
  function WithPermissions(o: ApiObject, z: Option<Authz>, req: Request): ApiObject
  {
    if z.Some? && o.Unstructured? && PermissionNames(req.query).Some? then
      var table := PermissionTable(PermissionNames(req.query).value, req.schemas, z.value.access, ScopeNamespace(o.id));
      if table == map[] then o
      else Unstructured(o.id, o.body[ResourcePermissionsKey := Encode(table)])
    else o
  }

  /** A resource on its way out: schema, object and links. */
  class RawResource {
    const schema: Option<Schema>
    var apiObject: ApiObject
    var links: LinkSet

    constructor (schema: Option<Schema>, apiObject: ApiObject, links: LinkSet)
      ensures this.schema == schema && this.apiObject == apiObject && this.links == links
    {
      this.schema := schema;
      this.apiObject := apiObject;
      this.links := links;
    }

    /** Decides the managed links one by one, in place. */
    method AuthorizeLinks(z: Authz)
      modifies this
      ensures links == FilterLinks(old(links), Managed, z)
      ensures apiObject == old(apiObject)
    {
      for i := 0 to |Managed|
        invariant links == FilterLinks(old(links), Managed[..i], z)
        invariant apiObject == old(apiObject)
      {
        var m := Managed[i];
        assert Managed[..i + 1][..i] == Managed[..i];
        if !Grants(z.access, m.verb, GroupResourceOf(z.gvr), z.meta.namespace, z.meta.name) {
          links := links - {m.name};
        } else if m.httpMethod in z.disallowed {
          links := links[m.name := BlockedValue];
        } else if m.name == "view" {
          links := links[m.name := SelfLink(z.gvr, z.meta.namespace, z.meta.name)];
        }
      }
      assert Managed[..|Managed|] == Managed;
    }

    /** Formats the resource for the request. */
    method Format(req: Request, lookup: AccessLookup)
      modifies this
      ensures links == AuthorizedLinks(old(links), Authorization(AccessFor(req, lookup), schema, old(apiObject)))
      ensures apiObject == WithPermissions(old(apiObject), Authorization(AccessFor(req, lookup), schema, old(apiObject)), req)
    {
      var z := Authorization(AccessFor(req, lookup), schema, apiObject);
      if z.None? {
        return;
      }
      AuthorizeLinks(z.value);
      if apiObject.Unstructured? {
        var names := PermissionNames(req.query);
        if names.Some? {
          var table := CheckPermissions(names.value, req.schemas, z.value.access, ScopeNamespace(apiObject.id));
          if table != map[] {
            apiObject := Unstructured(apiObject.id, apiObject.body[ResourcePermissionsKey := Encode(table)]);
          }
        }
      }
    }
  }

  // ---------------------------------------------------------------- what formatting promises

  /** With no schema, no version, no accessor, no caller or no access set, the links
      pass through unchanged and no permissions are attached. */
  lemma PassThroughCases(links: LinkSet, schema: Option<Schema>, o: ApiObject, req: Request,
                         lookup: AccessLookup)
    requires schema.None? || !HasGVR(schema.value) || MetaOf(o).None? || req.user.None?
             || req.user.value !in lookup
    ensures AuthorizedLinks(links, Authorization(AccessFor(req, lookup), schema, o)) == links
    ensures WithPermissions(o, Authorization(AccessFor(req, lookup), schema, o), req) == o
  {
  }

  /** Typed objects never receive a permission table. */
  lemma TypedUntouched(o: ApiObject, z: Option<Authz>, req: Request)
    requires o.Typed?
    ensures WithPermissions(o, z, req) == o
  {
  }

  /** When aggregation runs and finds something, the table is stored under
      `resourcePermissions` and every other body key is kept. */
  lemma PermissionsAttached(o: ApiObject, z: Authz, req: Request)
    requires o.Unstructured? && PermissionNames(req.query).Some?
    requires PermissionTable(PermissionNames(req.query).value, req.schemas, z.access, ScopeNamespace(o.id)) != map[]
    ensures var r := WithPermissions(o, Some(z), req);
      r.Unstructured? && r.id == o.id
      && ResourcePermissionsKey in r.body
      && r.body[ResourcePermissionsKey]
         == Encode(PermissionTable(PermissionNames(req.query).value, req.schemas, z.access, ScopeNamespace(o.id)))
      && forall k :: k in o.body && k != ResourcePermissionsKey ==> k in r.body && r.body[k] == o.body[k]
  {
  }

  /** An empty table is never attached: the body stays as it was. */
  lemma EmptyTableOmitted(o: ApiObject, z: Authz, req: Request)
    requires o.Unstructured? && PermissionNames(req.query).Some?
    requires PermissionTable(PermissionNames(req.query).value, req.schemas, z.access, ScopeNamespace(o.id)) == map[]
    ensures WithPermissions(o, Some(z), req) == o
  {
  }
}
