/** The resource-type metadata and grants the formatter consults. */
module Resources {

  /** Group, version and resource of a resource type. The core group is "". */
  datatype GVR = GVR(group: string, version: string, resource: string)

  datatype GroupResource = GroupResource(group: string, resource: string)

  function GroupResourceOf(gvr: GVR): GroupResource
  {
    GroupResource(gvr.group, gvr.resource)
  }

  /**
   * A registered schema: its id, the `group`/`version`/`resource` attributes
   * ("" where the attribute is missing) and the HTTP methods listed as true under
   * `disallowMethods`.
   */
  datatype Schema = Schema(id: string, group: string, version: string, resource: string,
                           disallowMethods: set<string>)

  function SchemaGVR(s: Schema): GVR
  {
    GVR(s.group, s.version, s.resource)
  }

  /** The schema names a resource type: its `version` attribute is set. */
  predicate HasGVR(s: Schema)
  {
    s.version != ""
  }

  /** Namespace and name read through an object's metadata accessor. */
  datatype Meta = Meta(namespace: string, name: string)

  /** One grant of the caller's access set; `name` is "" for a collection-level grant. */
  datatype Grant = Grant(verb: string, gr: GroupResource, namespace: string, name: string)

  /** The caller's resolved grants. */
  type AccessSet = set<Grant>

  predicate Grants(access: AccessSet, verb: string, gr: GroupResource, namespace: string, name: string)
  {
    Grant(verb, gr, namespace, name) in access
  }
}
