# Resource formatter of the Steve API server

This project models the per-resource formatter of the Steve API server. The
formatter runs on every resource the server returns. The model covers five parts
of its behaviour:

- **Field projection.** The `include`, `exclude` and `excludeValues` query
  parameters shape an unstructured object's body along dotted field paths.
  `include` keeps only the named fields. `exclude` deletes them. `excludeValues`
  blanks every leaf under the named maps and keeps their keys and nesting.
- **Self links.** Each instance gets a canonical URL. Core resources use
  `/api/<version>/...` and the management group uses the `/v1/<group>.<resource>/...`
  shorthand. Every other group uses `/apis/<group>/<version>/...`.
- **Link authorisation.** The formatter manages four links: `view`, `update`,
  `remove` and `patch`. Each one is withdrawn when the caller lacks the matching
  verb on the instance. It reads `blocked` when the schema disallows the matching
  HTTP method. Otherwise it is kept, and `view` is set to the self link.
- **Resource-permission aggregation.** A request may name resource types in
  `checkPermissions=a,b`. For each one the formatter collects the list-level verbs
  (`get`, `list`, `watch`) the caller holds on the collection, in the namespace
  derived from the object's composite id (`cluster/project` becomes
  `cluster-project`). The result is attached to an unstructured object under
  `resourcePermissions`.
- **The formatter's early return.** Without a schema, a schema version, a metadata
  accessor, a caller, or an access set for the caller, the resource passes
  through unchanged.

Modules:

- `Wrappers`: `Option`.
- `Strings`: Go-style `Split`, `Join` and `Replace`, with round-trip lemmas.
- `Resources`: group/version/resource, schemas, grants and access sets.
- `Tree`: unstructured values. Nested get, put and remove follow the Kubernetes
  unstructured helpers: a put creates missing intermediate maps, and it changes
  nothing when an intermediate is not a map.
- `Projection`: the `Unstructured` object class and its three projection methods.
- `Links`: self links, collection links and the namespace of a composite id.
- `Authorizer`: the managed links and how each one is decided.
- `Permissions`: the permission table and the loops that compute it.
- `Formatter`: the `RawResource` class and its `Format` method.
- `FormatterCases`: the concrete resources of the formatter's test table, stated
  as lemmas.
- `ProjectionCases`: the objects of the projection test tables, stated as lemmas.

The formatter's implementation file is not part of this model. Its behaviour is
taken from `pkg/resources/common/formatter_test.go`. Every case asserted there is
restated as a lemma: in `FormatterCases` for links and permissions, and in
`ProjectionCases` for the projections. The projection cases take the objects'
scalar leaves (timestamps, names, uids, the certificate, annotation values) as
parameters, so each holds for any such values.

## Model

| member | source | states |
|---|---|---|
| Projection.Unstructured.IncludeFields | pkg/resources/common/formatter_test.go:31-195 | with `include` present, the body becomes the original's named fields copied into a fresh object; without it, the body is unchanged |
| Projection.IncludeShape | pkg/resources/common/formatter_test.go:38-186 | after `include`, a path under a named, resolvable field reads as in the original. A strict ancestor of such a field is a map. Any other path is absent |
| Projection.IncludeKeeps | pkg/resources/common/formatter_test.go:72-128 | every named field that resolves in the original keeps its value, sub fields included |
| Projection.IncludeNothing | pkg/resources/common/formatter_test.go:130-153 | when no named field resolves, the result is the empty object |
| Projection.IncludeTopLevel | pkg/resources/common/formatter_test.go:155-186 | a top-level key survives `include` if and only if some named, resolvable field starts with it |
| Projection.CoveredSnoc | pkg/resources/common/formatter_test.go:155-186 | adding one more named field adds its own coverage to the coverage of the fields before it |
| Projection.AncestorIsMap | pkg/resources/common/formatter_test.go:72-128 | every strict ancestor of a resolvable field is a map |
| Projection.Unstructured.ExcludeFields | pkg/resources/common/formatter_test.go:197-365 | with `exclude` present, the body becomes the original with each named field removed in turn; without it, the body is unchanged |
| Projection.ExcludeRemovesEach | pkg/resources/common/formatter_test.go:204-283 | after `exclude`, nothing at or below any named field resolves |
| Projection.ExcludeFromParent | pkg/resources/common/formatter_test.go:234-283 | excluding a sub field leaves its parent map with exactly that key gone |
| Projection.ExcludeUnresolved | pkg/resources/common/formatter_test.go:285-319 | naming only fields that do not resolve changes nothing |
| Projection.ExcludeKeepsOthers | pkg/resources/common/formatter_test.go:321-356 | paths unrelated to every named field keep their values |
| Projection.Unstructured.ExcludeValues | pkg/resources/common/formatter_test.go:367-562 | with `excludeValues` present, the body becomes the original with each named map blanked in turn; without it, the body is unchanged |
| Projection.RedactBlanksEach | pkg/resources/common/formatter_test.go:497-553 | with mutually unrelated named fields, each named map keeps its keys and every value becomes the empty string |
| Projection.RedactKeepsOthers | pkg/resources/common/formatter_test.go:411-459 | paths unrelated to every named field keep their values |
| Projection.RedactKeepsKeySets | pkg/resources/common/formatter_test.go:411-459 | maps at or above a named field keep their key sets |
| Projection.RedactUnresolved | pkg/resources/common/formatter_test.go:461-495 | naming only fields that do not resolve to a map changes nothing |
| Projection.PathsOf | pkg/resources/common/formatter_test.go:72-128 | each query value becomes the path of its dot-separated parts, in order |
| Tree.PutBelow | pkg/resources/common/formatter_test.go:72-128 | after writing at `p`, paths below `p` read from the written value |
| Tree.PutElsewhere | pkg/resources/common/formatter_test.go:155-186 | writing at `p` leaves unrelated paths unchanged |
| Tree.PutAbove | pkg/resources/common/formatter_test.go:72-128 | writing below an ancestor rebuilds that ancestor as a map holding the write |
| Tree.PutSame | pkg/resources/common/formatter_test.go:72-128 | writing back the value already at a path changes nothing |
| Tree.GetBelow | pkg/resources/common/formatter_test.go:72-128 | a nested lookup is a lookup of the prefix followed by a lookup of the rest |
| Tree.RemoveGone | pkg/resources/common/formatter_test.go:204-232 | after removing `p`, nothing at or below `p` resolves |
| Tree.RemoveElsewhere | pkg/resources/common/formatter_test.go:321-356 | removing `p` leaves unrelated paths unchanged |
| Tree.RemoveAbove | pkg/resources/common/formatter_test.go:234-283 | removing below an ancestor removes within that ancestor's value |
| Tree.RemoveMissing | pkg/resources/common/formatter_test.go:285-319 | removing a path that does not resolve changes nothing |
| Tree.RemoveNoAdd | pkg/resources/common/formatter_test.go:197-365 | removal never makes a path resolve |
| Tree.Blank | pkg/resources/common/formatter_test.go:375-409 | a blanked map has the same keys; a value that is a map is blanked in turn, and every other value becomes the empty string |
| Tree.BlankIdempotent | pkg/resources/common/formatter_test.go:375-409 | blanking an already blanked map changes nothing, so redacting a field inside a redacted field has no further effect |
| Tree.BlankBelow | pkg/resources/common/formatter_test.go:375-409 | below a blanked map, exactly the paths that resolved before still resolve, each to its old value blanked, so nested keys and nesting are kept |
| Tree.RedactBelow | pkg/resources/common/formatter_test.go:411-459 | at and below a redacted map, every path resolves exactly when it did before, to its old value blanked |
| Tree.RedactBlanks | pkg/resources/common/formatter_test.go:375-409 | redacting a map field blanks it in place |
| Tree.RedactElsewhere | pkg/resources/common/formatter_test.go:411-459 | redacting `p` leaves unrelated paths unchanged |
| Tree.RedactKeepsKeys | pkg/resources/common/formatter_test.go:411-459 | redaction keeps the key sets of the target and of its ancestors |
| Strings.Split | pkg/resources/common/formatter_test.go:72-128 | the split always has a part, and no part contains the separator |
| Strings.JoinSplitReplaces | pkg/resources/common/formatter_test.go:1283 | splitting at one character and joining with another replaces that character |
| Strings.JoinSplit | pkg/resources/common/formatter_test.go:1297-1302 | splitting and joining with the same separator gives the string back |
| Strings.SplitJoin | pkg/resources/common/formatter_test.go:1290-1302 | joining separator-free names and splitting them gives the names back |
| Strings.SplitConcat | pkg/resources/common/formatter_test.go:1290-1302 | a separator occurrence splits the two sides independently |
| Strings.SplitWithoutSeparator | pkg/resources/common/formatter_test.go:1297-1302 | a string without the separator is one part |
| Links.SelfLink | pkg/resources/common/formatter_test.go:564-631 | the self link is always an absolute path |
| Links.SelfLinkIsJoin | pkg/resources/common/formatter_test.go:574-616 | the self link is its convention's segments joined with `/` |
| Links.SelfLinkParses | pkg/resources/common/formatter_test.go:574-616 | with slash-free components, splitting the self link at `/` gives back exactly its segments |
| Links.SelfLinkInjective | pkg/resources/common/formatter_test.go:574-616 | with slash-free components, distinct instances of one type have distinct self links |
| Links.SelfLinkCoreExample | pkg/resources/common/formatter_test.go:575-582 | an empty group gives `/api/v1/namespaces/<ns>/<resource>/<name>` |
| Links.SelfLinkGroupExample | pkg/resources/common/formatter_test.go:584-591 | a third-party group gives `/apis/<group>/<version>/namespaces/<ns>/<resource>/<name>` |
| Links.SelfLinkGroupClusterExample | pkg/resources/common/formatter_test.go:593-599 | a cluster-scoped third-party object drops the namespace segment |
| Links.SelfLinkManagementExample | pkg/resources/common/formatter_test.go:601-607 | a cluster-scoped management object gives `/v1/<group>.<resource>/<name>` |
| Links.SelfLinkManagementNamespacedExample | pkg/resources/common/formatter_test.go:609-616 | a namespaced management object gives `/v1/<group>.<resource>/<ns>/<name>` |
| Links.CollectionLink | pkg/resources/common/formatter_test.go:1185-1187 | the collection link is an absolute path |
| Links.CollectionLinkParses | pkg/resources/common/formatter_test.go:1185-1187 | with slash-free components, splitting the collection link at `/` gives back `/apis/<group>/<version>[/namespaces/<ns>]/<resource>` segment by segment (`/api/<version>` for the core group) |
| Links.CollectionLinkInjective | pkg/resources/common/formatter_test.go:1216-1223 | with slash-free components, distinct resource types or namespaces get distinct collection links, as for the bindings and pods entries |
| Links.SelfLinkExtendsCollection | pkg/resources/common/formatter_test.go:575-599 | outside the management group, a self link is the collection link followed by the instance name |
| Links.ScopeNamespaceReplaces | pkg/resources/common/formatter_test.go:1283 | the namespace of a composite id is the id with every `/` replaced by `-` |
| Links.ScopeNamespaceComposite | pkg/resources/common/formatter_test.go:1283 | the id `cluster/project` scopes to `cluster-project` |
| Links.ScopeNamespacePlain | pkg/resources/common/formatter_test.go:1283 | an id without `/` is its own namespace |
| Authorizer.Decide | pkg/resources/common/formatter_test.go:652-1078 | a managed link is present only when granted, and reads `blocked` if and only if granted and disallowed. `view` is a link if and only if granted and allowed. The other three never get a URL they did not already have |
| Authorizer.Apply | pkg/resources/common/formatter_test.go:652-1078 | the named entry takes the outcome's wire form, and every other entry is unchanged |
| Authorizer.ManagedOutcome | pkg/resources/common/formatter_test.go:1089-1141 | after authorisation, each managed link holds the outcome decided on its original entry, independent of the order of the others |
| Authorizer.FilterManaged | pkg/resources/common/formatter_test.go:1089-1141 | with distinct link names, the fold leaves each decided key with its own outcome |
| Authorizer.FilterUnmanaged | pkg/resources/common/formatter_test.go:652-684 | the fold never touches a key no managed link names |
| Authorizer.ManagedDistinct | pkg/resources/common/formatter_test.go:1089-1141 | the four managed links have distinct names |
| Authorizer.UnmanagedKept | pkg/resources/common/formatter_test.go:652-684 | links other than the four managed ones, such as `default`, are never changed |
| Authorizer.PresentOnlyIfGranted | pkg/resources/common/formatter_test.go:827-858 | a managed link survives authorisation only if its verb is granted on the instance |
| Authorizer.UngrantedRemoved | pkg/resources/common/formatter_test.go:1007-1041 | a present managed link whose verb is not granted is withdrawn |
| Authorizer.DisallowedBlocked | pkg/resources/common/formatter_test.go:685-719 | a granted link whose HTTP method the schema disallows reads `blocked` |
| Authorizer.BlockedMeansDisallowed | pkg/resources/common/formatter_test.go:966-1006 | a link reads `blocked` only if it was granted, and disallowed or already `blocked` |
| Authorizer.ViewIsSelfLink | pkg/resources/common/formatter_test.go:652-684 | with `get` granted and `GET` allowed, `view` is the instance's self link |
| Authorizer.GrantedKept | pkg/resources/common/formatter_test.go:859-965 | a granted and allowed `update`, `remove` or `patch` keeps exactly the entry it had, present or absent |
| Authorizer.AuthorizedFromOutcomes | pkg/resources/common/formatter_test.go:1141 | the authorised link map is determined entirely by the four outcomes and the untouched other keys |
| Permissions.CheckVerbs | pkg/resources/common/formatter_test.go:1162-1190 | the verbs recorded are exactly those of `get`, `list` and `watch` granted on the collection, each mapped to the collection link |
| Permissions.CheckPermissions | pkg/resources/common/formatter_test.go:1147-1362 | the table computed name by name equals the permission table of all requested names |
| Permissions.VerbRecorded | pkg/resources/common/formatter_test.go:1162-1190 | a verb is recorded if and only if it is `get`, `list` or `watch` and granted on the collection in the scoping namespace. Its value is the collection link |
| Permissions.TableEntry | pkg/resources/common/formatter_test.go:1305-1327 | a name is in the table if and only if it was requested, has a registered schema and has a granted verb. Its entry is that schema's verb links |
| Permissions.UnknownNamesSkipped | pkg/resources/common/formatter_test.go:1228-1248 | names without a registered schema never appear |
| Permissions.Encode | pkg/resources/common/formatter_test.go:1344-1361 | the encoded table is a map with exactly the table's names |
| Permissions.EncodeReadsBack | pkg/resources/common/formatter_test.go:1344-1361 | each encoded entry reads back as a map with the same verbs, and each verb's string is its link |
| Formatter.MetaOf | pkg/resources/common/formatter_test.go:747-769 | unstructured objects always have a metadata accessor; typed ones may lack it |
| Formatter.AccessFor | pkg/resources/common/formatter_test.go:770-826 | an access set is found if and only if there is a caller and the lookup knows them |
| Formatter.Authorization | pkg/resources/common/formatter_test.go:720-826 | authorisation proceeds if and only if there is an access set, a schema with a version and an accessor. It then uses the schema's GVR, its disallowed methods and the object's namespace and name |
| Formatter.PermissionNames | pkg/resources/common/formatter_test.go:1297-1302 | resource names are read if and only if `checkPermissions` has a value; an empty value counts and yields the single name `""` |
| Formatter.RawResource.AuthorizeLinks | pkg/resources/common/formatter_test.go:1134-1141 | the links become the four managed links decided one by one, and the object is unchanged |
| Formatter.RawResource.Format | pkg/resources/common/formatter_test.go:1134-1141 | the links become the authorised links, and the object becomes the object with permissions, both under the request's authorisation |
| Formatter.PassThroughCases | pkg/resources/common/formatter_test.go:720-826 | with no schema, no version, no accessor, no caller or no access set, links and object come back unchanged |
| Formatter.TypedUntouched | pkg/resources/common/formatter_test.go:1344-1347 | typed objects never receive a permission table |
| Formatter.PermissionsAttached | pkg/resources/common/formatter_test.go:1344-1361 | a non-empty table is stored under `resourcePermissions`, and every other body key is kept |
| Formatter.EmptyTableOmitted | pkg/resources/common/formatter_test.go:1228-1248 | an empty table is not attached: the body stays exactly as it was |
| ProjectionCases.IncludeTopLevelCase | pkg/resources/common/formatter_test.go:38-70 | `include=metadata` leaves only the metadata map |
| ProjectionCases.IncludeSubFieldCase | pkg/resources/common/formatter_test.go:72-128 | `include=metadata.managedFields` leaves a metadata map holding only `managedFields` |
| ProjectionCases.IncludeInvalidCase | pkg/resources/common/formatter_test.go:130-153 | `include=foo.bar` leaves an empty object |
| ProjectionCases.IncludeMultipleCase | pkg/resources/common/formatter_test.go:155-186 | `include=kind,apiVersion,metadata.name` leaves `kind`, `apiVersion` and a metadata map holding only `name` |
| ProjectionCases.ExcludeTopLevelCase | pkg/resources/common/formatter_test.go:204-232 | `exclude=metadata` leaves only `data` |
| ProjectionCases.ExcludeSubFieldCase | pkg/resources/common/formatter_test.go:234-283 | `exclude=metadata.managedFields` gives the object without that field and otherwise unchanged |
| ProjectionCases.ExcludeInvalidCase | pkg/resources/common/formatter_test.go:285-319 | `exclude=foo.bar` changes nothing |
| ProjectionCases.ExcludeMultipleCase | pkg/resources/common/formatter_test.go:321-356 | `exclude=kind,apiVersion,metadata.name` drops both scalars and the name and keeps the other metadata and `data` |
| ProjectionCases.ExcludeTopLevelValueCase | pkg/resources/common/formatter_test.go:375-409 | `excludeValues=data` keeps `ca.crt` with an empty value and keeps the metadata |
| ProjectionCases.ExcludeSubFieldValueCase | pkg/resources/common/formatter_test.go:411-459 | `excludeValues=metadata.annotations` blanks the three annotations, and everything else is unchanged |
| ProjectionCases.ExcludeInvalidValueCase | pkg/resources/common/formatter_test.go:461-495 | `excludeValues=foo.bar` changes nothing |
| ProjectionCases.ExcludeMultipleValuesCase | pkg/resources/common/formatter_test.go:497-553 | `excludeValues=metadata.annotations,metadata.labels` blanks both maps, and everything else is unchanged |
| FormatterCases.GetGrantedCase | pkg/resources/common/formatter_test.go:652-684 | `get` on the pod adds `view` with `/api/v1/namespaces/example-ns/pods/example-pod` beside `default` |
| FormatterCases.GetDisallowedCase | pkg/resources/common/formatter_test.go:685-719 | `get` granted but `GET` disallowed gives `view: blocked` |
| FormatterCases.PassThroughCase | pkg/resources/common/formatter_test.go:720-826 | each of the five missing pieces leaves `default` alone |
| FormatterCases.NoGrantsCase | pkg/resources/common/formatter_test.go:827-858 | with no grants, `update` and `remove` are withdrawn |
| FormatterCases.UpdateOnlyCase | pkg/resources/common/formatter_test.go:859-893 | only `update` granted: `update` stays and `remove` goes |
| FormatterCases.RemoveOnlyCase | pkg/resources/common/formatter_test.go:894-928 | only `delete` granted: `remove` stays and `update` goes |
| FormatterCases.UpdateRemoveCase | pkg/resources/common/formatter_test.go:929-965 | both granted: the links come back as given |
| FormatterCases.UpdateRemoveBlockedCase | pkg/resources/common/formatter_test.go:966-1006 | both granted but `PUT` and `DELETE` disallowed: both read `blocked` |
| FormatterCases.PatchOnlyCase | pkg/resources/common/formatter_test.go:1007-1041 | only `patch` granted on the deployment: `patch` stays and the existing `view` is withdrawn |
| FormatterCases.PatchBlockedCase | pkg/resources/common/formatter_test.go:1042-1078 | `patch` granted but `PATCH` disallowed: `patch` reads `blocked` |
| FormatterCases.ProjectNamespace | pkg/resources/common/formatter_test.go:1283 | the project `clusterid/projectid` scopes to `clusterid-projectid` |
| FormatterCases.BindingsPermissionsCase | pkg/resources/common/formatter_test.go:1162-1190 | the project gains `resourcePermissions` with `get`, `list` and `watch` on the bindings' collection link |
| FormatterCases.TwoTypesPermissionsCase | pkg/resources/common/formatter_test.go:1192-1226 | asking for bindings and pods, in either order, gives one entry per type, each with its own collection link |
| FormatterCases.TwoTypesNames | pkg/resources/common/formatter_test.go:1290-1302 | the joined names, in either order, split back into exactly those names |
| FormatterCases.UnknownResourceCase | pkg/resources/common/formatter_test.go:1228-1248 | with an empty `checkPermissions` value, no registered schema and grants on the project only, the object stays unstructured; with nothing found it is returned unchanged |

## Left out

- The formatter's implementation file is not part of this model. Its behaviour is reconstructed from the assertions of `formatter_test.go`.
- Projection is modelled as three separate methods on the object. The order in which `Format` applies them to the body, and the summary and template processing around them, are not modelled.
- Projection.Unstructured.ExcludeValues: only map targets are blanked. A named field holding a scalar is left unchanged.
- Tree.Blank: a list inside a blanked map is a leaf and becomes the empty string; lists are not blanked element by element.
- Authorizer.Decide: the tests block only an `update`, `remove` or `patch` link that is already present (formatter_test.go:966-1006, 1042-1078). Adding `blocked` for an absent entry whose verb is granted and whose method is disallowed is a modelling choice that the tests do not check.
- Formatter.EmptyTableOmitted: leaving out an empty table is a modelling choice. The test with nothing to report (formatter_test.go:1228-1248) has no expected table, so it asserts only that the object stays unstructured.
- Links.CollectionLink: only management-group collection links appear in the tests (formatter_test.go:1185-1187, 1216-1223). For the core group, the model's `/api/<version>` form mirrors the self link and is a modelling choice.
- Links.ScopeNamespace: only the composite id `cluster/project` is fixed by the tests (formatter_test.go:1283). The model's rule for every other id, which replaces each `/` with `-` and leaves an id without `/` as it is, is a modelling choice.
- ProjectionCases: the scalar leaves of the test objects are parameters, not the literal strings of the tests. In the `excludeValues` cases the blanked leaves are string parameters. Each case therefore covers the literal object as one instance.
- Resources.Grants: an access set is an exact set of grants. Wildcard resource names, wildcard namespaces and the `*` verb of the real access sets are not modelled.
- Resources.HasGVR: a schema counts as having a GVR exactly when it names a version.
- Permissions.PermissionTable: each requested type uses its own registered schema's group, version and resource. The fallback to the parent resource's group is not modelled.
- Permissions.Encode: the result is a nested tree value. The Go type `map[string]map[string]string` is not modelled.
- HTTP plumbing, the URL builder, the summary cache, the mocked access-set lookup (modelled as a map from caller to access set), user context and parallel test execution are not modelled.
- The wire format of a request's query beyond a map from key to its list of values is not modelled.
