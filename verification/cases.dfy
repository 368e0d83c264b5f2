/**
 * The formatter on the concrete resources of its test table: a pod in
 * `example-ns` and a deployment, each with a `default` link and some managed
 * links, and a project `clusterid/projectid` asking for the permissions of its
 * role-template bindings.
 */
module FormatterCases {
  import opened Wrappers
  import opened Strings
  import opened Tree
  import opened Resources
  import opened Links
  import opened Authorizer
  import opened Permissions
  import opened Formatter

  const Caller: string := "test-user"

  /** A request from the caller with no query and no registered schemas. */
  const CallerRequest: Request := Request(Some(Caller), map[], map[])

  function PodSchema(disallowed: set<string>): Schema
  {
    Schema("example", "", "v1", "pods", disallowed)
  }

  const Pod: ApiObject := Typed("example", Some(Meta("example-ns", "example-pod")))

  /** `verb` on the pod itself. */
  function PodGrant(verb: string): Grant
  {
    Grant(verb, GroupResource("", "pods"), "example-ns", "example-pod")
  }

  /** The links the pod's authorisation produces when the caller holds `access`. */
  function PodLinks(links: LinkSet, disallowed: set<string>, access: AccessSet): LinkSet
  {
    AuthorizedLinks(links, Authorization(AccessFor(CallerRequest, map[Caller := access]), Some(PodSchema(disallowed)), Pod))
  }

  function PodAuthz(disallowed: set<string>, access: AccessSet): Authz
  {
    Authz(GVR("", "v1", "pods"), disallowed, Meta("example-ns", "example-pod"), access)
  }

  lemma PodViewGlues()
    ensures "/api/" + "v1" + "/namespaces/example-ns" + "/" + "pods" + "/" + "example-pod"
      == "/api/v1/namespaces/example-ns/pods/example-pod"
  {
    assert "/api/" + "v1" == "/api/v1";
    assert "/api/v1" + "/namespaces/example-ns" == "/api/v1/namespaces/example-ns";
    assert "/api/v1/namespaces/example-ns" + "/" == "/api/v1/namespaces/example-ns/";
    assert "/api/v1/namespaces/example-ns/" + "pods" == "/api/v1/namespaces/example-ns/pods";
    assert "/api/v1/namespaces/example-ns/pods" + "/" == "/api/v1/namespaces/example-ns/pods/";
  }

  /** `get` granted: `view` appears with the pod's self link beside `default`. */
  lemma GetGrantedCase()
    ensures PodLinks(map["default" := "defaultVal"], {}, {PodGrant("get")})
      == map["default" := "defaultVal", "view" := "/api/v1/namespaces/example-ns/pods/example-pod"]
  {
    var z := PodAuthz({}, {PodGrant("get")});
    assert NamespaceSegment("example-ns") == "/namespaces/example-ns";
    PodViewGlues();
    assert SelfLink(z.gvr, z.meta.namespace, z.meta.name) == "/api/v1/namespaces/example-ns/pods/example-pod";
    AuthorizedFromOutcomes(map["default" := "defaultVal"], z,
      map["default" := "defaultVal", "view" := "/api/v1/namespaces/example-ns/pods/example-pod"]);
  }

  /** `get` granted but `GET` disallowed: `view` reads `blocked`. */
  lemma GetDisallowedCase()
    ensures PodLinks(map["default" := "defaultVal"], {"GET"}, {PodGrant("get")})
      == map["default" := "defaultVal", "view" := "blocked"]
  {
    AuthorizedFromOutcomes(map["default" := "defaultVal"], PodAuthz({"GET"}, {PodGrant("get")}),
      map["default" := "defaultVal", "view" := "blocked"]);
  }

  const PodUrl: string := "../v1/namespaces/example-ns/pods/example-pod"

  const PodEditLinks: LinkSet := map["default" := "defaultVal", "update" := PodUrl, "remove" := PodUrl]

  /** No grants: the existing `update` and `remove` links are withdrawn. */
  lemma NoGrantsCase()
    ensures PodLinks(PodEditLinks, {}, {}) == map["default" := "defaultVal"]
  {
    AuthorizedFromOutcomes(PodEditLinks, PodAuthz({}, {}), map["default" := "defaultVal"]);
  }

  /** `update` granted alone: `update` stays, `remove` goes. */
  lemma UpdateOnlyCase()
    ensures PodLinks(PodEditLinks, {}, {PodGrant("update")}) == map["default" := "defaultVal", "update" := PodUrl]
  {
    AuthorizedFromOutcomes(PodEditLinks, PodAuthz({}, {PodGrant("update")}),
      map["default" := "defaultVal", "update" := PodUrl]);
  }

  /** `delete` granted alone: `remove` stays, `update` goes. */
  lemma RemoveOnlyCase()
    ensures PodLinks(PodEditLinks, {}, {PodGrant("delete")}) == map["default" := "defaultVal", "remove" := PodUrl]
  {
    AuthorizedFromOutcomes(PodEditLinks, PodAuthz({}, {PodGrant("delete")}),
      map["default" := "defaultVal", "remove" := PodUrl]);
  }

  /** `update` and `delete` granted: both links stay as they were. */
  lemma UpdateRemoveCase()
    ensures PodLinks(PodEditLinks, {}, {PodGrant("update"), PodGrant("delete")}) == PodEditLinks
  {
    AuthorizedFromOutcomes(PodEditLinks, PodAuthz({}, {PodGrant("update"), PodGrant("delete")}), PodEditLinks);
  }

  /** `update` and `delete` granted but `PUT` and `DELETE` disallowed: both read
      `blocked`. */
  lemma UpdateRemoveBlockedCase()
    ensures PodLinks(PodEditLinks, {"PUT", "DELETE"}, {PodGrant("update"), PodGrant("delete")})
      == map["default" := "defaultVal", "update" := "blocked", "remove" := "blocked"]
  {
    AuthorizedFromOutcomes(PodEditLinks, PodAuthz({"PUT", "DELETE"}, {PodGrant("update"), PodGrant("delete")}),
      map["default" := "defaultVal", "update" := "blocked", "remove" := "blocked"]);
  }

  function DeploymentSchema(disallowed: set<string>): Schema
  {
    Schema("example", "apps", "v1", "deployments", disallowed)
  }

  const Deployment: ApiObject := Typed("example", Some(Meta("example-ns", "example-deployment")))

  const DeploymentPatchUrl: string := "/v1/apps.deployments/example-ns/example-deployment"

  const DeploymentLinks: LinkSet := map[
    "default" := "defaultVal",
    "patch" := DeploymentPatchUrl,
    "view" := "/apis/apps/v1/namespaces/example-ns/deployments/example-deployment"
  ]

  const PatchGrant: Grant := Grant("patch", GroupResource("apps", "deployments"), "example-ns", "example-deployment")

  /** `patch` granted alone: `patch` stays and the existing `view` is withdrawn. */
  lemma PatchOnlyCase()
    ensures AuthorizedLinks(DeploymentLinks,
              Authorization(AccessFor(CallerRequest, map[Caller := {PatchGrant}]), Some(DeploymentSchema({})), Deployment))
      == map["default" := "defaultVal", "patch" := DeploymentPatchUrl]
  {
    AuthorizedFromOutcomes(DeploymentLinks,
      Authz(GVR("apps", "v1", "deployments"), {}, Meta("example-ns", "example-deployment"), {PatchGrant}),
      map["default" := "defaultVal", "patch" := DeploymentPatchUrl]);
  }

  /** `patch` granted but `PATCH` disallowed: `patch` reads `blocked`. */
  lemma PatchBlockedCase()
    ensures AuthorizedLinks(DeploymentLinks,
              Authorization(AccessFor(CallerRequest, map[Caller := {PatchGrant}]), Some(DeploymentSchema({"PATCH"})), Deployment))
      == map["default" := "defaultVal", "patch" := "blocked"]
  {
    AuthorizedFromOutcomes(DeploymentLinks,
      Authz(GVR("apps", "v1", "deployments"), {"PATCH"}, Meta("example-ns", "example-deployment"), {PatchGrant}),
      map["default" := "defaultVal", "patch" := "blocked"]);
  }

  /** No schema, a schema without group, version or resource, an object without an
      accessor, no caller, or a caller the lookup does not know: the links come back
      as given. */
  lemma PassThroughCase(access: AccessSet)
    ensures AuthorizedLinks(map["default" := "defaultVal"],
              Authorization(AccessFor(CallerRequest, map[Caller := access]), None, Pod))
            == map["default" := "defaultVal"]
    ensures AuthorizedLinks(map["default" := "defaultVal"],
              Authorization(AccessFor(CallerRequest, map[Caller := access]), Some(Schema("example", "", "", "", {})), Pod))
            == map["default" := "defaultVal"]
    ensures AuthorizedLinks(map["default" := "defaultVal"],
              Authorization(AccessFor(CallerRequest, map[Caller := access]), Some(PodSchema({})), Typed("example", None)))
            == map["default" := "defaultVal"]
    ensures AuthorizedLinks(map["default" := "defaultVal"],
              Authorization(AccessFor(Request(None, map[], map[]), map[Caller := access]), Some(PodSchema({})), Pod))
            == map["default" := "defaultVal"]
    ensures AuthorizedLinks(map["default" := "defaultVal"],
              Authorization(AccessFor(CallerRequest, map[]), Some(PodSchema({})), Pod))
            == map["default" := "defaultVal"]
  {
  }

  // ---------------------------------------------------------------- permissions of a project

  const ProjectId: string := "clusterid/projectid"

  const ProjectSchema: Schema := Schema(ProjectId, "management.cattle.io", "v1", "projects", {})

  const Project: ApiObject := Unstructured(ProjectId, map[])

  const Bindings: string := "projectRoleTemplateBindings"

  /** The schema registered for a related resource type. */
  function RelatedSchema(name: string): Schema
  {
    Schema(name, "management.cattle.io", "v1", name, {})
  }

  /** `get`, `update` and `patch` on the project itself, and `verbs` on the bindings
      of the project's namespace. */
  function ProjectAccess(verbs: set<string>): AccessSet
  {
    (set verb | verb in {"get", "update", "patch"} :: Grant(verb, GroupResource("management.cattle.io", "projects"), "", ""))
    + (set verb | verb in verbs :: Grant(verb, GroupResource("management.cattle.io", Bindings), "clusterid-projectid", ""))
  }

  function ProjectRequest(checkPermissions: string): Request
  {
    Request(Some(Caller), map[CheckPermissionsKey := [checkPermissions]], map[Bindings := RelatedSchema(Bindings)])
  }

  /** The project after formatting when the caller holds `verbs` on the bindings. */
  function FormattedProject(checkPermissions: string, verbs: set<string>): ApiObject
  {
    var req := ProjectRequest(checkPermissions);
    WithPermissions(Project, Authorization(AccessFor(req, map[Caller := ProjectAccess(verbs)]), Some(ProjectSchema), Project), req)
  }

  // The bindings' collection link, glued one piece per lemma to keep each proof small.

  lemma BindingsLinkStep1()
    ensures "/apis/" + "management.cattle.io" + "/" == "/apis/management.cattle.io/"
  {
    assert "/apis/" + "management.cattle.io" == "/apis/management.cattle.io";
  }

  lemma BindingsLinkStep2()
    ensures "/apis/management.cattle.io/" + "v1" + "/namespaces/clusterid-projectid"
      == "/apis/management.cattle.io/v1/namespaces/clusterid-projectid"
  {
    assert "/apis/management.cattle.io/" + "v1" == "/apis/management.cattle.io/v1";
  }

  lemma BindingsLinkStep3()
    ensures "/apis/management.cattle.io/v1/namespaces/clusterid-projectid" + "/"
      == "/apis/management.cattle.io/v1/namespaces/clusterid-projectid/"
  {
  }

  lemma BindingsLinkStep4()
    ensures "/apis/management.cattle.io/v1/namespaces/clusterid-projectid/" + "projectRoleTemplateBindings"
      == "/apis/management.cattle.io/v1/namespaces/clusterid-projectid/projectRoleTemplateBindings"
  {
  }

  lemma BindingsLinkGlues()
    ensures "/apis/" + "management.cattle.io" + "/" + "v1" + "/namespaces/clusterid-projectid" + "/" + Bindings
      == "/apis/management.cattle.io/v1/namespaces/clusterid-projectid/projectRoleTemplateBindings"
  {
    BindingsLinkStep1();
    BindingsLinkStep2();
    BindingsLinkStep3();
    BindingsLinkStep4();
  }

  lemma ProjectIdGlues()
    ensures "clusterid" + "/" + "projectid" == ProjectId
    ensures "clusterid" + "-" + "projectid" == "clusterid-projectid"
  {
    assert "clusterid" + "/" == "clusterid/";
    assert "clusterid" + "-" == "clusterid-";
  }

  lemma ProjectNamespace()
    ensures ScopeNamespace(ProjectId) == "clusterid-projectid"
  {
    ProjectIdGlues();
    ScopeNamespaceComposite("clusterid", "projectid");
  }

  const BindingsGVR: GVR := GVR("management.cattle.io", "v1", Bindings)

  lemma BindingsLink()
    ensures CollectionLink(BindingsGVR, "clusterid-projectid")
      == "/apis/management.cattle.io/v1/namespaces/clusterid-projectid/projectRoleTemplateBindings"
  {
    assert NamespaceSegment("clusterid-projectid") == "/namespaces/clusterid-projectid";
    BindingsLinkGlues();
  }

  lemma BindingsVerbLinks()
    ensures var url := CollectionLink(BindingsGVR, "clusterid-projectid");
      VerbLinks(RelatedSchema(Bindings), ProjectAccess({"get", "list", "watch"}), "clusterid-projectid", PermissionVerbs)
      == map["get" := url, "list" := url, "watch" := url]
  {
    var url := CollectionLink(BindingsGVR, "clusterid-projectid");
    var access := ProjectAccess({"get", "list", "watch"});
    var links := VerbLinks(RelatedSchema(Bindings), access, "clusterid-projectid", PermissionVerbs);
    var gr := GroupResource("management.cattle.io", Bindings);
    assert Grant("get", gr, "clusterid-projectid", "") in access;
    assert Grant("list", gr, "clusterid-projectid", "") in access;
    assert Grant("watch", gr, "clusterid-projectid", "") in access;
    forall verb ensures verb in links <==> verb in map["get" := url, "list" := url, "watch" := url] {
      VerbRecorded(RelatedSchema(Bindings), access, "clusterid-projectid", verb);
    }
  }

  lemma BindingsTable()
    ensures var url := CollectionLink(BindingsGVR, "clusterid-projectid");
      PermissionTable([Bindings], map[Bindings := RelatedSchema(Bindings)], ProjectAccess({"get", "list", "watch"}),
                      "clusterid-projectid")
      == map[Bindings := map["get" := url, "list" := url, "watch" := url]]
  {
    var access := ProjectAccess({"get", "list", "watch"});
    var schemas := map[Bindings := RelatedSchema(Bindings)];
    var table := PermissionTable([Bindings], schemas, access, "clusterid-projectid");
    BindingsVerbLinks();
    assert "get" in PermissionVerbs
      && Grants(access, "get", GroupResourceOf(SchemaGVR(schemas[Bindings])), "clusterid-projectid", "");
    forall n ensures n in table <==> n == Bindings {
      TableEntry([Bindings], schemas, access, "clusterid-projectid", n);
    }
    TableEntry([Bindings], schemas, access, "clusterid-projectid", Bindings);
  }

  lemma ProjectAuthorized(verbs: set<string>, checkPermissions: string)
    ensures Authorization(AccessFor(ProjectRequest(checkPermissions), map[Caller := ProjectAccess(verbs)]),
                          Some(ProjectSchema), Project)
      == Some(Authz(GVR("management.cattle.io", "v1", "projects"), {}, Meta("", ""), ProjectAccess(verbs)))
  {
    assert Get(Map(map[]), ["metadata", "namespace"]) == None;
    assert Get(Map(map[]), ["metadata", "name"]) == None;
  }

  lemma BindingsNames()
    ensures PermissionNames(ProjectRequest(Bindings).query) == Some([Bindings])
  {
    SplitWithoutSeparator(Bindings, ',');
  }

  /** All three list-level verbs granted on the bindings: the project gains a
      `resourcePermissions` entry mapping each verb to the bindings' collection link
      in `clusterid-projectid`. */
  lemma BindingsPermissionsCase()
    ensures var url := "/apis/management.cattle.io/v1/namespaces/clusterid-projectid/projectRoleTemplateBindings";
      FormattedProject(Bindings, {"get", "list", "watch"})
      == Unstructured(ProjectId, map[ResourcePermissionsKey :=
           Encode(map[Bindings := map["get" := url, "list" := url, "watch" := url]])])
  {
    var req := ProjectRequest(Bindings);
    var access := ProjectAccess({"get", "list", "watch"});
    ProjectAuthorized({"get", "list", "watch"}, Bindings);
    BindingsNames();
    ProjectNamespace();
    BindingsTable();
    var url := CollectionLink(BindingsGVR, "clusterid-projectid");
    var table := map[Bindings := map["get" := url, "list" := url, "watch" := url]];
    assert PermissionNames(req.query).value == [Bindings];
    assert req.schemas == map[Bindings := RelatedSchema(Bindings)];
    assert ScopeNamespace(Project.id) == "clusterid-projectid";
    assert PermissionTable(PermissionNames(req.query).value, req.schemas, access, ScopeNamespace(Project.id)) == table;
    assert Bindings in table;
    BindingsLink();
  }

  /** The request of the unknown-resource case: `checkPermissions` is present with the
      empty value (no names were joined) and no schema is registered. */
  const EmptyCheckRequest: Request := Request(Some(Caller), map[CheckPermissionsKey := [""]], map[])

  /** An empty `checkPermissions`, no registered schemas and no grants beyond the
      project itself: the object stays unstructured, and with nothing found it is
      returned as it was. */
  lemma UnknownResourceCase()
    ensures var r := WithPermissions(Project, Authorization(AccessFor(EmptyCheckRequest, map[Caller := ProjectAccess({})]),
                                                            Some(ProjectSchema), Project), EmptyCheckRequest);
      r.Unstructured? && r == Project
  {
    assert Get(Map(map[]), ["metadata", "namespace"]) == None;
    assert Get(Map(map[]), ["metadata", "name"]) == None;
    assert Split("", ',') == [""];
    assert PermissionNames(EmptyCheckRequest.query) == Some([""]);
    assert PermissionTable([""], map[], ProjectAccess({}), ScopeNamespace(ProjectId)) == map[];
  }

  // ---------------------------------------------------------------- permissions of two resource types

  const Pods: string := "pods"

  const ProjectNs: string := "clusterid-projectid"

  /** `get`, `update` and `patch` on the project, and the three list-level verbs on
      every type in `related` within the project's namespace. */
  function RelatedAccess(related: set<string>): AccessSet
  {
    (set verb | verb in {"get", "update", "patch"} :: Grant(verb, GroupResource("management.cattle.io", "projects"), "", ""))
    + (set n, verb | n in related && verb in {"get", "list", "watch"}
         :: Grant(verb, GroupResource("management.cattle.io", n), ProjectNs, ""))
  }

  /** A request asking about `checkPermissions`, with bindings and pods registered. */
  function TwoTypesRequest(checkPermissions: string): Request
  {
    Request(Some(Caller), map[CheckPermissionsKey := [checkPermissions]],
            map[Bindings := RelatedSchema(Bindings), Pods := RelatedSchema(Pods)])
  }

  /** A related type's collection link in the project's namespace. */
  lemma RelatedLink(n: string)
    ensures CollectionLink(GVR("management.cattle.io", "v1", n), ProjectNs)
      == "/apis/management.cattle.io/v1/namespaces/clusterid-projectid/" + n
  {
    assert NamespaceSegment(ProjectNs) == "/namespaces/clusterid-projectid";
    BindingsLinkStep1();
    BindingsLinkStep2();
    BindingsLinkStep3();
  }

  lemma PodsLinkGlues()
    ensures "/apis/management.cattle.io/v1/namespaces/clusterid-projectid/" + Pods
      == "/apis/management.cattle.io/v1/namespaces/clusterid-projectid/pods"
  {
  }

  /** A registered related type whose three verbs are granted maps each verb to its
      collection link. */
  lemma RelatedVerbLinks(n: string, access: AccessSet)
    requires forall verb :: verb in PermissionVerbs ==> Grant(verb, GroupResource("management.cattle.io", n), ProjectNs, "") in access
    ensures var url := CollectionLink(GVR("management.cattle.io", "v1", n), ProjectNs);
      VerbLinks(RelatedSchema(n), access, ProjectNs, PermissionVerbs) == map["get" := url, "list" := url, "watch" := url]
  {
    var url := CollectionLink(GVR("management.cattle.io", "v1", n), ProjectNs);
    var links := VerbLinks(RelatedSchema(n), access, ProjectNs, PermissionVerbs);
    assert PermissionVerbs[0] == "get" && PermissionVerbs[1] == "list" && PermissionVerbs[2] == "watch";
    forall verb ensures verb in links <==> verb in map["get" := url, "list" := url, "watch" := url] {
      VerbRecorded(RelatedSchema(n), access, ProjectNs, verb);
    }
  }

  lemma RelatedGranted(n: string)
    requires n == Bindings || n == Pods
    ensures forall verb :: verb in PermissionVerbs ==>
              Grant(verb, GroupResource("management.cattle.io", n), ProjectNs, "") in RelatedAccess({Bindings, Pods})
  {
    forall verb | verb in PermissionVerbs
      ensures Grant(verb, GroupResource("management.cattle.io", n), ProjectNs, "") in RelatedAccess({Bindings, Pods})
    {
      assert n in {Bindings, Pods} && verb in {"get", "list", "watch"};
    }
  }

  lemma SplitTwo(a: string, b: string)
    requires ',' !in a && ',' !in b
    ensures Split(a + "," + b, ',') == [a, b]
  {
    SplitConcat(a, b, ',');
    SplitWithoutSeparator(a, ',');
    SplitWithoutSeparator(b, ',');
    assert a + "," + b == a + [','] + b;
  }

  /** Both names asked about, in either order, split into exactly those names. */
  lemma TwoTypesNames(first: string, second: string)
    requires (first == Bindings && second == Pods) || (first == Pods && second == Bindings)
    ensures PermissionNames(TwoTypesRequest(first + "," + second).query) == Some([first, second])
  {
    assert ',' !in Bindings;
    assert ',' !in Pods;
    SplitTwo(first, second);
  }

  /** The bindings' and the pods' links, written out. */
  function TwoTypesTableOf(): Table
  {
    var b := "/apis/management.cattle.io/v1/namespaces/clusterid-projectid/projectRoleTemplateBindings";
    var p := "/apis/management.cattle.io/v1/namespaces/clusterid-projectid/pods";
    map[Bindings := map["get" := b, "list" := b, "watch" := b], Pods := map["get" := p, "list" := p, "watch" := p]]
  }

  lemma TwoTypesKeys(first: string, second: string)
    requires (first == Bindings && second == Pods) || (first == Pods && second == Bindings)
    ensures PermissionTable([first, second], TwoTypesRequest("").schemas, RelatedAccess({Bindings, Pods}), ProjectNs).Keys
      == {Bindings, Pods}
  {
    var access := RelatedAccess({Bindings, Pods});
    var schemas := TwoTypesRequest("").schemas;
    var table := PermissionTable([first, second], schemas, access, ProjectNs);
    RelatedGranted(Bindings);
    RelatedGranted(Pods);
    assert "get" in PermissionVerbs;
    forall n ensures n in table <==> n == Bindings || n == Pods {
      TableEntry([first, second], schemas, access, ProjectNs, n);
    }
  }

  lemma RelatedEntry(first: string, second: string, n: string)
    requires (first == Bindings && second == Pods) || (first == Pods && second == Bindings)
    requires n == Bindings || n == Pods
    ensures var url := "/apis/management.cattle.io/v1/namespaces/clusterid-projectid/" + n;
      var table := PermissionTable([first, second], TwoTypesRequest("").schemas, RelatedAccess({Bindings, Pods}), ProjectNs);
      n in table && table[n] == map["get" := url, "list" := url, "watch" := url]
  {
    var access := RelatedAccess({Bindings, Pods});
    var schemas := TwoTypesRequest("").schemas;
    TwoTypesKeys(first, second);
    TableEntry([first, second], schemas, access, ProjectNs, n);
    assert schemas[n] == RelatedSchema(n);
    RelatedGranted(n);
    RelatedVerbLinks(n, access);
    RelatedLink(n);
  }

  lemma TwoTypesTable(first: string, second: string)
    requires (first == Bindings && second == Pods) || (first == Pods && second == Bindings)
    ensures PermissionTable([first, second], TwoTypesRequest("").schemas, RelatedAccess({Bindings, Pods}), ProjectNs)
      == TwoTypesTableOf()
  {
    TwoTypesKeys(first, second);
    RelatedEntry(first, second, Bindings);
    RelatedEntry(first, second, Pods);
    BindingsLinkStep4();
    PodsLinkGlues();
  }

  lemma TwoTypesAuthorized(checkPermissions: string)
    ensures Authorization(AccessFor(TwoTypesRequest(checkPermissions), map[Caller := RelatedAccess({Bindings, Pods})]),
                          Some(ProjectSchema), Project)
      == Some(Authz(GVR("management.cattle.io", "v1", "projects"), {}, Meta("", ""), RelatedAccess({Bindings, Pods})))
  {
    assert Get(Map(map[]), ["metadata", "namespace"]) == None;
    assert Get(Map(map[]), ["metadata", "name"]) == None;
  }

  /** Both bindings and pods asked about, in whichever order the names come: the
      project gains one entry per type, each verb mapped to that type's collection
      link in `clusterid-projectid`. */
  lemma TwoTypesPermissionsCase(first: string, second: string)
    requires (first == Bindings && second == Pods) || (first == Pods && second == Bindings)
    ensures var req := TwoTypesRequest(first + "," + second);
      WithPermissions(Project, Authorization(AccessFor(req, map[Caller := RelatedAccess({Bindings, Pods})]),
                                             Some(ProjectSchema), Project), req)
      == Unstructured(ProjectId, map[ResourcePermissionsKey := Encode(TwoTypesTableOf())])
  {
    var req := TwoTypesRequest(first + "," + second);
    var access := RelatedAccess({Bindings, Pods});
    TwoTypesAuthorized(first + "," + second);
    TwoTypesNames(first, second);
    ProjectNamespace();
    TwoTypesTable(first, second);
    assert PermissionNames(req.query).value == [first, second];
    assert req.schemas == TwoTypesRequest("").schemas;
    assert ScopeNamespace(Project.id) == ProjectNs;
    assert PermissionTable([first, second], req.schemas, access, ProjectNs) == TwoTypesTableOf();
    assert Bindings in TwoTypesTableOf();
  }
}
