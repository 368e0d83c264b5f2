/**
 * URLs the formatter writes: the self link of one resource instance (three
 * conventions, chosen by the group), the collection link of a resource type in
 * a namespace, and the namespace derived from a composite object id.
 */
module Links {
  import opened Strings
  import opened Resources

  /** The platform's own management group, served under the `/v1/` shorthand. */
  const ManagementGroup: string := "management.cattle.io"

  /** `/namespaces/<ns>`, or nothing for a cluster-scoped object. */
  function NamespaceSegment(namespace: string): string
  {
    if namespace == "" then "" else "/namespaces/" + namespace
  }

  /** `/<ns>`, the shorter namespace step of the management shorthand, or nothing. */
  function ScopeSegment(namespace: string): string
  {
    if namespace == "" then "" else "/" + namespace
  }

  /** The canonical URL of one instance; it is always an absolute path. */
  function SelfLink(gvr: GVR, namespace: string, name: string): (url: string)
    ensures |url| > 0 && url[0] == '/'
  {
    if gvr.group == "" then
      "/api/" + gvr.version + NamespaceSegment(namespace) + "/" + gvr.resource + "/" + name
    else if gvr.group == ManagementGroup then
      "/v1/" + gvr.group + "." + gvr.resource + ScopeSegment(namespace) + "/" + name
    else
      "/apis/" + gvr.group + "/" + gvr.version + NamespaceSegment(namespace) + "/" + gvr.resource + "/" + name
  }

  /** The list-level URL of a resource type within a namespace: `/api/<version>` for
      the core group, `/apis/<group>/<version>` for every other group (the management
      group included). */
  function CollectionLink(gvr: GVR, namespace: string): (url: string)
    ensures |url| > 0 && url[0] == '/'
  {
    if gvr.group == "" then
      "/api/" + gvr.version + NamespaceSegment(namespace) + "/" + gvr.resource
    else
      "/apis/" + gvr.group + "/" + gvr.version + NamespaceSegment(namespace) + "/" + gvr.resource
  }

  /** The namespace that scopes checks below a composite object id: `cluster/project`
      becomes `cluster-project`. */
  function ScopeNamespace(id: string): string
  {
    Join(Split(id, '/'), '-')
  }

  // ---------------------------------------------------------------- self link as segments

  /** The `/`-separated segments of a self link, written out per convention. */
  function SelfLinkSegments(gvr: GVR, namespace: string, name: string): (segs: seq<string>)
    ensures |segs| >= 1
  {
    var ns := if namespace == "" then [] else ["namespaces", namespace];
    if gvr.group == "" then
      ["", "api", gvr.version] + ns + [gvr.resource, name]
    else if gvr.group == ManagementGroup then
      ["", "v1", gvr.group + "." + gvr.resource] + (if namespace == "" then [] else [namespace]) + [name]
    else
      ["", "apis", gvr.group, gvr.version] + ns + [gvr.resource, name]
  }

  predicate SlashFree(s: string) { '/' !in s }

  /** The components of a resource reference contain no `/`. */
  predicate PlainComponents(gvr: GVR, namespace: string, name: string)
  {
    SlashFree(gvr.group) && SlashFree(gvr.version) && SlashFree(gvr.resource)
    && SlashFree(namespace) && SlashFree(name)
  }

  lemma JoinCons(head: string, tail: seq<string>, sep: char)
    requires |tail| >= 1
    ensures Join([head] + tail, sep) == head + [sep] + Join(tail, sep)
  {
    assert ([head] + tail)[1..] == tail;
  }

  lemma JoinTwo(a: string, b: string, sep: char)
    ensures Join([a, b], sep) == a + [sep] + b
  {
    JoinCons(a, [b], sep);
  }

  // The six shapes of a self link, each glued from its segments.

  lemma CoreNamespacedIsJoin(v: string, ns: string, r: string, name: string)
    ensures "/api/" + v + ("/namespaces/" + ns) + "/" + r + "/" + name
      == Join(["", "api", v, "namespaces", ns, r, name], '/')
  {
    var tail := v + ("/namespaces/" + ns) + "/" + r + "/" + name;
    VersionNamespacedIsJoin(v, ns, r, name);
    JoinCons("api", [v, "namespaces", ns, r, name], '/');
    JoinCons("", ["api", v, "namespaces", ns, r, name], '/');
    assert ["", "api", v, "namespaces", ns, r, name] == [""] + ["api", v, "namespaces", ns, r, name];
    assert "/api/" + v + ("/namespaces/" + ns) + "/" + r + "/" + name == "" + "/" + ("api" + "/" + tail);
  }

  lemma CoreClusterIsJoin(v: string, r: string, name: string)
    ensures "/api/" + v + "" + "/" + r + "/" + name == Join(["", "api", v, r, name], '/')
  {
    JoinTwo(r, name, '/');
    JoinCons(v, [r, name], '/');
    JoinCons("api", [v, r, name], '/');
    JoinCons("", ["api", v, r, name], '/');
    assert ["", "api", v, r, name] == [""] + ["api", v, r, name];
  }

  lemma ManagementNamespacedIsJoin(gr: string, ns: string, name: string)
    ensures "/v1/" + gr + ("/" + ns) + "/" + name == Join(["", "v1", gr, ns, name], '/')
  {
    JoinTwo(ns, name, '/');
    JoinCons(gr, [ns, name], '/');
    JoinCons("v1", [gr, ns, name], '/');
    JoinCons("", ["v1", gr, ns, name], '/');
    assert ["", "v1", gr, ns, name] == [""] + ["v1", gr, ns, name];
  }

  lemma ManagementClusterIsJoin(gr: string, name: string)
    ensures "/v1/" + gr + "" + "/" + name == Join(["", "v1", gr, name], '/')
  {
    JoinTwo(gr, name, '/');
    JoinCons("v1", [gr, name], '/');
    JoinCons("", ["v1", gr, name], '/');
    assert ["", "v1", gr, name] == [""] + ["v1", gr, name];
  }

  lemma VersionNamespacedIsJoin(v: string, ns: string, r: string, name: string)
    ensures v + ("/namespaces/" + ns) + "/" + r + "/" + name == Join([v, "namespaces", ns, r, name], '/')
  {
    JoinTwo(r, name, '/');
    JoinCons(ns, [r, name], '/');
    JoinCons("namespaces", [ns, r, name], '/');
    JoinCons(v, ["namespaces", ns, r, name], '/');
  }

  lemma GroupNamespacedIsJoin(g: string, v: string, ns: string, r: string, name: string)
    ensures "/apis/" + g + "/" + v + ("/namespaces/" + ns) + "/" + r + "/" + name
      == Join(["", "apis", g, v, "namespaces", ns, r, name], '/')
  {
    var tail := v + ("/namespaces/" + ns) + "/" + r + "/" + name;
    VersionNamespacedIsJoin(v, ns, r, name);
    JoinCons(g, [v, "namespaces", ns, r, name], '/');
    JoinCons("apis", [g, v, "namespaces", ns, r, name], '/');
    JoinCons("", ["apis", g, v, "namespaces", ns, r, name], '/');
    assert ["", "apis", g, v, "namespaces", ns, r, name] == [""] + ["apis", g, v, "namespaces", ns, r, name];
    assert "/apis/" + g + "/" + v + ("/namespaces/" + ns) + "/" + r + "/" + name
      == "" + "/" + ("apis" + "/" + (g + "/" + tail));
  }

  lemma GroupClusterIsJoin(g: string, v: string, r: string, name: string)
    ensures "/apis/" + g + "/" + v + "" + "/" + r + "/" + name == Join(["", "apis", g, v, r, name], '/')
  {
    JoinTwo(r, name, '/');
    JoinCons(v, [r, name], '/');
    JoinCons(g, [v, r, name], '/');
    JoinCons("apis", [g, v, r, name], '/');
    JoinCons("", ["apis", g, v, r, name], '/');
    assert ["", "apis", g, v, r, name] == [""] + ["apis", g, v, r, name];
  }

  /** The self link is its segment list glued with `/`. */
  lemma SelfLinkIsJoin(gvr: GVR, namespace: string, name: string)
    ensures SelfLink(gvr, namespace, name) == Join(SelfLinkSegments(gvr, namespace, name), '/')
  {
    var g, v, r := gvr.group, gvr.version, gvr.resource;
    if g == "" {
      if namespace == "" {
        CoreClusterIsJoin(v, r, name);
        assert SelfLinkSegments(gvr, namespace, name) == ["", "api", v, r, name];
      } else {
        CoreNamespacedIsJoin(v, namespace, r, name);
        assert SelfLink(gvr, namespace, name)
          == "/api/" + v + ("/namespaces/" + namespace) + "/" + r + "/" + name;
        assert SelfLinkSegments(gvr, namespace, name) == ["", "api", v, "namespaces", namespace, r, name];
      }
    } else if g == ManagementGroup {
      var gr := g + "." + r;
      assert "/v1/" + g + "." + r == "/v1/" + gr;
      if namespace == "" {
        ManagementClusterIsJoin(gr, name);
        assert SelfLink(gvr, namespace, name) == "/v1/" + gr + "" + "/" + name;
        assert SelfLinkSegments(gvr, namespace, name) == ["", "v1", gr, name];
      } else {
        ManagementNamespacedIsJoin(gr, namespace, name);
        assert SelfLink(gvr, namespace, name) == "/v1/" + gr + ("/" + namespace) + "/" + name;
        assert SelfLinkSegments(gvr, namespace, name) == ["", "v1", gr, namespace, name];
      }
    } else {
      if namespace == "" {
        GroupClusterIsJoin(g, v, r, name);
        assert SelfLinkSegments(gvr, namespace, name) == ["", "apis", g, v, r, name];
      } else {
        GroupNamespacedIsJoin(g, v, namespace, r, name);
        assert SelfLink(gvr, namespace, name)
          == "/apis/" + g + "/" + v + ("/namespaces/" + namespace) + "/" + r + "/" + name;
        assert SelfLinkSegments(gvr, namespace, name) == ["", "apis", g, v, "namespaces", namespace, r, name];
      }
    }
  }

  /** Splitting a self link at `/` recovers its segments: the URL can be read back. */
  lemma SelfLinkParses(gvr: GVR, namespace: string, name: string)
    requires PlainComponents(gvr, namespace, name)
    ensures Split(SelfLink(gvr, namespace, name), '/') == SelfLinkSegments(gvr, namespace, name)
  {
    SelfLinkIsJoin(gvr, namespace, name);
    var segs := SelfLinkSegments(gvr, namespace, name);
    forall i | 0 <= i < |segs| ensures '/' !in segs[i] {
      if gvr.group == ManagementGroup && segs[i] == gvr.group + "." + gvr.resource {
        assert forall c :: c in segs[i] ==> c in gvr.group || c in "." || c in gvr.resource;
      }
    }
    SplitJoin(segs, '/');
  }

  /** The segment list of a self link determines the namespace and the name. */
  lemma SegmentsDetermine(gvr: GVR, ns1: string, name1: string, ns2: string, name2: string)
    requires SelfLinkSegments(gvr, ns1, name1) == SelfLinkSegments(gvr, ns2, name2)
    ensures ns1 == ns2 && name1 == name2
  {
    var s1 := SelfLinkSegments(gvr, ns1, name1);
    var s2 := SelfLinkSegments(gvr, ns2, name2);
    assert s1[|s1| - 1] == name1 && s2[|s2| - 1] == name2;
    var k := if gvr.group == ManagementGroup then 3 else if gvr.group == "" then 3 else 4;
    assert |s1| == k + (if ns1 == "" then 0 else if gvr.group == ManagementGroup then 1 else 2) + 1 + (if gvr.group == ManagementGroup then 0 else 1);
    assert |s2| == k + (if ns2 == "" then 0 else if gvr.group == ManagementGroup then 1 else 2) + 1 + (if gvr.group == ManagementGroup then 0 else 1);
    if ns1 != "" {
      var at := if gvr.group == ManagementGroup then k else k + 1;
      assert s1[at] == ns1 && s2[at] == ns2;
    }
  }

  /** Two instances of one resource type get the same self link only if they are the
      same instance. */
  lemma SelfLinkInjective(gvr: GVR, ns1: string, name1: string, ns2: string, name2: string)
    requires PlainComponents(gvr, ns1, name1) && PlainComponents(gvr, ns2, name2)
    requires SelfLink(gvr, ns1, name1) == SelfLink(gvr, ns2, name2)
    ensures ns1 == ns2 && name1 == name2
  {
    SelfLinkParses(gvr, ns1, name1);
    SelfLinkParses(gvr, ns2, name2);
    SegmentsDetermine(gvr, ns1, name1, ns2, name2);
  }

  // ---------------------------------------------------------------- collection link as segments

  /** The `/`-separated segments of a collection link. */
  function CollectionSegments(gvr: GVR, namespace: string): seq<string>
  {
    var ns := if namespace == "" then [] else ["namespaces", namespace];
    if gvr.group == "" then ["", "api", gvr.version] + ns + [gvr.resource]
    else ["", "apis", gvr.group, gvr.version] + ns + [gvr.resource]
  }

  lemma SplitSnoc(a: string, b: string)
    requires SlashFree(b)
    ensures Split(a + "/" + b, '/') == Split(a, '/') + [b]
  {
    SplitConcat(a, b, '/');
    SplitWithoutSeparator(b, '/');
    assert a + "/" + b == a + ['/'] + b;
  }

  /** The version prefix of a collection link splits into its segments. */
  lemma CollectionHeadParses(gvr: GVR)
    requires SlashFree(gvr.group) && SlashFree(gvr.version)
    ensures gvr.group == "" ==> Split("/api/" + gvr.version, '/') == ["", "api", gvr.version]
    ensures gvr.group != "" ==> Split("/apis/" + gvr.group + "/" + gvr.version, '/') == ["", "apis", gvr.group, gvr.version]
  {
    var g, v := gvr.group, gvr.version;
    assert Split("", '/') == [""];
    if g == "" {
      SplitSnoc("", "api");
      SplitSnoc("" + "/" + "api", v);
      assert "/api/" + v == "" + "/" + "api" + "/" + v;
    } else {
      SplitSnoc("", "apis");
      SplitSnoc("" + "/" + "apis", g);
      SplitSnoc("" + "/" + "apis" + "/" + g, v);
      assert "/apis/" + g + "/" + v == "" + "/" + "apis" + "/" + g + "/" + v;
    }
  }

  /** Two slash-free segments appended after `a` split off as two parts. */
  lemma SplitSnocTwo(a: string, b: string, c: string)
    requires SlashFree(b) && SlashFree(c)
    ensures Split(a + "/" + b + "/" + c, '/') == Split(a, '/') + [b, c]
  {
    SplitSnoc(a, b);
    SplitSnoc(a + "/" + b, c);
  }

  lemma NamespaceSegmentGlue(head: string, namespace: string)
    requires namespace != ""
    ensures head + NamespaceSegment(namespace) == head + "/" + "namespaces" + "/" + namespace
  {
  }

  /** After a prefix that splits into `headSegs`, a namespace step adds its two segments. */
  lemma NamespaceParses(head: string, headSegs: seq<string>, namespace: string)
    requires Split(head, '/') == headSegs
    requires SlashFree(namespace) && namespace != ""
    ensures Split(head + NamespaceSegment(namespace), '/') == headSegs + ["namespaces", namespace]
  {
    NamespaceSegmentGlue(head, namespace);
    assert SlashFree("namespaces");
    SplitSnocTwo(head, "namespaces", namespace);
  }

  /** After a prefix that splits into `headSegs`, the namespace step and the resource
      add their own segments. */
  lemma CollectionTailParses(head: string, headSegs: seq<string>, namespace: string, resource: string)
    requires Split(head, '/') == headSegs
    requires SlashFree(namespace) && SlashFree(resource)
    ensures Split(head + NamespaceSegment(namespace) + "/" + resource, '/')
      == headSegs + (if namespace == "" then [] else ["namespaces", namespace]) + [resource]
  {
    if namespace == "" {
      assert head + NamespaceSegment(namespace) == head;
    } else {
      NamespaceParses(head, headSegs, namespace);
    }
    SplitSnoc(head + NamespaceSegment(namespace), resource);
  }

  /** Splitting a collection link at `/` recovers its segments: the resource type and
      namespace can be read back. */
  lemma CollectionLinkParses(gvr: GVR, namespace: string)
    requires SlashFree(gvr.group) && SlashFree(gvr.version) && SlashFree(gvr.resource) && SlashFree(namespace)
    ensures Split(CollectionLink(gvr, namespace), '/') == CollectionSegments(gvr, namespace)
  {
    CollectionHeadParses(gvr);
    if gvr.group == "" {
      CollectionTailParses("/api/" + gvr.version, ["", "api", gvr.version], namespace, gvr.resource);
    } else {
      CollectionTailParses("/apis/" + gvr.group + "/" + gvr.version, ["", "apis", gvr.group, gvr.version],
                           namespace, gvr.resource);
    }
  }

  /** Outside the management group, an instance's self link is its collection link
      followed by its name. */
  lemma SelfLinkExtendsCollection(gvr: GVR, namespace: string, name: string)
    requires gvr.group != ManagementGroup
    ensures SelfLink(gvr, namespace, name) == CollectionLink(gvr, namespace) + "/" + name
  {
  }

  /** Two resource types (or namespaces) share a collection link only if they are the
      same. */
  lemma CollectionLinkInjective(gvr1: GVR, ns1: string, gvr2: GVR, ns2: string)
    requires SlashFree(gvr1.group) && SlashFree(gvr1.version) && SlashFree(gvr1.resource) && SlashFree(ns1)
    requires SlashFree(gvr2.group) && SlashFree(gvr2.version) && SlashFree(gvr2.resource) && SlashFree(ns2)
    requires CollectionLink(gvr1, ns1) == CollectionLink(gvr2, ns2)
    ensures gvr1 == gvr2 && ns1 == ns2
  {
    CollectionLinkParses(gvr1, ns1);
    CollectionLinkParses(gvr2, ns2);
    var s1 := CollectionSegments(gvr1, ns1);
    var s2 := CollectionSegments(gvr2, ns2);
    assert s1 == s2;
    // "api" and "apis" tell the core group apart; the length then tells whether a
    // namespace is present.
    assert s1[1] == (if gvr1.group == "" then "api" else "apis");
    assert s2[1] == (if gvr2.group == "" then "api" else "apis");
    assert (gvr1.group == "") == (gvr2.group == "");
    var k := if gvr1.group == "" then 3 else 4;
    assert |s1| == k + (if ns1 == "" then 0 else 2) + 1;
    assert |s2| == k + (if ns2 == "" then 0 else 2) + 1;
    assert s1[|s1| - 1] == gvr1.resource && s2[|s2| - 1] == gvr2.resource;
    assert s1[k - 1] == gvr1.version && s2[k - 1] == gvr2.version;
    if gvr1.group != "" {
      assert s1[2] == gvr1.group && s2[2] == gvr2.group;
    }
    if ns1 != "" {
      assert s1[k + 1] == ns1 && s2[k + 1] == ns2;
    }
  }

  // The self links asserted for the five sample objects. Each literal is glued
  // piece by piece in a helper of its own, which keeps the solver's work small.

  lemma CoreExampleGlues()
    ensures "/api/" + "v1" + "/namespaces/cattle-system" + "/" + "pods" + "/" + "rancher"
      == "/api/v1/namespaces/cattle-system/pods/rancher"
  {
    assert "/api/" + "v1" == "/api/v1";
    assert "/api/v1" + "/namespaces/cattle-system" == "/api/v1/namespaces/cattle-system";
    assert "/api/v1/namespaces/cattle-system" + "/" == "/api/v1/namespaces/cattle-system/";
    assert "/api/v1/namespaces/cattle-system/" + "pods" == "/api/v1/namespaces/cattle-system/pods";
    assert "/api/v1/namespaces/cattle-system/pods" + "/" == "/api/v1/namespaces/cattle-system/pods/";
  }

  lemma SelfLinkCoreExample()
    ensures SelfLink(GVR("", "v1", "pods"), "cattle-system", "rancher")
      == "/api/v1/namespaces/cattle-system/pods/rancher"
  {
    CoreExampleGlues();
  }

  lemma GroupExampleGlues()
    ensures "/apis/" + "fake.group.io" + "/" + "v4" + "/namespaces/random-ns" + "/" + "new-crd" + "/" + "new-resource"
      == "/apis/fake.group.io/v4/namespaces/random-ns/new-crd/new-resource"
  {
    assert "/apis/" + "fake.group.io" == "/apis/fake.group.io";
    assert "/apis/fake.group.io" + "/" == "/apis/fake.group.io/";
    assert "/apis/fake.group.io/" + "v4" == "/apis/fake.group.io/v4";
    assert "/apis/fake.group.io/v4" + "/namespaces/random-ns" == "/apis/fake.group.io/v4/namespaces/random-ns";
    assert "/apis/fake.group.io/v4/namespaces/random-ns" + "/" == "/apis/fake.group.io/v4/namespaces/random-ns/";
    assert "/apis/fake.group.io/v4/namespaces/random-ns/" + "new-crd"
      == "/apis/fake.group.io/v4/namespaces/random-ns/new-crd";
    assert "/apis/fake.group.io/v4/namespaces/random-ns/new-crd" + "/"
      == "/apis/fake.group.io/v4/namespaces/random-ns/new-crd/";
  }

  lemma SelfLinkGroupExample()
    ensures SelfLink(GVR("fake.group.io", "v4", "new-crd"), "random-ns", "new-resource")
      == "/apis/fake.group.io/v4/namespaces/random-ns/new-crd/new-resource"
  {
    GroupExampleGlues();
  }

  lemma GroupClusterExampleGlues()
    ensures "/apis/" + "fake.group.io" + "/" + "v4" + "" + "/" + "new-crd" + "/" + "new-resource"
      == "/apis/fake.group.io/v4/new-crd/new-resource"
  {
    assert "/apis/" + "fake.group.io" == "/apis/fake.group.io";
    assert "/apis/fake.group.io" + "/" == "/apis/fake.group.io/";
    assert "/apis/fake.group.io/" + "v4" == "/apis/fake.group.io/v4";
    assert "/apis/fake.group.io/v4" + "" == "/apis/fake.group.io/v4";
    assert "/apis/fake.group.io/v4" + "/" == "/apis/fake.group.io/v4/";
    assert "/apis/fake.group.io/v4/" + "new-crd" == "/apis/fake.group.io/v4/new-crd";
    assert "/apis/fake.group.io/v4/new-crd" + "/" == "/apis/fake.group.io/v4/new-crd/";
  }

  lemma SelfLinkGroupClusterExample()
    ensures SelfLink(GVR("fake.group.io", "v4", "new-crd"), "", "new-resource")
      == "/apis/fake.group.io/v4/new-crd/new-resource"
  {
    GroupClusterExampleGlues();
  }

  lemma ManagementExampleGlues()
    ensures "/v1/" + "management.cattle.io" + "." + "cluster" + "" + "/" + "c-123xyz"
      == "/v1/management.cattle.io.cluster/c-123xyz"
  {
    assert "/v1/" + "management.cattle.io" == "/v1/management.cattle.io";
    assert "/v1/management.cattle.io" + "." == "/v1/management.cattle.io.";
    assert "/v1/management.cattle.io." + "cluster" == "/v1/management.cattle.io.cluster";
    assert "/v1/management.cattle.io.cluster" + "" == "/v1/management.cattle.io.cluster";
    assert "/v1/management.cattle.io.cluster" + "/" == "/v1/management.cattle.io.cluster/";
  }

  lemma SelfLinkManagementExample()
    ensures SelfLink(GVR("management.cattle.io", "v3", "cluster"), "", "c-123xyz")
      == "/v1/management.cattle.io.cluster/c-123xyz"
  {
    ManagementExampleGlues();
  }

  lemma ManagementTemplatesPrefixGlues()
    ensures "/v1/" + "management.cattle.io" + "." + "catalogtemplates" == "/v1/management.cattle.io.catalogtemplates"
  {
    assert "/v1/" + "management.cattle.io" == "/v1/management.cattle.io";
    assert "/v1/management.cattle.io" + "." == "/v1/management.cattle.io.";
  }

  lemma ManagementNamespacedExampleGlues()
    ensures "/v1/" + "management.cattle.io" + "." + "catalogtemplates" + "/cattle-global-data" + "/" + "built-in"
      == "/v1/management.cattle.io.catalogtemplates/cattle-global-data/built-in"
  {
    ManagementTemplatesPrefixGlues();
    assert "/v1/management.cattle.io.catalogtemplates" + "/cattle-global-data"
      == "/v1/management.cattle.io.catalogtemplates/cattle-global-data";
    assert "/v1/management.cattle.io.catalogtemplates/cattle-global-data" + "/"
      == "/v1/management.cattle.io.catalogtemplates/cattle-global-data/";
  }

  lemma SelfLinkManagementNamespacedExample()
    ensures SelfLink(GVR("management.cattle.io", "v3", "catalogtemplates"), "cattle-global-data", "built-in")
      == "/v1/management.cattle.io.catalogtemplates/cattle-global-data/built-in"
  {
    assert ScopeSegment("cattle-global-data") == "/cattle-global-data";
    ManagementNamespacedExampleGlues();
  }

  // ---------------------------------------------------------------- scoping namespace

  /** The scoping namespace is the id with every `/` turned into `-`. */
  lemma ScopeNamespaceReplaces(id: string)
    ensures ScopeNamespace(id) == Replace(id, '/', '-')
    ensures '/' !in ScopeNamespace(id)
  {
    JoinSplitReplaces(id, '/', '-');
  }

  /** `cluster/project` is scoped to `cluster-project`. */
  lemma ScopeNamespaceComposite(cluster: string, project: string)
    requires SlashFree(cluster) && SlashFree(project)
    ensures ScopeNamespace(cluster + "/" + project) == cluster + "-" + project
  {
    SplitConcat(cluster, project, '/');
    SplitWithoutSeparator(cluster, '/');
    SplitWithoutSeparator(project, '/');
    JoinTwo(cluster, project, '-');
  }

  /** A plain id scopes to itself. */
  lemma ScopeNamespacePlain(id: string)
    requires SlashFree(id)
    ensures ScopeNamespace(id) == id
  {
    SplitWithoutSeparator(id, '/');
  }
}
