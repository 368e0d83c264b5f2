/**
 * The three projections on the objects of their test tables: a config map
 * holding a CA certificate (with or without `kind`/`apiVersion` and
 * `managedFields`) and a deployment with annotations and labels. Leaf values
 * are parameters, so each case holds for any timestamp, name, uid or
 * certificate the object carries.
 */
module ProjectionCases {
  import opened Wrappers
  import opened Strings
  import opened Tree
  import opened Projection

  /** The scalar metadata of the config map. */
  datatype Leaves = Leaves(created: Value, name: Value, namespace: Value, version: Value, uid: Value)

  function Metadata(l: Leaves): map<string, Value>
  {
    map["creationTimestamp" := l.created, "name" := l.name, "namespace" := l.namespace,
        "resourceVersion" := l.version, "uid" := l.uid]
  }

  /** The config map: metadata and a `data` map holding the certificate. */
  function ConfigMap(l: Leaves, cert: Value): map<string, Value>
  {
    map["metadata" := Map(Metadata(l)), "data" := Map(map["ca.crt" := cert])]
  }

  /** The config map with its metadata carrying `managedFields`. */
  function ManagedConfigMap(l: Leaves, cert: Value, managed: Value): map<string, Value>
  {
    map["metadata" := Map(Metadata(l)["managedFields" := managed]), "data" := Map(map["ca.crt" := cert])]
  }

  /** The config map with `apiVersion` and `kind`. */
  function KindedConfigMap(l: Leaves, cert: Value): map<string, Value>
  {
    map["apiVersion" := Str("v1"), "kind" := Str("ConfigMap"),
        "metadata" := Map(Metadata(l)), "data" := Map(map["ca.crt" := cert])]
  }

  /** The deployment: `apiVersion`, `kind`, metadata (the scalar leaves plus the
      maps in `maps`) and a spec with one replica. */
  function Deployment(l: Leaves, maps: map<string, Value>): map<string, Value>
  {
    map["apiVersion" := Str("apps/v1"), "kind" := Str("Deployment"),
        "metadata" := Map(Metadata(l) + maps), "spec" := Map(map["replicas" := Int(1)])]
  }

  function Annotations(revision: Value, release: Value, releaseNamespace: Value): map<string, Value>
  {
    map["deployment.kubernetes.io/revision" := revision, "meta.helm.sh/release-name" := release,
        "meta.helm.sh/release-namespace" := releaseNamespace]
  }

  function Labels(managedBy: Value, hash: Value): map<string, Value>
  {
    map["app.kubernetes.io/managed-by" := managedBy, "objectset.rio.cattle.io/hash" := hash]
  }

  const Empty: Value := Str("")

  // ---------------------------------------------------------------- dotted fields

  lemma OnePart(s: string)
    requires '.' !in s
    ensures PathOf(s) == [s]
  {
    SplitWithoutSeparator(s, '.');
  }

  lemma TwoParts(a: string, b: string)
    requires '.' !in a && '.' !in b
    ensures PathOf(a + "." + b) == [a, b]
  {
    SplitConcat(a, b, '.');
    SplitWithoutSeparator(a, '.');
    SplitWithoutSeparator(b, '.');
    assert a + "." + b == a + ['.'] + b;
  }

  lemma ManagedFieldsPath()
    ensures PathOf("metadata.managedFields") == ["metadata", "managedFields"]
  {
    assert "metadata" + "." + "managedFields" == "metadata.managedFields";
    TwoParts("metadata", "managedFields");
  }

  lemma NamePath()
    ensures PathOf("metadata.name") == ["metadata", "name"]
  {
    assert "metadata" + "." + "name" == "metadata.name";
    TwoParts("metadata", "name");
  }

  lemma FooBarPath()
    ensures PathOf("foo.bar") == ["foo", "bar"]
  {
    assert "foo" + "." + "bar" == "foo.bar";
    TwoParts("foo", "bar");
  }

  lemma AnnotationsPath()
    ensures PathOf("metadata.annotations") == ["metadata", "annotations"]
  {
    assert "metadata" + "." + "annotations" == "metadata.annotations";
    TwoParts("metadata", "annotations");
  }

  lemma LabelsPath()
    ensures PathOf("metadata.labels") == ["metadata", "labels"]
  {
    assert "metadata" + "." + "labels" == "metadata.labels";
    TwoParts("metadata", "labels");
  }

  // ---------------------------------------------------------------- reading and writing one or two levels

  lemma GetTwo(m: map<string, Value>, a: string, b: string, g: map<string, Value>)
    requires a in m && m[a] == Map(g) && b in g
    ensures Get(Map(m), [a, b]) == Some(g[b])
  {
    assert [a, b][1..] == [b] && [b][1..] == [];
    assert Get(Map(m), [a, b]) == Get(Map(g), [b]);
    assert Get(Map(g), [b]) == Get(g[b], []);
  }

  lemma PutOne(m: map<string, Value>, a: string, x: Value)
    ensures Put(Map(m), [a], x) == Map(m[a := x])
  {
  }

  lemma PutTwoFresh(m: map<string, Value>, a: string, b: string, x: Value)
    requires a !in m
    ensures Put(Map(m), [a, b], x) == Map(m[a := Map(map[b := x])])
  {
    assert [a, b][1..] == [b] && [b][1..] == [];
    assert Put(Map(m), [a, b], x) == Map(m[a := Put(Map(map[]), [b], x)]);
    assert Put(Map(map[]), [b], x) == Map(map[b := Put(Map(map[]), [], x)]);
  }

  lemma PathsOfOne(f: string)
    ensures PathsOf([f]) == [PathOf(f)]
  {
  }

  lemma PathsOfTwo(f: string, g: string)
    ensures PathsOf([f, g]) == [PathOf(f), PathOf(g)]
  {
  }

  lemma PathsOfThree(f: string, g: string, h: string)
    ensures PathsOf([f, g, h]) == [PathOf(f), PathOf(g), PathOf(h)]
  {
  }

  lemma RemoveOne(m: map<string, Value>, a: string)
    ensures Remove(Map(m), [a]) == Map(m - {a})
  {
  }

  lemma RemoveTwo(m: map<string, Value>, a: string, b: string, g: map<string, Value>)
    requires a in m && m[a] == Map(g)
    ensures Remove(Map(m), [a, b]) == Map(m[a := Map(g - {b})])
  {
    assert [a, b][1..] == [b];
  }

  lemma RedactOne(m: map<string, Value>, a: string, g: map<string, Value>)
    requires a in m && m[a] == Map(g)
    ensures Redact(Map(m), [a]) == Map(m[a := Map(Blank(g))])
  {
    assert [a][1..] == [];
    assert Get(Map(m), [a]) == Get(m[a], []);
    assert Put(Map(m), [a], Map(Blank(g))) == Map(m[a := Put(m[a], [], Map(Blank(g)))]);
  }

  lemma RedactTwo(m: map<string, Value>, a: string, b: string, g: map<string, Value>, h: map<string, Value>)
    requires a in m && m[a] == Map(g) && b in g && g[b] == Map(h)
    ensures Redact(Map(m), [a, b]) == Map(m[a := Map(g[b := Map(Blank(h))])])
  {
    GetTwo(m, a, b, g);
    assert [a, b][1..] == [b] && [b][1..] == [];
    assert Put(Map(m), [a, b], Map(Blank(h))) == Map(m[a := Put(Map(g), [b], Map(Blank(h)))]);
    assert Put(Map(g), [b], Map(Blank(h))) == Map(g[b := Put(g[b], [], Map(Blank(h)))]);
  }

  // ---------------------------------------------------------------- one path at a time

  lemma IncludeStep(orig: Value, ps: seq<Path>, p: Path, x: Value)
    requires Get(orig, p) == Some(x)
    ensures IncludeInto(orig, ps + [p]) == Put(IncludeInto(orig, ps), p, x)
  {
    assert (ps + [p])[..|ps|] == ps;
  }

  lemma ExcludeStep(v: Value, ps: seq<Path>, p: Path)
    ensures ExcludeAll(v, ps + [p]) == Remove(ExcludeAll(v, ps), p)
  {
    assert (ps + [p])[..|ps|] == ps;
  }

  lemma RedactStep(v: Value, ps: seq<Path>, p: Path)
    ensures RedactAll(v, ps + [p]) == Redact(RedactAll(v, ps), p)
  {
    assert (ps + [p])[..|ps|] == ps;
  }

  // ---------------------------------------------------------------- include

  /** `include=metadata` keeps the metadata map and drops `data`. */
  lemma IncludeTopLevelCase(l: Leaves, cert: Value)
    ensures Include(ConfigMap(l, cert), PathsOf(["metadata"])) == map["metadata" := Map(Metadata(l))]
  {
    var orig := Map(ConfigMap(l, cert));
    var x := Map(Metadata(l));
    MetadataPaths();
    assert Get(orig, ["metadata"]) == Some(x) by {
      assert ConfigMap(l, cert)["metadata"] == x;
    }
    IncludeStep(orig, [], ["metadata"], x);
    assert Put(Map(map[]), ["metadata"], x) == Map(map["metadata" := x]);
  }

  /** `include=metadata.managedFields` keeps only that field inside a fresh metadata map. */
  lemma IncludeSubFieldCase(l: Leaves, cert: Value, managed: Value)
    ensures Include(ManagedConfigMap(l, cert, managed), PathsOf(["metadata.managedFields"]))
      == map["metadata" := Map(map["managedFields" := managed])]
  {
    var body := ManagedConfigMap(l, cert, managed);
    var p := ["metadata", "managedFields"];
    ManagedFieldsPaths();
    GetTwo(body, "metadata", "managedFields", Metadata(l)["managedFields" := managed]);
    IncludeStep(Map(body), [], p, managed);
    assert [] + [p] == [p];
    PutTwoFresh(map[], "metadata", "managedFields", managed);
  }

  /** `include=foo.bar`, which resolves nowhere, leaves an empty object. */
  lemma IncludeInvalidCase(l: Leaves, cert: Value)
    ensures Include(ConfigMap(l, cert), PathsOf(["foo.bar"])) == map[]
  {
    FooBarPath();
    PathsOfOne("foo.bar");
    assert "foo" !in ConfigMap(l, cert);
    IncludeNothing(Map(ConfigMap(l, cert)), [["foo", "bar"]]);
  }

  lemma IncludeTwo(orig: Value, p1: Path, p2: Path, x1: Value, x2: Value)
    requires Get(orig, p1) == Some(x1) && Get(orig, p2) == Some(x2)
    ensures IncludeInto(orig, [p1, p2]) == Put(Put(Map(map[]), p1, x1), p2, x2)
  {
    IncludeStep(orig, [], p1, x1);
    assert [] + [p1] == [p1];
    IncludeStep(orig, [p1], p2, x2);
    assert [p1] + [p2] == [p1, p2];
  }

  lemma IncludeThree(orig: Value, p1: Path, p2: Path, p3: Path, x1: Value, x2: Value, x3: Value)
    requires Get(orig, p1) == Some(x1) && Get(orig, p2) == Some(x2) && Get(orig, p3) == Some(x3)
    ensures IncludeInto(orig, [p1, p2, p3]) == Put(Put(Put(Map(map[]), p1, x1), p2, x2), p3, x3)
  {
    IncludeTwo(orig, p1, p2, x1, x2);
    IncludeStep(orig, [p1, p2], p3, x3);
    assert [p1, p2] + [p3] == [p1, p2, p3];
  }

  lemma MultiplePaths()
    ensures PathsOf(["kind", "apiVersion", "metadata.name"]) == [["kind"], ["apiVersion"], ["metadata", "name"]]
  {
    OnePart("kind");
    OnePart("apiVersion");
    NamePath();
    PathsOfThree("kind", "apiVersion", "metadata.name");
  }

  lemma IncludeMultipleFold(l: Leaves, cert: Value)
    ensures IncludeInto(Map(KindedConfigMap(l, cert)), [["kind"], ["apiVersion"], ["metadata", "name"]])
      == Put(Map(map["kind" := Str("ConfigMap"), "apiVersion" := Str("v1")]), ["metadata", "name"], l.name)
  {
    KindedGets(l, cert);
    IncludeThree(Map(KindedConfigMap(l, cert)), ["kind"], ["apiVersion"], ["metadata", "name"],
                 Str("ConfigMap"), Str("v1"), l.name);
    PutOne(map[], "kind", Str("ConfigMap"));
    PutOne(map["kind" := Str("ConfigMap")], "apiVersion", Str("v1"));
  }

  lemma IncludeMultipleResult(name: Value)
    ensures Put(Map(map["kind" := Str("ConfigMap"), "apiVersion" := Str("v1")]), ["metadata", "name"], name)
      == Map(map["apiVersion" := Str("v1"), "kind" := Str("ConfigMap"), "metadata" := Map(map["name" := name])])
  {
    var r2 := map["kind" := Str("ConfigMap"), "apiVersion" := Str("v1")];
    PutTwoFresh(r2, "metadata", "name", name);
    assert r2["metadata" := Map(map["name" := name])]
      == map["apiVersion" := Str("v1"), "kind" := Str("ConfigMap"), "metadata" := Map(map["name" := name])];
  }

  /** `include=kind,apiVersion,metadata.name` keeps the two scalars and the name. */
  lemma IncludeMultipleCase(l: Leaves, cert: Value)
    ensures Include(KindedConfigMap(l, cert), PathsOf(["kind", "apiVersion", "metadata.name"]))
      == map["apiVersion" := Str("v1"), "kind" := Str("ConfigMap"), "metadata" := Map(map["name" := l.name])]
  {
    MultiplePaths();
    IncludeMultipleFold(l, cert);
    IncludeMultipleResult(l.name);
  }

  lemma KindedGets(l: Leaves, cert: Value)
    ensures Get(Map(KindedConfigMap(l, cert)), ["kind"]) == Some(Str("ConfigMap"))
    ensures Get(Map(KindedConfigMap(l, cert)), ["apiVersion"]) == Some(Str("v1"))
    ensures Get(Map(KindedConfigMap(l, cert)), ["metadata", "name"]) == Some(l.name)
  {
    GetTwo(KindedConfigMap(l, cert), "metadata", "name", Metadata(l));
  }

  // ---------------------------------------------------------------- exclude

  lemma ExcludeOneFold(v: Value, p: Path)
    ensures ExcludeAll(v, [p]) == Remove(v, p)
  {
    ExcludeStep(v, [], p);
    assert [] + [p] == [p];
  }

  lemma MetadataPaths()
    ensures PathsOf(["metadata"]) == [["metadata"]]
  {
    OnePart("metadata");
    PathsOfOne("metadata");
  }

  lemma ManagedFieldsPaths()
    ensures PathsOf(["metadata.managedFields"]) == [["metadata", "managedFields"]]
  {
    ManagedFieldsPath();
    PathsOfOne("metadata.managedFields");
  }

  lemma WithoutMetadata(l: Leaves, cert: Value)
    ensures Remove(Map(ConfigMap(l, cert)), ["metadata"]) == Map(map["data" := Map(map["ca.crt" := cert])])
  {
    RemoveOne(ConfigMap(l, cert), "metadata");
    assert ConfigMap(l, cert) - {"metadata"} == map["data" := Map(map["ca.crt" := cert])];
  }

  /** `exclude=metadata` drops the metadata map and keeps `data`. */
  lemma ExcludeTopLevelCase(l: Leaves, cert: Value)
    ensures ExcludeAll(Map(ConfigMap(l, cert)), PathsOf(["metadata"])) == Map(map["data" := Map(map["ca.crt" := cert])])
  {
    MetadataPaths();
    ExcludeOneFold(Map(ConfigMap(l, cert)), ["metadata"]);
    WithoutMetadata(l, cert);
  }

  lemma WithoutManagedFields(l: Leaves, cert: Value, managed: Value)
    ensures Remove(Map(ManagedConfigMap(l, cert, managed)), ["metadata", "managedFields"]) == Map(ConfigMap(l, cert))
  {
    var body := ManagedConfigMap(l, cert, managed);
    var meta := Metadata(l)["managedFields" := managed];
    RemoveTwo(body, "metadata", "managedFields", meta);
    assert meta - {"managedFields"} == Metadata(l);
    assert body["metadata" := Map(Metadata(l))] == ConfigMap(l, cert);
  }

  /** `exclude=metadata.managedFields` deletes that field and keeps the rest of the
      metadata. */
  lemma ExcludeSubFieldCase(l: Leaves, cert: Value, managed: Value)
    ensures ExcludeAll(Map(ManagedConfigMap(l, cert, managed)), PathsOf(["metadata.managedFields"]))
      == Map(ConfigMap(l, cert))
  {
    ManagedFieldsPaths();
    ExcludeOneFold(Map(ManagedConfigMap(l, cert, managed)), ["metadata", "managedFields"]);
    WithoutManagedFields(l, cert, managed);
  }

  /** `exclude=foo.bar`, which resolves nowhere, changes nothing. */
  lemma ExcludeInvalidCase(l: Leaves, cert: Value)
    ensures ExcludeAll(Map(ConfigMap(l, cert)), PathsOf(["foo.bar"])) == Map(ConfigMap(l, cert))
  {
    FooBarPath();
    PathsOfOne("foo.bar");
    assert "foo" !in ConfigMap(l, cert);
    ExcludeUnresolved(Map(ConfigMap(l, cert)), [["foo", "bar"]]);
  }

  lemma ExcludeMultipleFold(v: Value, p1: Path, p2: Path, p3: Path)
    ensures ExcludeAll(v, [p1, p2, p3]) == Remove(Remove(Remove(v, p1), p2), p3)
  {
    ExcludeStep(v, [], p1);
    assert [] + [p1] == [p1];
    ExcludeStep(v, [p1], p2);
    assert [p1] + [p2] == [p1, p2];
    ExcludeStep(v, [p1, p2], p3);
    assert [p1, p2] + [p3] == [p1, p2, p3];
  }

  /** The config map's metadata without its name. */
  function NamelessMetadata(l: Leaves): map<string, Value>
  {
    map["creationTimestamp" := l.created, "namespace" := l.namespace, "resourceVersion" := l.version, "uid" := l.uid]
  }

  lemma ExcludeMultipleSteps(l: Leaves, cert: Value)
    ensures Remove(Remove(Remove(Map(KindedConfigMap(l, cert)), ["kind"]), ["apiVersion"]), ["metadata", "name"])
      == Map(map["metadata" := Map(NamelessMetadata(l)), "data" := Map(map["ca.crt" := cert])])
  {
    var body := KindedConfigMap(l, cert);
    RemoveOne(body, "kind");
    RemoveOne(body - {"kind"}, "apiVersion");
    var rest := body - {"kind"} - {"apiVersion"};
    assert rest == ConfigMap(l, cert);
    RemoveTwo(rest, "metadata", "name", Metadata(l));
    assert Metadata(l) - {"name"} == NamelessMetadata(l);
  }

  /** `exclude=kind,apiVersion,metadata.name` drops the two scalars and the name. */
  lemma ExcludeMultipleCase(l: Leaves, cert: Value)
    ensures ExcludeAll(Map(KindedConfigMap(l, cert)), PathsOf(["kind", "apiVersion", "metadata.name"]))
      == Map(map["metadata" := Map(NamelessMetadata(l)), "data" := Map(map["ca.crt" := cert])])
  {
    MultiplePaths();
    ExcludeMultipleFold(Map(KindedConfigMap(l, cert)), ["kind"], ["apiVersion"], ["metadata", "name"]);
    ExcludeMultipleSteps(l, cert);
  }

  // ---------------------------------------------------------------- excludeValues

  lemma RedactOneFold(v: Value, p: Path)
    ensures RedactAll(v, [p]) == Redact(v, p)
  {
    RedactStep(v, [], p);
    assert [] + [p] == [p];
  }

  lemma RedactTwoFold(v: Value, p1: Path, p2: Path)
    ensures RedactAll(v, [p1, p2]) == Redact(Redact(v, p1), p2)
  {
    RedactOneFold(v, p1);
    RedactStep(v, [p1], p2);
    assert [p1] + [p2] == [p1, p2];
  }

  lemma DataPaths()
    ensures PathsOf(["data"]) == [["data"]]
  {
    OnePart("data");
    PathsOfOne("data");
  }

  lemma AnnotationsPaths()
    ensures PathsOf(["metadata.annotations"]) == [["metadata", "annotations"]]
  {
    AnnotationsPath();
    PathsOfOne("metadata.annotations");
  }

  lemma BothPaths()
    ensures PathsOf(["metadata.annotations", "metadata.labels"]) == [["metadata", "annotations"], ["metadata", "labels"]]
  {
    AnnotationsPath();
    LabelsPath();
    PathsOfTwo("metadata.annotations", "metadata.labels");
  }

  lemma BlankedCertificate(cert: string)
    ensures Blank(map["ca.crt" := Str(cert)]) == map["ca.crt" := Empty]
  {
  }

  lemma BlankedAnnotations(revision: string, release: string, releaseNamespace: string)
    ensures Blank(Annotations(Str(revision), Str(release), Str(releaseNamespace))) == Annotations(Empty, Empty, Empty)
  {
  }

  lemma BlankedLabels(managedBy: string, hash: string)
    ensures Blank(Labels(Str(managedBy), Str(hash))) == Labels(Empty, Empty)
  {
  }

  lemma DataRedacted(l: Leaves, cert: string)
    ensures Redact(Map(ConfigMap(l, Str(cert))), ["data"])
      == Map(map["metadata" := Map(Metadata(l)), "data" := Map(map["ca.crt" := Empty])])
  {
    RedactOne(ConfigMap(l, Str(cert)), "data", map["ca.crt" := Str(cert)]);
    BlankedCertificate(cert);
    assert ConfigMap(l, Str(cert))["data" := Map(map["ca.crt" := Empty])]
      == map["metadata" := Map(Metadata(l)), "data" := Map(map["ca.crt" := Empty])];
  }

  /** `excludeValues=data` blanks the certificate and keeps its key. */
  lemma ExcludeTopLevelValueCase(l: Leaves, cert: string)
    ensures RedactAll(Map(ConfigMap(l, Str(cert))), PathsOf(["data"]))
      == Map(map["metadata" := Map(Metadata(l)), "data" := Map(map["ca.crt" := Empty])])
  {
    DataPaths();
    RedactOneFold(Map(ConfigMap(l, Str(cert))), ["data"]);
    DataRedacted(l, cert);
  }

  /** Blanking the map `key` of the deployment's metadata. */
  lemma MetadataMapRedacted(l: Leaves, maps: map<string, Value>, key: string, h: map<string, Value>)
    requires key in maps && maps[key] == Map(h)
    ensures Redact(Map(Deployment(l, maps)), ["metadata", key]) == Map(Deployment(l, maps[key := Map(Blank(h))]))
  {
    var meta := Metadata(l) + maps;
    RedactTwo(Deployment(l, maps), "metadata", key, meta, h);
    assert meta[key := Map(Blank(h))] == Metadata(l) + maps[key := Map(Blank(h))];
    assert Deployment(l, maps)["metadata" := Map(meta[key := Map(Blank(h))])]
      == Deployment(l, maps[key := Map(Blank(h))]);
  }

  lemma AnnotationsRedacted(l: Leaves, revision: string, release: string, releaseNamespace: string)
    ensures Redact(Map(Deployment(l, map["annotations" := Map(Annotations(Str(revision), Str(release), Str(releaseNamespace)))])),
                   ["metadata", "annotations"])
      == Map(Deployment(l, map["annotations" := Map(Annotations(Empty, Empty, Empty))]))
  {
    var a := Annotations(Str(revision), Str(release), Str(releaseNamespace));
    MetadataMapRedacted(l, map["annotations" := Map(a)], "annotations", a);
    BlankedAnnotations(revision, release, releaseNamespace);
    assert map["annotations" := Map(a)]["annotations" := Map(Blank(a))]
      == map["annotations" := Map(Annotations(Empty, Empty, Empty))];
  }

  /** `excludeValues=metadata.annotations` blanks every annotation and touches nothing
      else. */
  lemma ExcludeSubFieldValueCase(l: Leaves, revision: string, release: string, releaseNamespace: string)
    ensures RedactAll(Map(Deployment(l, map["annotations" := Map(Annotations(Str(revision), Str(release), Str(releaseNamespace)))])),
                      PathsOf(["metadata.annotations"]))
      == Map(Deployment(l, map["annotations" := Map(Annotations(Empty, Empty, Empty))]))
  {
    AnnotationsPaths();
    RedactOneFold(Map(Deployment(l, map["annotations" := Map(Annotations(Str(revision), Str(release), Str(releaseNamespace)))])),
                  ["metadata", "annotations"]);
    AnnotationsRedacted(l, revision, release, releaseNamespace);
  }

  /** `excludeValues=foo.bar`, which resolves nowhere, changes nothing. */
  lemma ExcludeInvalidValueCase(l: Leaves, cert: Value)
    ensures RedactAll(Map(ConfigMap(l, cert)), PathsOf(["foo.bar"])) == Map(ConfigMap(l, cert))
  {
    FooBarPath();
    PathsOfOne("foo.bar");
    assert "foo" !in ConfigMap(l, cert);
    RedactUnresolved(Map(ConfigMap(l, cert)), [["foo", "bar"]]);
  }

  /** The deployment's annotations and labels. */
  function Tagged(revision: Value, release: Value, releaseNamespace: Value, managedBy: Value, hash: Value)
    : map<string, Value>
  {
    map["annotations" := Map(Annotations(revision, release, releaseNamespace)), "labels" := Map(Labels(managedBy, hash))]
  }

  lemma TaggedAnnotationsRedacted(l: Leaves, revision: string, release: string, releaseNamespace: string,
                                  managedBy: string, hash: string)
    ensures Redact(Map(Deployment(l, Tagged(Str(revision), Str(release), Str(releaseNamespace), Str(managedBy), Str(hash)))),
                   ["metadata", "annotations"])
      == Map(Deployment(l, Tagged(Empty, Empty, Empty, Str(managedBy), Str(hash))))
  {
    var a := Annotations(Str(revision), Str(release), Str(releaseNamespace));
    var maps := Tagged(Str(revision), Str(release), Str(releaseNamespace), Str(managedBy), Str(hash));
    MetadataMapRedacted(l, maps, "annotations", a);
    BlankedAnnotations(revision, release, releaseNamespace);
    assert maps["annotations" := Map(Blank(a))] == Tagged(Empty, Empty, Empty, Str(managedBy), Str(hash));
  }

  lemma TaggedLabelsRedacted(l: Leaves, managedBy: string, hash: string)
    ensures Redact(Map(Deployment(l, Tagged(Empty, Empty, Empty, Str(managedBy), Str(hash)))), ["metadata", "labels"])
      == Map(Deployment(l, Tagged(Empty, Empty, Empty, Empty, Empty)))
  {
    var b := Labels(Str(managedBy), Str(hash));
    var maps := Tagged(Empty, Empty, Empty, Str(managedBy), Str(hash));
    MetadataMapRedacted(l, maps, "labels", b);
    BlankedLabels(managedBy, hash);
    assert maps["labels" := Map(Blank(b))] == Tagged(Empty, Empty, Empty, Empty, Empty);
  }

  /** `excludeValues=metadata.annotations,metadata.labels` blanks both maps. */
  lemma ExcludeMultipleValuesCase(l: Leaves, revision: string, release: string, releaseNamespace: string,
                                  managedBy: string, hash: string)
    ensures RedactAll(Map(Deployment(l, Tagged(Str(revision), Str(release), Str(releaseNamespace), Str(managedBy), Str(hash)))),
                      PathsOf(["metadata.annotations", "metadata.labels"]))
      == Map(Deployment(l, Tagged(Empty, Empty, Empty, Empty, Empty)))
  {
    BothPaths();
    RedactTwoFold(Map(Deployment(l, Tagged(Str(revision), Str(release), Str(releaseNamespace), Str(managedBy), Str(hash)))),
                  ["metadata", "annotations"], ["metadata", "labels"]);
    TaggedAnnotationsRedacted(l, revision, release, releaseNamespace, managedBy, hash);
    TaggedLabelsRedacted(l, managedBy, hash);
  }
}
