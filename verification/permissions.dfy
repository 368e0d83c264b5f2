/**
 * Resource-permission aggregation: for each resource name a request asks about
 * (`checkPermissions=a,b`), the list-level verbs the caller holds on that
 * resource type in the scoping namespace, each mapped to the collection link.
 */
module Permissions {
  import opened Wrappers
  import opened Strings
  import opened Resources
  import opened Links
  import opened Tree

  /** The query parameter naming the resource types to check. */
  const CheckPermissionsKey: string := "checkPermissions"

  /** The body key the result is stored under. */
  const ResourcePermissionsKey: string := "resourcePermissions"

  /** The collection-level verbs checked for each resource type, in order. */
  const PermissionVerbs: seq<string> := ["get", "list", "watch"]

  /** Resource name to (verb to collection link). */
  type Table = map<string, map<string, string>>

  /** The verbs among `verbs` the caller holds on the whole collection of `s` in
      `namespace`, each with the collection link. */
  function VerbLinks(s: Schema, access: AccessSet, namespace: string, verbs: seq<string>): map<string, string>
  {
    map v | v in verbs && Grants(access, v, GroupResourceOf(SchemaGVR(s)), namespace, "")
      :: CollectionLink(SchemaGVR(s), namespace)
  }

  /** The permissions of every registered name among `names` that has at least one
      granted verb. */
  function PermissionTable(names: seq<string>, schemas: map<string, Schema>, access: AccessSet,
                           namespace: string): Table
  {
    map n | n in names && n in schemas && VerbLinks(schemas[n], access, namespace, PermissionVerbs) != map[]
      :: VerbLinks(schemas[n], access, namespace, PermissionVerbs)
  }

  /** The table as a body value: a map of maps of strings. */
  function Encode(table: Table): (v: Value)
    ensures v.Map? && v.fields.Keys == table.Keys
  {
    Map(map n | n in table :: Map(map verb | verb in table[n] :: Str(table[n][verb])))
  }

  // ---------------------------------------------------------------- computing the table

  /** Checks each verb in turn and records the granted ones. */
  method CheckVerbs(s: Schema, access: AccessSet, namespace: string) returns (links: map<string, string>)
    ensures links == VerbLinks(s, access, namespace, PermissionVerbs)
  {
    var gvr := SchemaGVR(s);
    var url := CollectionLink(gvr, namespace);
    links := map[];
    for j := 0 to |PermissionVerbs|
      invariant links == VerbLinks(s, access, namespace, PermissionVerbs[..j])
    {
      var verb := PermissionVerbs[j];
      assert PermissionVerbs[..j + 1] == PermissionVerbs[..j] + [verb];
      if Grants(access, verb, GroupResourceOf(gvr), namespace, "") {
        links := links[verb := url];
      }
    }
    assert PermissionVerbs[..|PermissionVerbs|] == PermissionVerbs;
  }

  /** Checks each requested name in turn; names without a schema or without a
      granted verb are skipped. */
  method CheckPermissions(names: seq<string>, schemas: map<string, Schema>, access: AccessSet,
                          namespace: string) returns (table: Table)
    ensures table == PermissionTable(names, schemas, access, namespace)
  {
    table := map[];
    for i := 0 to |names|
      invariant table == PermissionTable(names[..i], schemas, access, namespace)
    {
      var name := names[i];
      assert names[..i + 1] == names[..i] + [name];
      if name in schemas {
        var links := CheckVerbs(schemas[name], access, namespace);
        if links != map[] {
          table := table[name := links];
        }
      }
    }
    assert names[..|names|] == names;
  }

  // ---------------------------------------------------------------- what the table says

  /** A verb is recorded exactly when it is one of get/list/watch and granted on the
      collection in the scoping namespace, and its link is the collection link. */
  lemma VerbRecorded(s: Schema, access: AccessSet, namespace: string, verb: string)
    ensures verb in VerbLinks(s, access, namespace, PermissionVerbs)
      <==> (verb == "get" || verb == "list" || verb == "watch")
           && Grants(access, verb, GroupResourceOf(SchemaGVR(s)), namespace, "")
    ensures verb in VerbLinks(s, access, namespace, PermissionVerbs)
      ==> VerbLinks(s, access, namespace, PermissionVerbs)[verb] == CollectionLink(SchemaGVR(s), namespace)
  {
  }

  /** A name appears in the table exactly when it was asked for, has a registered
      schema and at least one granted verb; its entry is that schema's verb links. */
  lemma TableEntry(names: seq<string>, schemas: map<string, Schema>, access: AccessSet,
                   namespace: string, n: string)
    ensures n in PermissionTable(names, schemas, access, namespace)
      <==> n in names && n in schemas
           && exists verb :: verb in PermissionVerbs
                && Grants(access, verb, GroupResourceOf(SchemaGVR(schemas[n])), namespace, "")
    ensures n in PermissionTable(names, schemas, access, namespace)
      ==> PermissionTable(names, schemas, access, namespace)[n] == VerbLinks(schemas[n], access, namespace, PermissionVerbs)
  {
    if n in names && n in schemas {
      var vl := VerbLinks(schemas[n], access, namespace, PermissionVerbs);
      if exists verb :: verb in PermissionVerbs
           && Grants(access, verb, GroupResourceOf(SchemaGVR(schemas[n])), namespace, "") {
        var verb :| verb in PermissionVerbs
          && Grants(access, verb, GroupResourceOf(SchemaGVR(schemas[n])), namespace, "");
        assert verb in vl;
      } else {
        assert vl == map[];
      }
    }
  }

  /** Names without a registered schema never appear. */
  lemma UnknownNamesSkipped(names: seq<string>, schemas: map<string, Schema>, access: AccessSet,
                            namespace: string, n: string)
    requires n !in schemas
    ensures n !in PermissionTable(names, schemas, access, namespace)
  {
  }

  /** The encoded table reads back through the tree: every recorded link sits at
      `<name>.<verb>`, and each name's map holds exactly its verbs. */
  lemma EncodeReadsBack(table: Table, n: string, verb: string)
    requires n in table
    ensures Get(Encode(table), [n]).Some? && Get(Encode(table), [n]).value.Map?
    ensures Get(Encode(table), [n]).value.fields.Keys == table[n].Keys
    ensures verb in table[n] ==> Get(Encode(table), [n, verb]) == Some(Str(table[n][verb]))
  {
    var e := Encode(table);
    assert Get(e, [n]) == Get(e.fields[n], []);
    if verb in table[n] {
      assert Get(e, [n, verb]) == Get(e.fields[n], [verb]);
      assert Get(e.fields[n], [verb]) == Get(e.fields[n].fields[verb], []);
    }
  }
}
