/**
 * The JSON-like body of an unstructured resource (`map[string]interface{}`)
 * and the three nested-field primitives the projections are built from:
 * reading the value at a path, setting a value at a path (creating missing
 * intermediate maps), and deleting the key a path addresses.
 */
module Tree {
  import opened Wrappers

  datatype Value =
    | Str(s: string)
    | Int(i: int)
    | List(items: seq<Value>)
    | Map(fields: map<string, Value>)

  /** A dotted field path after splitting; splitting never yields zero segments. */
  type Path = p: seq<string> | |p| > 0 witness [""]

  /** The value found by following `p` through nested maps; `None` when a key is
      missing or an intermediate value is not a map. The empty path is `v` itself. */
  function Get(v: Value, p: seq<string>): Option<Value>
    decreases |p|
  {
    if p == [] then Some(v)
    else match v
      case Map(f) => if p[0] in f then Get(f[p[0]], p[1..]) else None
      case _ => None
  }

  /** `v` with `x` stored at `p`. Missing intermediate keys get fresh empty maps;
      an existing intermediate that is not a map makes the whole update a no-op. */
  function Put(v: Value, p: seq<string>, x: Value): (r: Value)
    ensures v.Map? && p != [] ==> r.Map?
    decreases |p|
  {
    if p == [] then x
    else match v
      case Map(f) =>
        var child := if p[0] in f then f[p[0]] else Map(map[]);
        Map(f[p[0] := Put(child, p[1..], x)])
      case _ => v
  }

  /** `v` without the key `p` addresses in its parent map; a no-op when the parent
      cannot be reached. */
  function Remove(v: Value, p: Path): (r: Value)
    ensures v.Map? ==> r.Map?
    decreases |p|
  {
    match v
    case Map(f) =>
      if |p| == 1 then Map(f - {p[0]})
      else if p[0] in f then Map(f[p[0] := Remove(f[p[0]], p[1..])])
      else v
    case _ => v
  }

  /** A value with its nesting kept and every leaf replaced by the empty string. */
  function BlankValue(v: Value): Value
    decreases v, 1
  {
    if v.Map? then Map(Blank(v.fields)) else Str("")
  }

  /** A map with the same keys, nested maps blanked in turn, and every other value
      replaced by the empty string. */
  function Blank(f: map<string, Value>): (g: map<string, Value>)
    ensures g.Keys == f.Keys
    ensures forall k :: k in g ==> g[k] == if f[k].Map? then Map(Blank(f[k].fields)) else Str("")
    decreases Map(f), 0
  {
    map k | k in f :: BlankValue(f[k])
  }

  /** Blanking is idempotent: a blanked map has only empty-string leaves, which blank
      to themselves, so redacting a field inside an already redacted one changes nothing. */
  lemma {:induction false} BlankIdempotent(f: map<string, Value>)
    ensures Blank(Blank(f)) == Blank(f)
    decreases Map(f)
  {
    forall k | k in f && f[k].Map?
      ensures Blank(Blank(f[k].fields)) == Blank(f[k].fields)
    {
      BlankIdempotent(f[k].fields);
    }
    assert forall k :: k in Blank(f) ==> Blank(Blank(f))[k] == Blank(f)[k];
  }

  /** `v` with the map at `p` blanked; `v` itself when `p` does not address a map. */
  function Redact(v: Value, p: Path): (r: Value)
    ensures v.Map? ==> r.Map?
  {
    match Get(v, p)
    case Some(Map(f)) => Put(v, p, Map(Blank(f)))
    case _ => v
  }

  /** Every intermediate map on `p` that exists is a map, so `Put` at `p` takes effect. */
  ghost predicate PutOk(v: Value, p: seq<string>)
    decreases |p|
  {
    p == [] || (v.Map? && (p[0] in v.fields ==> PutOk(v.fields[p[0]], p[1..])))
  }

  /** Neither path is a prefix of the other: they address disjoint subtrees. */
  predicate Unrelated(p: seq<string>, q: seq<string>)
  {
    !(p <= q) && !(q <= p)
  }

  // ---------------------------------------------------------------- Get

  /** Reading below `p` is reading from the value at `p`. */
  lemma {:induction false} GetBelow(v: Value, p: seq<string>, q: seq<string>)
    requires p <= q
    ensures Get(v, q) == if Get(v, p).Some? then Get(Get(v, p).value, q[|p|..]) else None
    decreases |p|
  {
    if p != [] {
      assert q[0] == p[0];
      match v
      case Map(f) =>
        if p[0] in f {
          GetBelow(f[p[0]], p[1..], q[1..]);
          assert q[1..][|p| - 1..] == q[|p|..];
        }
      case _ =>
    }
  }

  /** A value that is found at `p` sits under maps only, so `Put` at `p` takes effect. */
  lemma {:induction false} FoundPutOk(v: Value, p: seq<string>)
    requires Get(v, p).Some?
    ensures PutOk(v, p)
    decreases |p|
  {
    if p != [] {
      FoundPutOk(v.fields[p[0]], p[1..]);
    }
  }

  /** `Put` takes effect when every existing proper prefix of `p` holds a map. */
  lemma {:induction false} PrefixMapsPutOk(v: Value, p: seq<string>)
    requires forall k :: 0 <= k < |p| ==> Get(v, p[..k]).None? || Get(v, p[..k]).value.Map?
    ensures PutOk(v, p)
    decreases |p|
  {
    if p != [] {
      assert p[..0] == [];
      if p[0] in v.fields {
        var c := v.fields[p[0]];
        forall k | 0 <= k < |p| - 1
          ensures Get(c, p[1..][..k]).None? || Get(c, p[1..][..k]).value.Map?
        {
          assert p[..k + 1][1..] == p[1..][..k];
          assert p[..k + 1][0] == p[0];
        }
        PrefixMapsPutOk(c, p[1..]);
      }
    }
  }

  // ---------------------------------------------------------------- Put

  /** Below the stored path, `Put` exposes the stored value. */
  lemma {:induction false} PutBelow(v: Value, p: seq<string>, x: Value, q: seq<string>)
    requires PutOk(v, p) && p <= q
    ensures Get(Put(v, p, x), q) == Get(x, q[|p|..])
    decreases |p|
  {
    if p != [] {
      assert q[0] == p[0];
      var f := v.fields;
      var child := if p[0] in f then f[p[0]] else Map(map[]);
      PutBelow(child, p[1..], x, q[1..]);
      assert q[1..][|p| - 1..] == q[|p|..];
    }
  }

  /** Away from the stored path, `Put` changes nothing. */
  lemma {:induction false} PutElsewhere(v: Value, p: seq<string>, x: Value, q: seq<string>)
    requires Unrelated(p, q)
    ensures Get(Put(v, p, x), q) == Get(v, q)
    decreases |p|
  {
    match v
    case Map(f) =>
      if q[0] == p[0] {
        var child := if p[0] in f then f[p[0]] else Map(map[]);
        PutElsewhere(child, p[1..], x, q[1..]);
      }
    case _ =>
  }

  /** Above the stored path, `Put` yields the old value (or a fresh map) updated below. */
  lemma {:induction false} PutAbove(v: Value, p: seq<string>, x: Value, q: seq<string>)
    requires PutOk(v, p) && q < p
    ensures var base := if Get(v, q).Some? then Get(v, q).value else Map(map[]);
      base.Map? && Get(Put(v, p, x), q) == Some(Put(base, p[|q|..], x))
    decreases |q|
  {
    if q != [] {
      assert q[0] == p[0];
      var f := v.fields;
      var child := if p[0] in f then f[p[0]] else Map(map[]);
      assert Put(v, p, x) == Map(f[p[0] := Put(child, p[1..], x)]);
      assert Get(Put(v, p, x), q) == Get(Put(child, p[1..], x), q[1..]);
      assert Get(v, q) == if p[0] in f then Get(child, q[1..]) else None;
      PutAbove(child, p[1..], x, q[1..]);
      assert p[1..][|q| - 1..] == p[|q|..];
    } else {
      assert p[|q|..] == p;
    }
  }

  /** Storing a value that is already there changes nothing. */
  lemma {:induction false} PutSame(v: Value, p: seq<string>, x: Value)
    requires Get(v, p) == Some(x)
    ensures Put(v, p, x) == v
    decreases |p|
  {
    if p != [] {
      var f := v.fields;
      PutSame(f[p[0]], p[1..], x);
      assert f[p[0] := f[p[0]]] == f;
    }
  }

  // ---------------------------------------------------------------- Remove

  /** Nothing is reachable at or below a removed path. */
  lemma {:induction false} RemoveGone(v: Value, p: Path, q: seq<string>)
    requires p <= q
    ensures Get(Remove(v, p), q) == None
    decreases |p|
  {
    assert q[0] == p[0];
    match v
    case Map(f) =>
      if |p| > 1 && p[0] in f {
        RemoveGone(f[p[0]], p[1..], q[1..]);
      }
    case _ =>
  }

  /** Away from the removed path, nothing changes. */
  lemma {:induction false} RemoveElsewhere(v: Value, p: Path, q: seq<string>)
    requires Unrelated(p, q)
    ensures Get(Remove(v, p), q) == Get(v, q)
    decreases |p|
  {
    match v
    case Map(f) =>
      if q[0] == p[0] && |p| > 1 && p[0] in f {
        RemoveElsewhere(f[p[0]], p[1..], q[1..]);
      }
    case _ =>
  }

  /** Above the removed path, each ancestor holds its old value with the key removed below. */
  lemma {:induction false} RemoveAbove(v: Value, p: Path, q: seq<string>)
    requires q < p && Get(v, q).Some?
    ensures Get(Remove(v, p), q) == Some(Remove(Get(v, q).value, p[|q|..]))
    decreases |q|
  {
    if q != [] {
      assert q[0] == p[0];
      var f := v.fields;
      RemoveAbove(f[p[0]], p[1..], q[1..]);
      assert p[1..][|q| - 1..] == p[|q|..];
    } else {
      assert p[|q|..] == p;
    }
  }

  /** Removing a path that addresses nothing leaves the value as it was. */
  lemma {:induction false} RemoveMissing(v: Value, p: Path)
    requires Get(v, p) == None
    ensures Remove(v, p) == v
    decreases |p|
  {
    match v
    case Map(f) =>
      if |p| > 1 && p[0] in f {
        RemoveMissing(f[p[0]], p[1..]);
        assert f[p[0] := f[p[0]]] == f;
      }
    case _ =>
  }

  /** Removal never makes a path reachable that was not. */
  lemma {:induction false} RemoveNoAdd(v: Value, p: Path, q: seq<string>)
    ensures Get(Remove(v, p), q).Some? ==> Get(v, q).Some?
    decreases |p|
  {
    if q != [] {
      match v
      case Map(f) =>
        if q[0] == p[0] && |p| > 1 && p[0] in f {
          RemoveNoAdd(f[p[0]], p[1..], q[1..]);
        }
      case _ =>
    }
  }

  // ---------------------------------------------------------------- Redact

  /** A redacted map keeps its keys and every value becomes the empty string. */
  lemma RedactBlanks(v: Value, p: Path, f: map<string, Value>)
    requires Get(v, p) == Some(Map(f))
    ensures Get(Redact(v, p), p) == Some(Map(Blank(f)))
  {
    FoundPutOk(v, p);
    PutBelow(v, p, Map(Blank(f)), p);
    assert p[|p|..] == [];
  }

  /** Below a blanked map, every path that resolved still resolves, to its blanked
      value: keys and nesting are kept, and only leaves change. */
  lemma {:induction false} BlankBelow(f: map<string, Value>, q: seq<string>)
    ensures Get(Map(Blank(f)), q) == if Get(Map(f), q).Some? then Some(BlankValue(Get(Map(f), q).value)) else None
    decreases |q|
  {
    if q != [] && q[0] in f {
      var c := f[q[0]];
      if c.Map? {
        BlankBelow(c.fields, q[1..]);
      }
    }
  }

  /** At and below the redacted path, each value is the old one blanked. */
  lemma RedactBelow(v: Value, p: Path, f: map<string, Value>, q: seq<string>)
    requires Get(v, p) == Some(Map(f)) && p <= q
    ensures Get(Redact(v, p), q) == if Get(v, q).Some? then Some(BlankValue(Get(v, q).value)) else None
  {
    FoundPutOk(v, p);
    PutBelow(v, p, Map(Blank(f)), q);
    GetBelow(v, p, q);
    BlankBelow(f, q[|p|..]);
  }

  /** Away from the redacted path, nothing changes. */
  lemma RedactElsewhere(v: Value, p: Path, q: seq<string>)
    requires Unrelated(p, q)
    ensures Get(Redact(v, p), q) == Get(v, q)
  {
    if Get(v, p).Some? && Get(v, p).value.Map? {
      PutElsewhere(v, p, Map(Blank(Get(v, p).value.fields)), q);
    }
  }

  /** Redaction keeps the key set of every map at or above the redacted path. */
  lemma RedactKeepsKeys(v: Value, p: Path, q: seq<string>, g: map<string, Value>)
    requires q <= p && Get(v, q) == Some(Map(g))
    ensures Get(Redact(v, p), q).Some? && Get(Redact(v, p), q).value.Map?
    ensures Get(Redact(v, p), q).value.fields.Keys == g.Keys
  {
    if Get(v, p).Some? && Get(v, p).value.Map? {
      var x := Map(Blank(Get(v, p).value.fields));
      FoundPutOk(v, p);
      if q == p {
        RedactBlanks(v, p, g);
      } else {
        PutAbove(v, p, x, q);
        GetBelow(v, q, p);
        assert p[|q|..][0] in g;
      }
    }
  }
}
