/**
 * Field projection of an unstructured resource body, driven by the request
 * query: `include` keeps only the addressed subtrees (and their ancestor keys),
 * `exclude` deletes the addressed keys and `excludeValues` blanks the values of
 * the addressed maps. Paths that resolve nowhere are ignored.
 */
module Projection {
  import opened Wrappers
  import opened Strings
  import opened Tree

  /** The request's query parameters: each name with its repeated values. */
  type Query = map<string, seq<string>>

  /** A dotted field name as a path. */
  function PathOf(field: string): Path
  {
    Split(field, '.')
  }

  /** Every dotted field of a query parameter as a path, in order. */
  function PathsOf(fields: seq<string>): (ps: seq<Path>)
    ensures |ps| == |fields|
    ensures forall i :: 0 <= i < |fields| ==> ps[i] == PathOf(fields[i])
  {
    if fields == [] then [] else PathsOf(fields[..|fields| - 1]) + [PathOf(fields[|fields| - 1])]
  }

  lemma PathsOfSnoc(fields: seq<string>, i: nat)
    requires i < |fields|
    ensures PathsOf(fields[..i + 1]) == PathsOf(fields[..i]) + [PathOf(fields[i])]
  {
    assert fields[..i + 1][..i] == fields[..i];
  }

  // ---------------------------------------------------------------- include

  /** A fresh map holding, for each path that resolves in `orig`, the value found there
      at the same path. */
  function IncludeInto(orig: Value, ps: seq<Path>): (r: Value)
    ensures r.Map?
  {
    if ps == [] then Map(map[])
    else
      var acc := IncludeInto(orig, ps[..|ps| - 1]);
      var p := ps[|ps| - 1];
      match Get(orig, p)
      case Some(x) => Put(acc, p, x)
      case None => acc
  }

  /** The body after `include`. */
  function Include(body: map<string, Value>, ps: seq<Path>): map<string, Value>
  {
    IncludeInto(Map(body), ps).fields
  }

  /** Some requested path resolves and `q` lies at or below it. */
  ghost predicate Covered(orig: Value, ps: seq<Path>, q: seq<string>)
  {
    exists i :: 0 <= i < |ps| && Get(orig, ps[i]).Some? && ps[i] <= q
  }

  /** Some requested path resolves and `q` is a proper ancestor of it. */
  ghost predicate Inside(orig: Value, ps: seq<Path>, q: seq<string>)
  {
    exists i :: 0 <= i < |ps| && Get(orig, ps[i]).Some? && q < ps[i]
  }

  lemma CoveredSnoc(orig: Value, ps: seq<Path>, q: seq<string>)
    requires ps != []
    ensures Covered(orig, ps, q) <==>
      Covered(orig, ps[..|ps| - 1], q) || (Get(orig, ps[|ps| - 1]).Some? && ps[|ps| - 1] <= q)
    ensures Inside(orig, ps, q) <==>
      Inside(orig, ps[..|ps| - 1], q) || (Get(orig, ps[|ps| - 1]).Some? && q < ps[|ps| - 1])
  {
    var init := ps[..|ps| - 1];
    if Covered(orig, ps, q) {
      var i :| 0 <= i < |ps| && Get(orig, ps[i]).Some? && ps[i] <= q;
      if i < |init| { assert init[i] == ps[i]; }
    }
    if Covered(orig, init, q) {
      var i :| 0 <= i < |init| && Get(orig, init[i]).Some? && init[i] <= q;
      assert ps[i] == init[i];
    }
    if Inside(orig, ps, q) {
      var i :| 0 <= i < |ps| && Get(orig, ps[i]).Some? && q < ps[i];
      if i < |init| { assert init[i] == ps[i]; }
    }
    if Inside(orig, init, q) {
      var i :| 0 <= i < |init| && Get(orig, init[i]).Some? && q < init[i];
      assert ps[i] == init[i];
    }
  }

  /** An ancestor of a resolving path holds a map. */
  lemma AncestorIsMap(orig: Value, p: seq<string>, q: seq<string>)
    requires Get(orig, p).Some? && q < p
    ensures Get(orig, q).Some? && Get(orig, q).value.Map?
  {
    GetBelow(orig, q, p);
  }

  /**
   * What `include` keeps, path by path: at or below a resolving requested path the
   * original value; on a proper ancestor of one, a map; anywhere else, nothing.
   * Together these fix the result completely.
   */
  lemma {:induction false} IncludeShape(orig: Value, ps: seq<Path>, q: Path)
    ensures Covered(orig, ps, q) ==> Get(IncludeInto(orig, ps), q) == Get(orig, q)
    ensures !Covered(orig, ps, q) && Inside(orig, ps, q) ==>
      Get(IncludeInto(orig, ps), q).Some? && Get(IncludeInto(orig, ps), q).value.Map?
    ensures !Covered(orig, ps, q) && !Inside(orig, ps, q) ==> Get(IncludeInto(orig, ps), q) == None
    decreases |ps|
  {
    if ps != [] {
      var init := ps[..|ps| - 1];
      var p := ps[|ps| - 1];
      var acc := IncludeInto(orig, init);
      CoveredSnoc(orig, ps, q);
      IncludeShape(orig, init, q);
      if Get(orig, p).Some? {
        var x := Get(orig, p).value;
        // every existing proper prefix of p holds a map in acc
        forall k | 0 <= k < |p|
          ensures Get(acc, p[..k]).None? || Get(acc, p[..k]).value.Map?
        {
          if k > 0 {
            IncludeShape(orig, init, p[..k]);
            AncestorIsMap(orig, p, p[..k]);
          }
        }
        PrefixMapsPutOk(acc, p);
        if p <= q {
          PutBelow(acc, p, x, q);
          GetBelow(orig, p, q);
        } else if q < p {
          if Covered(orig, init, q) {
            var i :| 0 <= i < |init| && Get(orig, init[i]).Some? && init[i] <= q;
            assert init[i] <= p;
            IncludeShape(orig, init, p);
            PutSame(acc, p, x);
          } else {
            PutAbove(acc, p, x, q);
          }
        } else {
          PutElsewhere(acc, p, x, q);
        }
      }
    }
  }

  /** Every requested path that resolves keeps its original value. */
  lemma IncludeKeeps(orig: Value, ps: seq<Path>, i: nat)
    requires i < |ps| && Get(orig, ps[i]).Some?
    ensures Get(IncludeInto(orig, ps), ps[i]) == Get(orig, ps[i])
  {
    IncludeShape(orig, ps, ps[i]);
  }

  /** A top-level key survives exactly when some resolving requested path starts with it. */
  lemma IncludeTopLevel(orig: Value, ps: seq<Path>, k: string)
    ensures k in IncludeInto(orig, ps).fields <==>
      exists i :: 0 <= i < |ps| && Get(orig, ps[i]).Some? && ps[i][0] == k
  {
    var r := IncludeInto(orig, ps);
    IncludeShape(orig, ps, [k]);
    if exists i :: 0 <= i < |ps| && Get(orig, ps[i]).Some? && ps[i][0] == k {
      var i :| 0 <= i < |ps| && Get(orig, ps[i]).Some? && ps[i][0] == k;
      if |ps[i]| == 1 {
        assert ps[i] == [k];
        assert Covered(orig, ps, [k]);
      } else {
        assert [k] < ps[i];
        assert Inside(orig, ps, [k]);
      }
    }
    if Covered(orig, ps, [k]) {
      var i :| 0 <= i < |ps| && Get(orig, ps[i]).Some? && ps[i] <= [k];
      assert ps[i][0] == k;
    }
    if Inside(orig, ps, [k]) {
      var i :| 0 <= i < |ps| && Get(orig, ps[i]).Some? && [k] < ps[i];
      assert ps[i][0] == k;
    }
  }

  /** When no requested path resolves, `include` leaves an empty body (and no error). */
  lemma IncludeNothing(orig: Value, ps: seq<Path>)
    requires forall i :: 0 <= i < |ps| ==> Get(orig, ps[i]).None?
    ensures IncludeInto(orig, ps) == Map(map[])
  {
    var r := IncludeInto(orig, ps);
    forall k | k in r.fields ensures false {
      IncludeTopLevel(orig, ps, k);
    }
    assert r.fields == map[];
  }

  // ---------------------------------------------------------------- exclude

  /** `v` with every requested path removed, in order. */
  function ExcludeAll(v: Value, ps: seq<Path>): (r: Value)
    ensures v.Map? ==> r.Map?
  {
    if ps == [] then v else Remove(ExcludeAll(v, ps[..|ps| - 1]), ps[|ps| - 1])
  }

  /** Nothing is left at or below any excluded path. */
  lemma {:induction false} ExcludeRemovesEach(v: Value, ps: seq<Path>, i: nat, q: seq<string>)
    requires i < |ps| && ps[i] <= q
    ensures Get(ExcludeAll(v, ps), q) == None
    decreases |ps|
  {
    var n := |ps| - 1;
    if i == n {
      RemoveGone(ExcludeAll(v, ps[..n]), ps[n], q);
    } else {
      ExcludeRemovesEach(v, ps[..n], i, q);
      RemoveNoAdd(ExcludeAll(v, ps[..n]), ps[n], q);
    }
  }

  /** A path unrelated to every excluded path reads the same as before. */
  lemma {:induction false} ExcludeKeepsOthers(v: Value, ps: seq<Path>, q: seq<string>)
    requires forall i :: 0 <= i < |ps| ==> Unrelated(ps[i], q)
    ensures Get(ExcludeAll(v, ps), q) == Get(v, q)
    decreases |ps|
  {
    if ps != [] {
      var n := |ps| - 1;
      ExcludeKeepsOthers(v, ps[..n], q);
      RemoveElsewhere(ExcludeAll(v, ps[..n]), ps[n], q);
    }
  }

  /** Excluding only paths that resolve nowhere leaves the body identical. */
  lemma {:induction false} ExcludeUnresolved(v: Value, ps: seq<Path>)
    requires forall i :: 0 <= i < |ps| ==> Get(v, ps[i]).None?
    ensures ExcludeAll(v, ps) == v
    decreases |ps|
  {
    if ps != [] {
      var n := |ps| - 1;
      ExcludeUnresolved(v, ps[..n]);
      RemoveMissing(v, ps[n]);
    }
  }

  /** One excluded path deletes exactly its last key from the parent map. */
  lemma ExcludeFromParent(v: Value, p: Path, f: map<string, Value>)
    requires Get(v, p[..|p| - 1]) == Some(Map(f))
    ensures Get(ExcludeAll(v, [p]), p[..|p| - 1]) == Some(Map(f - {p[|p| - 1]}))
  {
    assert [p][..0] == [];
    RemoveAbove(v, p, p[..|p| - 1]);
    assert p[|p| - 1..] == [p[|p| - 1]];
  }

  // ---------------------------------------------------------------- excludeValues

  /** `v` with every requested path redacted, in order. */
  function RedactAll(v: Value, ps: seq<Path>): (r: Value)
    ensures v.Map? ==> r.Map?
  {
    if ps == [] then v else Redact(RedactAll(v, ps[..|ps| - 1]), ps[|ps| - 1])
  }

  /** A path unrelated to every redacted path reads the same as before. */
  lemma {:induction false} RedactKeepsOthers(v: Value, ps: seq<Path>, q: seq<string>)
    requires forall i :: 0 <= i < |ps| ==> Unrelated(ps[i], q)
    ensures Get(RedactAll(v, ps), q) == Get(v, q)
    decreases |ps|
  {
    if ps != [] {
      var n := |ps| - 1;
      RedactKeepsOthers(v, ps[..n], q);
      RedactElsewhere(RedactAll(v, ps[..n]), ps[n], q);
    }
  }

  /** With pairwise unrelated paths, every path that addressed a map addresses the
      same keys with all values blanked. */
  lemma {:induction false} RedactBlanksEach(v: Value, ps: seq<Path>, i: nat, f: map<string, Value>)
    requires forall j, k :: 0 <= j < k < |ps| ==> Unrelated(ps[j], ps[k])
    requires i < |ps| && Get(v, ps[i]) == Some(Map(f))
    ensures Get(RedactAll(v, ps), ps[i]) == Some(Map(Blank(f)))
    decreases |ps|
  {
    var n := |ps| - 1;
    var init := ps[..n];
    if i == n {
      RedactKeepsOthers(v, init, ps[n]);
      RedactBlanks(RedactAll(v, init), ps[n], f);
    } else {
      RedactBlanksEach(v, init, i, f);
      RedactElsewhere(RedactAll(v, init), ps[n], ps[i]);
    }
  }

  /** Redaction never changes the key set of a map that no redacted path lies above. */
  lemma {:induction false} RedactKeepsKeySets(v: Value, ps: seq<Path>, q: seq<string>, g: map<string, Value>)
    requires forall i :: 0 <= i < |ps| ==> !(ps[i] < q)
    requires Get(v, q) == Some(Map(g))
    ensures Get(RedactAll(v, ps), q).Some? && Get(RedactAll(v, ps), q).value.Map?
    ensures Get(RedactAll(v, ps), q).value.fields.Keys == g.Keys
    decreases |ps|
  {
    if ps != [] {
      var n := |ps| - 1;
      var p := ps[n];
      RedactKeepsKeySets(v, ps[..n], q, g);
      var acc := RedactAll(v, ps[..n]);
      if q <= p {
        RedactKeepsKeys(acc, p, q, Get(acc, q).value.fields);
      } else {
        RedactElsewhere(acc, p, q);
      }
    }
  }

  /** Redacting only paths that address no map leaves the body identical. */
  lemma {:induction false} RedactUnresolved(v: Value, ps: seq<Path>)
    requires forall i :: 0 <= i < |ps| ==> Get(v, ps[i]).None? || !Get(v, ps[i]).value.Map?
    ensures RedactAll(v, ps) == v
    decreases |ps|
  {
    if ps != [] {
      RedactUnresolved(v, ps[..|ps| - 1]);
    }
  }

  // ---------------------------------------------------------------- the body, in place

  /**
   * An unstructured object: its body is one map that the projections rewrite in
   * place. It is the body an unstructured `Formatter.ApiObject` carries; the
   * formatter applies these projections to that body.
   */
  class Unstructured {
    var body: map<string, Value>

    constructor (body: map<string, Value>)
      ensures this.body == body
    {
      this.body := body;
    }

    /** `include`: the body becomes the union of the requested subtrees. */
    method IncludeFields(query: Query)
      modifies this
      ensures "include" in query ==> body == Include(old(body), PathsOf(query["include"]))
      ensures "include" !in query ==> body == old(body)
    {
      if "include" in query {
        var fields := query["include"];
        var original := Map(body);
        var result := Map(map[]);
        for i := 0 to |fields|
          invariant result == IncludeInto(original, PathsOf(fields[..i]))
        {
          var path := PathOf(fields[i]);
          PathsOfSnoc(fields, i);
          match Get(original, path) {
            case Some(x) => result := Put(result, path, x);
            case None =>
          }
        }
        assert fields[..|fields|] == fields;
        body := result.fields;
      }
    }

    /** `exclude`: each requested key is deleted from its parent map. */
    method ExcludeFields(query: Query)
      modifies this
      ensures "exclude" in query ==> Map(body) == ExcludeAll(Map(old(body)), PathsOf(query["exclude"]))
      ensures "exclude" !in query ==> body == old(body)
    {
      if "exclude" in query {
        var fields := query["exclude"];
        var current := Map(body);
        for i := 0 to |fields|
          invariant current == ExcludeAll(Map(old(body)), PathsOf(fields[..i]))
        {
          PathsOfSnoc(fields, i);
          current := Remove(current, PathOf(fields[i]));
        }
        assert fields[..|fields|] == fields;
        body := current.fields;
      }
    }

    /** `excludeValues`: each requested map keeps its keys and loses its values. */
    method ExcludeValues(query: Query)
      modifies this
      ensures "excludeValues" in query ==> Map(body) == RedactAll(Map(old(body)), PathsOf(query["excludeValues"]))
      ensures "excludeValues" !in query ==> body == old(body)
    {
      if "excludeValues" in query {
        var fields := query["excludeValues"];
        var current := Map(body);
        for i := 0 to |fields|
          invariant current == RedactAll(Map(old(body)), PathsOf(fields[..i]))
        {
          var path := PathOf(fields[i]);
          PathsOfSnoc(fields, i);
          match Get(current, path) {
            case Some(Map(f)) => current := Put(current, path, Map(Blank(f)));
            case _ =>
          }
        }
        assert fields[..|fields|] == fields;
        body := current.fields;
      }
    }
  }
}
