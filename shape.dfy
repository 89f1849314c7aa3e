/**
 * The input type a template is checked against, and dotted-path lookup in it
 * (`GetTypeAtPath` and `PathExists` of src/types.ts).
 */
module Shapes {
  import opened Wrappers
  import opened Literal

  /**
   * The structure of a TypeScript type as far as path lookup sees it: a leaf
   * (string, number, boolean), an object type with named members, or an
   * array type with its element type.
   */
  datatype Shape = Primitive | Record(fields: map<string, Shape>) | Array(element: Shape)

  /** `keyof T`: the member names of an object type; an array's only modelled member is `length`. */
  function Keys(t: Shape): set<string> {
    match t
    case Primitive => {}
    case Record(fields) => fields.Keys
    case Array(_) => {"length"}
  }

  /** `T[Key]`: the type of a member; an array's `length` is a number. */
  function Member(t: Shape, key: string): Shape
    requires key in Keys(t)
  {
    match t
    case Record(fields) => fields[key]
    case Array(_) => Primitive
  }

  /** `T extends object`: records and arrays are objects, primitives are not. */
  predicate IsObject(t: Shape) {
    t.Record? || t.Array?
  }

  /** Splits a path at its first `.` into the leading key and the rest. */
  function SplitKey(path: string): (r: Option<(string, string)>)
    ensures r.Some? ==> path == r.value.0 + "." + r.value.1
    ensures r.Some? ==> |r.value.1| < |path|
    ensures r.Some? ==> '.' !in r.value.0
    ensures r.None? <==> '.' !in path
  {
    match MatchPattern(path, ["."])
    case Some(caps) =>
      assert path == caps[0] + "." + caps[1];
      assert '.' !in caps[0] by {
        var i := IndexOf(path, ".").value;
        assert caps[0] == path[..i];
        forall j | 0 <= j < i ensures path[j] != '.' {
          assert !OccursAt(path, ".", j);
        }
      }
      Some((caps[0], caps[1]))
    case None =>
      assert '.' !in path by {
        if '.' in path {
          var i :| 0 <= i < |path| && path[i] == '.';
          assert path == path[..i] + "." + path[i + 1..];
          MatchPatternComplete(path, [path[..i], path[i + 1..]], ["."]);
        }
      }
      None
  }

  /**
   * `PathExists<T, Path>`: the path names a member at every step, and every
   * member that is descended into is an object.
   */
  predicate PathExists(t: Shape, path: string)
    decreases |path|
  {
    match SplitKey(path)
    case Some((key, rest)) =>
      key in Keys(t) && IsObject(Member(t, key)) && PathExists(Member(t, key), rest)
    case None => path in Keys(t)
  }

  /** `GetTypeAtPath<T, Path>`: the type reached by the same first-dot descent, None for `never`. */
  function GetTypeAtPath(t: Shape, path: string): Option<Shape>
    decreases |path|
  {
    match SplitKey(path)
    case Some((key, rest)) => if key in Keys(t) then GetTypeAtPath(Member(t, key), rest) else None
    case None => if path in Keys(t) then Some(Member(t, path)) else None
  }

  /** A path joined from segments: `segs[0].segs[1]...`. */
  function JoinPath(segs: seq<string>): string
    requires |segs| > 0
  {
    if |segs| == 1 then segs[0] else segs[0] + "." + JoinPath(segs[1..])
  }

  /**
   * Reference lookup: descend one segment at a time, through objects only
   * (`None` once a segment is not a member).
   */
  function Resolve(t: Shape, segs: seq<string>): Option<Shape>
    requires |segs| > 0
  {
    if segs[0] !in Keys(t) then None
    else if |segs| == 1 then Some(Member(t, segs[0]))
    else if !IsObject(Member(t, segs[0])) then None
    else Resolve(Member(t, segs[0]), segs[1..])
  }

  /** Splitting at the first `.` recovers a dot-free leading key. */
  lemma SplitKeyJoin(key: string, rest: string)
    requires '.' !in key
    ensures SplitKey(key + "." + rest) == Some((key, rest))
  {
    var path := key + "." + rest;
    assert path[|key|] == '.';
    var r := SplitKey(path);
    var (k, r1) := r.value;
    if |k| < |key| {
      assert false;
    } else if |key| < |k| {
      assert false;
    }
    assert k == path[..|k|] == key;
  }

  /** Whenever `PathExists` holds, `GetTypeAtPath` is not `never`; in this model the converse holds too. */
  lemma {:induction false} PathExistsIffTyped(t: Shape, path: string)
    ensures PathExists(t, path) <==> GetTypeAtPath(t, path).Some?
    decreases |path|
  {
    match SplitKey(path)
    case Some((key, rest)) =>
      if key in Keys(t) {
        PathExistsIffTyped(Member(t, key), rest);
        if !IsObject(Member(t, key)) {
          assert Member(t, key) == Primitive;
          match SplitKey(rest)
          case Some(_) =>
          case None =>
        }
      }
    case None =>
  }

  /**
   * Both lookups agree with segment-by-segment descent: a path built from
   * dot-free segments exists iff the descent reaches a member, and has the
   * type the descent reaches.
   */
  lemma {:induction false} LookupBySegments(t: Shape, segs: seq<string>)
    requires |segs| > 0
    requires forall k :: 0 <= k < |segs| ==> '.' !in segs[k]
    ensures GetTypeAtPath(t, JoinPath(segs)) == Resolve(t, segs)
    ensures PathExists(t, JoinPath(segs)) <==> Resolve(t, segs).Some?
    decreases |segs|
  {
    PathExistsIffTyped(t, JoinPath(segs));
    if |segs| == 1 {
      assert SplitKey(segs[0]).None?;
    } else {
      SplitKeyJoin(segs[0], JoinPath(segs[1..]));
      if segs[0] in Keys(t) {
        LookupBySegments(Member(t, segs[0]), segs[1..]);
        if !IsObject(Member(t, segs[0])) {
          PathExistsIffTyped(Member(t, segs[0]), JoinPath(segs[1..]));
        }
      }
    }
  }

  /** Descending through a primitive member fails, whatever follows the dot. */
  lemma PrimitiveHasNoPath(t: Shape, key: string, rest: string)
    requires '.' !in key && key in Keys(t) && Member(t, key) == Primitive
    ensures !PathExists(t, key + "." + rest)
  {
    SplitKeyJoin(key, rest);
  }
}
