/**
  Validation of a runtime bundle: the private configuration, with the listed fields overwritten from the canonical
  one, must be the canonical configuration. JSON objects are maps, and overwriting builds a new map.
 */
module RuntimeBundle {
  import opened Common
  import opened Strings

  datatype Json =
    | Null
    | Bool(b: bool)
    | Number(n: real)
    | Text(s: string)
    | List(items: seq<Json>)
    | Object(fields: Fields)

  type Fields = map<string, Json>
  type Path = seq<string>

  datatype BundleError = Unsupported | BadFieldList | BadConfig | BadHash | AbsentField | InvalidPath | Diverges

  const LEGACY_FIELDS: seq<Path> := [
    ["Server", "AdminPassword"], ["Server", "DriverPassword"], ["Server", "LaunchSessionId"],
    ["Server", "ResultCorrelationId"], ["Server", "ResultsPath"], ["Server", "ResultsPostUrl"],
    ["Server", "SpectatorPassword"]]

  const MATERIALIZED_FIELDS: seq<Path> := [
    ["Server", "AdminPassword"], ["Server", "DriverPassword"], ["Server", "EntryListPath"],
    ["Server", "LaunchSessionId"], ["Server", "ResultCorrelationId"], ["Server", "ResultsPath"],
    ["Server", "ResultsPostUrl"], ["Server", "SpectatorPassword"]]

  predicate Proper(paths: seq<Path>) { forall i | 0 <= i < |paths| :: paths[i] != [] }

  function FieldsBySchema(version: int): (paths: Option<seq<Path>>)
    ensures paths.Some? ==> Proper(paths.value)
  {
    if version == 1 then Some(LEGACY_FIELDS)
    else if version == 2 then Some(MATERIALIZED_FIELDS)
    else None
  }

  /** The object under a key, or an empty one where there is none. */
  function Sub(t: Fields, key: string): Fields {
    if key in t && t[key].Object? then t[key].fields else map[]
  }

  /** _copy_path_value: the value at `path` of the source, written into the target. */
  function CopyPath(source: Fields, target: Fields, path: Path): Result<Fields, BundleError>
    requires path != []
    decreases |path|
  {
    var key := path[0];
    if key !in source then Err(AbsentField)
    else if |path| == 1 then Ok(target[key := source[key]])
    else if !source[key].Object? then Err(InvalidPath)
    else
      match CopyPath(source[key].fields, Sub(target, key), path[1..])
      case Err(e) => Err(e)
      case Ok(below) => Ok(target[key := Object(below)])
  }

  /** The loop over the listed fields. */
  function Redact(source: Fields, target: Fields, paths: seq<Path>): Result<Fields, BundleError>
    requires Proper(paths)
    decreases |paths|
  {
    if paths == [] then Ok(target)
    else
      match CopyPath(source, target, paths[0])
      case Err(e) => Err(e)
      case Ok(next) => Redact(source, next, paths[1..])
  }

  /** A bundle as received; `calculated` is the hash of its canonical JSON. */
  datatype Bundle = Bundle(schemaVersion: int, materializedFields: seq<Path>, runtimeConfig: Json, calculated: string)

  predicate IsHash(s: string) {
    |s| == 64 && forall i | 0 <= i < 64 :: 'a' <= s[i] <= 'f' || '0' <= s[i] <= '9'
  }

  /** The announced hash without surrounding white space, in lower case. */
  function Normalized(announced: string): string { Lower(Strip(announced)) }

  function Validate(b: Bundle, announced: string, materialized: Json): Result<string, BundleError> {
    match FieldsBySchema(b.schemaVersion)
    case None => Err(Unsupported)
    case Some(paths) =>
      if b.materializedFields != paths then Err(BadFieldList)
      else if !b.runtimeConfig.Object? || !materialized.Object? then Err(BadConfig)
      else if !IsHash(Normalized(announced)) || b.calculated != Normalized(announced) then Err(BadHash)
      else
        match Redact(b.runtimeConfig.fields, materialized.fields, paths)
        case Err(e) => Err(e)
        case Ok(redacted) => if redacted == b.runtimeConfig.fields then Ok(Normalized(announced)) else Err(Diverges)
  }

  // ---------------------------------------------------------------- the order of the overwrites does not matter

  predicate HasPath(source: Fields, path: Path)
    requires path != []
    decreases |path|
  {
    path[0] in source && (|path| > 1 ==> source[path[0]].Object? && HasPath(source[path[0]].fields, path[1..]))
  }

  /** The target after a successful overwrite. */
  function Copied(source: Fields, target: Fields, path: Path): Fields
    requires path != [] && HasPath(source, path)
    decreases |path|
  {
    var key := path[0];
    target[key := if |path| == 1 then source[key] else Object(Copied(source[key].fields, Sub(target, key), path[1..]))]
  }

  /** Whether an overwrite succeeds depends on the source alone. */
  lemma {:induction false} CopySucceeds(source: Fields, target: Fields, path: Path)
    requires path != []
    ensures CopyPath(source, target, path).Ok? <==> HasPath(source, path)
    ensures HasPath(source, path) ==> CopyPath(source, target, path) == Ok(Copied(source, target, path))
    decreases |path|
  {
    if |path| > 1 && path[0] in source && source[path[0]].Object? {
      CopySucceeds(source[path[0]].fields, Sub(target, path[0]), path[1..]);
    }
  }

  lemma {:induction false} CopyIntoItself(source: Fields, path: Path)
    requires path != [] && HasPath(source, path)
    ensures Copied(source, source, path) == source
    decreases |path|
  {
    if |path| > 1 { CopyIntoItself(source[path[0]].fields, path[1..]); }
  }

  /** Two overwrites commute, also when one path lies inside the other. */
  lemma {:induction false} CopiesCommute(source: Fields, target: Fields, p: Path, q: Path)
    requires p != [] && q != [] && HasPath(source, p) && HasPath(source, q)
    ensures Copied(source, Copied(source, target, p), q) == Copied(source, Copied(source, target, q), p)
    decreases |p|
  {
    var k := p[0];
    if k == q[0] {
      if |p| > 1 && |q| > 1 {
        CopiesCommute(source[k].fields, Sub(target, k), p[1..], q[1..]);
      } else if |p| > 1 {
        CopyIntoItself(source[k].fields, p[1..]);
      } else if |q| > 1 {
        CopyIntoItself(source[k].fields, q[1..]);
      }
    } else {
      OtherKeyStays(source, target, p, q);
      OtherKeyStays(source, target, q, p);
    }
  }

  /** An overwrite changes the target under its first key only, and there by what was under it. */
  lemma OtherKeyStays(source: Fields, target: Fields, p: Path, q: Path)
    requires p != [] && q != [] && HasPath(source, p) && HasPath(source, q) && p[0] != q[0]
    ensures
      var after := Copied(source, target, p);
      && p[0] in after && after == target[p[0] := after[p[0]]]
      && Copied(source, after, q) == after[q[0] := Copied(source, target, q)[q[0]]]
  {
  }

  predicate HasPaths(source: Fields, paths: seq<Path>) {
    Proper(paths) && forall i | 0 <= i < |paths| :: HasPath(source, paths[i])
  }

  /** All overwrites in turn. */
  function CopiedAll(source: Fields, target: Fields, paths: seq<Path>): Fields
    requires HasPaths(source, paths)
    decreases |paths|
  {
    if paths == [] then target
    else CopiedAll(source, Copied(source, target, paths[0]), paths[1..])
  }

  lemma {:induction false} RedactSucceeds(source: Fields, target: Fields, paths: seq<Path>)
    requires Proper(paths)
    ensures Redact(source, target, paths).Ok? <==> HasPaths(source, paths)
    ensures HasPaths(source, paths) ==> Redact(source, target, paths) == Ok(CopiedAll(source, target, paths))
    decreases |paths|
  {
    if paths != [] {
      CopySucceeds(source, target, paths[0]);
      if HasPath(source, paths[0]) {
        RedactSucceeds(source, Copied(source, target, paths[0]), paths[1..]);
        assert HasPaths(source, paths[1..]) ==> HasPaths(source, paths) by {
          assert forall i | 0 < i < |paths| :: paths[i] == paths[1..][i - 1];
        }
      }
    }
  }

  /** Any overwrite may as well come first. */
  lemma {:induction false} CopyFirst(source: Fields, target: Fields, paths: seq<Path>, i: nat)
    requires HasPaths(source, paths) && i < |paths|
    ensures
      var others := paths[..i] + paths[i + 1..];
      HasPaths(source, others)
      && CopiedAll(source, target, paths) == CopiedAll(source, Copied(source, target, paths[i]), others)
    decreases |paths|
  {
    var others := paths[..i] + paths[i + 1..];
    if i == 0 {
      assert others == paths[1..];
    } else {
      CopyFirst(source, Copied(source, target, paths[0]), paths[1..], i - 1);
      CopiesCommute(source, target, paths[0], paths[i]);
      assert others[1..] == paths[1..][..i - 1] + paths[1..][i..];
    }
  }

  lemma SameRest(paths: seq<Path>, other: seq<Path>, i: nat)
    requires paths != [] && i < |other| && other[i] == paths[0] && multiset(paths) == multiset(other)
    ensures multiset(paths[1..]) == multiset(other[..i] + other[i + 1..])
  {
    var p := paths[0];
    assert other == other[..i] + [p] + other[i + 1..];
    assert paths == [p] + paths[1..];
    assert multiset(other[..i] + other[i + 1..]) == multiset(other) - multiset{p};
    assert multiset(paths[1..]) == multiset(paths) - multiset{p};
  }

  /** Any two orders of the same overwrites give the same configuration. */
  lemma {:induction false} OrderDoesNotMatter(source: Fields, target: Fields, paths: seq<Path>, other: seq<Path>)
    requires HasPaths(source, paths) && HasPaths(source, other) && multiset(paths) == multiset(other)
    ensures CopiedAll(source, target, paths) == CopiedAll(source, target, other)
    decreases |paths|
  {
    if paths == [] {
      assert |multiset(other)| == 0;
    } else {
      var p := paths[0];
      assert p in multiset(other);
      var i :| 0 <= i < |other| && other[i] == p;
      CopyFirst(source, target, other, i);
      var rest := other[..i] + other[i + 1..];
      SameRest(paths, other, i);
      hide HasPath, Copied;
      OrderDoesNotMatter(source, Copied(source, target, p), paths[1..], rest);
    }
  }

  // ---------------------------------------------------------------- exactly which private configurations are accepted

  /** The value at a path, if every step before the last leads into an object. */
  function Get(t: Fields, path: Path): Option<Json>
    requires path != []
    decreases |path|
  {
    if path[0] !in t then None
    else if |path| == 1 then Some(t[path[0]])
    else if t[path[0]].Object? then Get(t[path[0]].fields, path[1..])
    else None
  }

  /** A leaf as it is, and an object without its content. */
  function Shape(v: Option<Json>): Option<Json> {
    if v.Some? && v.value.Object? then Some(Object(map[])) else v
  }

  /** One path lies on or below the other. */
  predicate Related(l: Path, p: Path) { l <= p || p <= l }

  lemma {:induction false} CopyKeepsUnrelated(source: Fields, target: Fields, p: Path, l: Path)
    requires p != [] && l != [] && HasPath(source, p) && !Related(l, p)
    ensures Get(Copied(source, target, p), l) == Get(target, l)
    decreases |p|
  {
    if p[0] == l[0] {
      assert |p| > 1 && |l| > 1 && !Related(l[1..], p[1..]) by { RelatedBelow(l, p); }
      CopyKeepsUnrelated(source[p[0]].fields, Sub(target, p[0]), p[1..], l[1..]);
    }
  }

  lemma RelatedBelow(l: Path, p: Path)
    requires p != [] && l != [] && p[0] == l[0]
    ensures Related(l, p) <==> Related(l[1..], p[1..])
  {
    assert l == [l[0]] + l[1..] && p == [p[0]] + p[1..];
  }

  /** On and below a copied path the source is found; above it, an object on both sides. */
  lemma {:induction false} CopyAgrees(source: Fields, target: Fields, p: Path, l: Path)
    requires p != [] && l != [] && HasPath(source, p) && Related(l, p)
    ensures Shape(Get(Copied(source, target, p), l)) == Shape(Get(source, l))
    decreases |p|
  {
    assert p[0] == l[0];
    RelatedBelow(l, p);
    if |p| > 1 && |l| > 1 {
      CopyAgrees(source[p[0]].fields, Sub(target, p[0]), p[1..], l[1..]);
    }
  }

  ghost predicate SameShape(a: Fields, b: Fields) {
    forall l: Path | l != [] :: Shape(Get(a, l)) == Shape(Get(b, l))
  }

  /** Two configurations with the same leaves and objects everywhere are the same. */
  lemma {:induction false} SameShapeIsSame(a: Json, b: Json)
    requires a.Object? && b.Object? && SameShape(a.fields, b.fields)
    ensures a == b
    decreases a
  {
    forall k: string ensures k in a.fields <==> k in b.fields {
      assert Shape(Get(a.fields, [k])) == Shape(Get(b.fields, [k]));
    }
    forall k | k in a.fields ensures a.fields[k] == b.fields[k] {
      var x, y := a.fields[k], b.fields[k];
      assert Shape(Get(a.fields, [k])) == Shape(Get(b.fields, [k]));
      if x.Object? {
        forall l: Path | l != [] ensures Shape(Get(x.fields, l)) == Shape(Get(y.fields, l)) {
          assert ([k] + l)[1..] == l;
          assert Shape(Get(a.fields, [k] + l)) == Shape(Get(b.fields, [k] + l));
        }
        SameShapeIsSame(x, y);
      }
    }
    assert a.fields == b.fields;
  }

  ghost predicate Unlisted(l: Path, paths: seq<Path>) {
    l != [] && forall i | 0 <= i < |paths| :: !Related(l, paths[i])
  }

  /** The two configurations agree on every path that no listed path meets. */
  ghost predicate AgreeOutside(a: Fields, b: Fields, paths: seq<Path>) {
    forall l: Path | Unlisted(l, paths) :: Shape(Get(a, l)) == Shape(Get(b, l))
  }

  lemma {:induction false} RedactionKeepsUnlisted(source: Fields, target: Fields, paths: seq<Path>, l: Path)
    requires HasPaths(source, paths) && Unlisted(l, paths)
    ensures Get(CopiedAll(source, target, paths), l) == Get(target, l)
    decreases |paths|
  {
    if paths != [] {
      CopyKeepsUnrelated(source, target, paths[0], l);
      assert forall i | 0 <= i < |paths[1..]| :: paths[1..][i] == paths[i + 1];
      RedactionKeepsUnlisted(source, Copied(source, target, paths[0]), paths[1..], l);
    }
  }

  /** On, below and above a listed path the redacted configuration looks like the canonical one. */
  lemma RedactionAgreesListed(source: Fields, target: Fields, paths: seq<Path>, l: Path, i: nat)
    requires HasPaths(source, paths) && l != [] && i < |paths| && Related(l, paths[i])
    ensures Shape(Get(CopiedAll(source, target, paths), l)) == Shape(Get(source, l))
  {
    var others := paths[..i] + paths[i + 1..];
    CopyFirst(source, target, paths, i);
    assert multiset(others + [paths[i]]) == multiset(paths) by {
      assert paths == paths[..i] + [paths[i]] + paths[i + 1..];
    }
    CopiedAllLast(source, target, others, paths[i]);
    OrderDoesNotMatter(source, target, paths, others + [paths[i]]);
    CopyAgrees(source, CopiedAll(source, target, others), paths[i], l);
  }

  lemma {:induction false} CopiedAllLast(source: Fields, target: Fields, paths: seq<Path>, p: Path)
    requires HasPaths(source, paths) && p != [] && HasPath(source, p)
    ensures HasPaths(source, paths + [p])
    ensures CopiedAll(source, target, paths + [p]) == Copied(source, CopiedAll(source, target, paths), p)
    decreases |paths|
  {
    if paths != [] {
      assert (paths + [p])[1..] == paths[1..] + [p];
      CopiedAllLast(source, Copied(source, target, paths[0]), paths[1..], p);
    }
  }

  /**
    The redacted private configuration is the canonical one exactly when the two agree at every path no listed field
    meets: acceptance implies equality at every unlisted leaf, and looks at nothing else.
   */
  lemma RedactsExactlyWhen(source: Fields, target: Fields, paths: seq<Path>)
    requires Proper(paths)
    ensures Redact(source, target, paths) == Ok(source) <==>
            HasPaths(source, paths) && AgreeOutside(target, source, paths)
  {
    RedactSucceeds(source, target, paths);
    if HasPaths(source, paths) {
      var r := CopiedAll(source, target, paths);
      forall l | Unlisted(l, paths) ensures Get(r, l) == Get(target, l) {
        RedactionKeepsUnlisted(source, target, paths, l);
      }
      if AgreeOutside(target, source, paths) {
        forall l: Path | l != [] ensures Shape(Get(r, l)) == Shape(Get(source, l)) {
          if !Unlisted(l, paths) {
            var i :| 0 <= i < |paths| && Related(l, paths[i]);
            RedactionAgreesListed(source, target, paths, l, i);
          }
        }
        SameShapeIsSame(Object(r), Object(source));
      }
    }
  }

  /**
    A bundle is accepted exactly when it is well-formed, its hash is the announced one, and the private configuration
    agrees with it; then the normalized hash is returned.
   */
  lemma AcceptedExactlyWhen(b: Bundle, announced: string, materialized: Json)
    ensures Validate(b, announced, materialized).Ok? <==>
            && FieldsBySchema(b.schemaVersion) == Some(b.materializedFields)
            && b.runtimeConfig.Object? && materialized.Object?
            && IsHash(Normalized(announced)) && b.calculated == Normalized(announced)
            && HasPaths(b.runtimeConfig.fields, b.materializedFields)
            && AgreeOutside(materialized.fields, b.runtimeConfig.fields, b.materializedFields)
    ensures Validate(b, announced, materialized).Ok? ==> Validate(b, announced, materialized).value == b.calculated
  {
    hide Normalized, IsHash;
    if FieldsBySchema(b.schemaVersion) == Some(b.materializedFields) && b.runtimeConfig.Object? && materialized.Object? {
      RedactsExactlyWhen(b.runtimeConfig.fields, materialized.fields, b.materializedFields);
    }
  }

  /** Why a bundle is refused: the first of these that is not so. */
  lemma RefusedBecause(b: Bundle, announced: string, materialized: Json)
    ensures
      var r := Validate(b, announced, materialized);
      if b.schemaVersion < 1 || b.schemaVersion > 2 then r == Err(Unsupported)
      else if b.materializedFields != (if b.schemaVersion == 1 then LEGACY_FIELDS else MATERIALIZED_FIELDS) then r == Err(BadFieldList)
      else if !(b.runtimeConfig.Object? && materialized.Object?) then r == Err(BadConfig)
      else if b.calculated != Normalized(announced) || !HexOfLength(b.calculated, 64) then r == Err(BadHash)
      else if !HasPaths(b.runtimeConfig.fields, b.materializedFields) then r.Err? && r.error in {AbsentField, InvalidPath}
      else r == if AgreeOutside(materialized.fields, b.runtimeConfig.fields, b.materializedFields) then Ok(b.calculated) else Err(Diverges)
  {
    IsHashMeans(b.calculated);
    AcceptedExactlyWhen(b, announced, materialized);
    if b.runtimeConfig.Object? && materialized.Object? && FieldsBySchema(b.schemaVersion) == Some(b.materializedFields) {
      RedactSucceeds(b.runtimeConfig.fields, materialized.fields, b.materializedFields);
      RedactErrs(b.runtimeConfig.fields, materialized.fields, b.materializedFields);
      RedactsExactlyWhen(b.runtimeConfig.fields, materialized.fields, b.materializedFields);
    }
    hide Redact, Normalized, IsHash, HexOfLength, HasPaths, AgreeOutside;
  }

  predicate HexOfLength(s: string, n: nat) { |s| == n && forall c | c in s :: c in "0123456789abcdef" }

  lemma IsHashMeans(s: string)
    ensures IsHash(s) <==> HexOfLength(s, 64)
  {
    forall i | 0 <= i < |s| ensures s[i] in "0123456789abcdef" <==> 'a' <= s[i] <= 'f' || '0' <= s[i] <= '9' { HexDigit(s[i]); }
    if IsHash(s) {
      forall c | c in s ensures c in "0123456789abcdef" {
        var i :| 0 <= i < |s| && s[i] == c;
      }
    }
  }

  lemma HexDigit(c: char)
    ensures c in "0123456789abcdef" <==> 'a' <= c <= 'f' || '0' <= c <= '9'
  {
    assert '0' <= c <= '9' ==> c == "0123456789"[c as int - 48];
    assert 'a' <= c <= 'f' ==> c == "abcdef"[c as int - 97];
  }

  lemma {:induction false} CopyErrs(source: Fields, target: Fields, path: Path)
    requires path != []
    ensures CopyPath(source, target, path).Err? ==> CopyPath(source, target, path).error in {AbsentField, InvalidPath}
    decreases |path|
  {
    if |path| > 1 && path[0] in source && source[path[0]].Object? {
      CopyErrs(source[path[0]].fields, Sub(target, path[0]), path[1..]);
    }
  }

  lemma {:induction false} RedactErrs(source: Fields, target: Fields, paths: seq<Path>)
    requires Proper(paths)
    ensures Redact(source, target, paths).Err? ==> Redact(source, target, paths).error in {AbsentField, InvalidPath}
    decreases |paths|
  {
    if paths != [] {
      CopyErrs(source, target, paths[0]);
      var copied := CopyPath(source, target, paths[0]);
      if copied.Ok? { RedactErrs(source, copied.value, paths[1..]); }
    }
  }

  /** All listed fields are of the Server section; the second schema lists one more. */
  lemma ListedFields(path: Path)
    ensures path in MATERIALIZED_FIELDS <==> path in LEGACY_FIELDS || path == ["Server", "EntryListPath"]
    ensures path in LEGACY_FIELDS <==>
              |path| == 2 && path[0] == "Server"
              && path[1] in {"AdminPassword", "DriverPassword", "SpectatorPassword", "LaunchSessionId", "ResultCorrelationId",
                             "ResultsPath", "ResultsPostUrl"}
  {
    if |path| == 2 { assert path == [path[0], path[1]]; }
  }

  /** The hash may be announced with white space around it, and in upper case. */
  lemma AnnouncedAnyway(b: Bundle, hash: string, pre: string, post: string, materialized: Json)
    requires AllSpace(pre) && AllSpace(post) && hash != "" && Trimmed(hash)
    ensures Normalized(pre + hash + post) == Lower(hash)
    ensures Validate(b, pre + hash + post, materialized) == Validate(b, hash, materialized)
  {
    StripTakesSpace(pre, hash, post);
    StripTakesSpace("", hash, "");
    assert "" + hash + "" == hash;
    hide Strip, Redact, IsHash;
  }

  /** Private configurations that differ only in listed fields are accepted or refused together. */
  lemma ListedFieldsAreFree(b: Bundle, announced: string, one: Json, other: Json)
    requires one.Object? && other.Object? && AgreeOutside(one.fields, other.fields, b.materializedFields)
    ensures Validate(b, announced, one).Ok? <==> Validate(b, announced, other).Ok?
  {
    AcceptedExactlyWhen(b, announced, one);
    AcceptedExactlyWhen(b, announced, other);
    var paths := b.materializedFields;
    if b.runtimeConfig.Object? {
      var canonical := b.runtimeConfig.fields;
      assert AgreeOutside(one.fields, canonical, paths) ==> AgreeOutside(other.fields, canonical, paths);
      assert AgreeOutside(other.fields, canonical, paths) ==> AgreeOutside(one.fields, canonical, paths);
    }
  }
}
