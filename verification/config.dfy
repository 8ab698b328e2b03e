/**
 * The configuration getter of `tok config-get`: command-line words are
 * normalised into field names and the resulting path is walked through the
 * nested configuration. Go reflection over the `Config` struct is replaced by
 * an explicit tree of values; the global configuration singleton is replaced
 * by the tree (and the project list) passed in as values.
 */
module Config {
  import opened Wrappers
  import opened Text

  /**
   * A configuration value by its reflection kind. `Slice` stands for every
   * kind the walk neither stops at (a map) nor descends into (a struct) while
   * fields remain: slices such as the global project list, and the rest.
   */
  datatype Value =
    | Struct(fields: seq<Field>)
    | Map(entries: map<string, string>)
    | Str(s: string)
    | Bool(b: bool)
    | Int(i: int)
    | Slice(items: seq<Value>)

  datatype Field = Field(name: string, value: Value)

  /** A lookup either yields a value, fails with a message, or panics. */
  datatype Outcome<T> = Ok(value: T) | Err(msg: string) | Panicked(reason: string)

  /** One entry of the global project list. */
  datatype Project = Project(name: string, path: string)

  const NoArgumentsMessage := "No arguments were provided. See `tok config-get --help` for usage"
  const EmptyArgumentPanic := "runtime error: index out of range [0] with length 0"
  const FieldByNamePanic := "reflect: call of reflect.Value.FieldByName on slice Value"
  const ProjectPathPanic := "Unexpected error resolving this project's path in the global config file"

  function NotValidPathMessage(fields: seq<string>): string
  {
    "`" + ToLower(Join(fields, " ")) + "` is not a valid Tokaido configuration path"
  }

  function IsValueMessage(fields: seq<string>): string
  {
    "`" + ToLower(Join(fields, " ")) + "` is a value and cannot have a value set against it as a key"
  }

  predicate IsScalar(v: Value)
  {
    v.Str? || v.Bool? || v.Int?
  }

  predicate AllNonEmpty(args: seq<string>)
  {
    forall i :: 0 <= i < |args| ==> args[i] != []
  }

  /**
   * `FieldByName` on a struct: the first field of that name, or the invalid
   * value (None) when there is none.
   */
  function FieldByName(fields: seq<Field>, name: string): (r: Option<Value>)
    ensures r.None? <==> forall i :: 0 <= i < |fields| ==> fields[i].name != name
    ensures r.Some? ==>
      exists i :: 0 <= i < |fields| && fields[i] == Field(name, r.value) &&
                  forall j :: 0 <= j < i ==> fields[j].name != name
  {
    if fields == [] then None
    else if fields[0].name == name then Some(fields[0].value)
    else FieldByName(fields[1..], name)
  }

  // ---------------------------------------------------------------------
  // Normalisation of command-line words into field names
  // ---------------------------------------------------------------------

  /** A word with its first character upper-cased and the rest lower-cased. */
  function Capitalize(a: string): (r: string)
    requires a != []
    ensures |r| == |a| && r[0] == UpperChar(a[0])
    ensures forall k :: 1 <= k < |a| ==> r[k] == LowerChar(a[k])
  {
    [UpperChar(a[0])] + ToLower(a[1..])
  }

  /** The field path the command-line words name, one field per word. */
  function NormalizedFields(args: seq<string>): (r: seq<string>)
    requires AllNonEmpty(args)
    ensures |r| == |args|
    ensures forall i :: 0 <= i < |args| ==> r[i] == Capitalize(args[i])
  {
    if args == [] then [] else [Capitalize(args[0])] + NormalizedFields(args[1..])
  }

  /** normalizeFieldSlice: builds the field path by appending one field per word. */
  method NormalizeFieldSlice(args: seq<string>) returns (s: seq<string>)
    requires AllNonEmpty(args)
    ensures |s| == |args|
    ensures forall i :: 0 <= i < |args| ==> s[i] == Capitalize(args[i])
  {
    s := [];
    for i := 0 to |args|
      invariant |s| == i
      invariant forall j :: 0 <= j < i ==> s[j] == Capitalize(args[j])
    {
      s := s + [Capitalize(args[i])];
    }
  }

  /** Normalising a field name that is already normalised changes nothing. */
  lemma CapitalizeIdempotent(a: string)
    requires a != []
    ensures Capitalize(Capitalize(a)) == Capitalize(a)
  {
  }

  lemma NormalizedFieldsIdempotent(args: seq<string>)
    requires AllNonEmpty(args)
    ensures AllNonEmpty(NormalizedFields(args))
    ensures NormalizedFields(NormalizedFields(args)) == NormalizedFields(args)
  {
    var n := NormalizedFields(args);
    forall i | 0 <= i < |args|
      ensures NormalizedFields(n)[i] == n[i]
    {
      CapitalizeIdempotent(args[i]);
    }
  }

  /** Normalisation only changes case. */
  lemma CapitalizeSameUpToCase(a: string)
    requires a != []
    ensures ToLower(Capitalize(a)) == ToLower(a)
  {
  }

  /**
   * The error messages quote the path in lower case, so a message built from
   * the normalised fields is the one built from the words the user typed.
   */
  lemma {:induction false} MessagesIgnoreNormalization(args: seq<string>)
    requires AllNonEmpty(args)
    ensures NotValidPathMessage(NormalizedFields(args)) == NotValidPathMessage(args)
    ensures IsValueMessage(NormalizedFields(args)) == IsValueMessage(args)
  {
    var n := NormalizedFields(args);
    forall i | 0 <= i < |n|
      ensures ToLower(n[i]) == ToLower(args[i])
    {
      CapitalizeSameUpToCase(args[i]);
    }
    ToLowerJoin(n, args, " ");
  }

  // ---------------------------------------------------------------------
  // Walking a field path
  // ---------------------------------------------------------------------

  /**
   * The walk of getField from the current field `f`, with `rest` the fields
   * still to visit and `fields` the whole path (quoted in error messages).
   */
  function Walk(f: Option<Value>, rest: seq<string>, fields: seq<string>): (r: Outcome<Option<Value>>)
    ensures rest == [] ==> r == Ok(f)
    ensures r.Err? ==> r.msg == NotValidPathMessage(fields) || r.msg == IsValueMessage(fields)
    ensures r.Panicked? ==> r.reason == FieldByNamePanic
    decreases |rest|
  {
    if rest == [] then Ok(f)
    else if f.None? then Err(NotValidPathMessage(fields))
    else match f.value
      case Str(_) => Err(IsValueMessage(fields))
      case Bool(_) => Err(IsValueMessage(fields))
      case Int(_) => Err(IsValueMessage(fields))
      case Map(_) => Ok(f)
      case Slice(_) => Panicked(FieldByNamePanic)
      case Struct(fs) => Walk(FieldByName(fs, rest[0]), rest[1..], fields)
  }

  /**
   * getField on the configuration whose top-level fields are `root`. A
   * one-field path is looked up at the top level and never fails; any error
   * is one of the two messages quoting the whole path.
   */
  function Resolve(root: seq<Field>, fields: seq<string>): (r: Outcome<Option<Value>>)
    requires |fields| > 0
    ensures |fields| == 1 ==> r == Ok(FieldByName(root, fields[0]))
    ensures r.Err? ==> r.msg == NotValidPathMessage(fields) || r.msg == IsValueMessage(fields)
    ensures r.Panicked? ==> r.reason == FieldByNamePanic
  {
    Walk(FieldByName(root, fields[0]), fields[1..], fields)
  }

  /**
   * Reference definition: the value reached by following `path` through
   * structs only, the configuration itself for the empty path, and None once
   * a field is missing or a non-struct has to be descended into.
   */
  function At(root: seq<Field>, path: seq<string>): Option<Value>
    decreases |path|
  {
    if path == [] then Some(Struct(root))
    else match At(root, path[..|path| - 1])
      case Some(Struct(fs)) => FieldByName(fs, path[|path| - 1])
      case _ => None
  }

  /** Every proper prefix of `path` of length 1 .. k-1 reaches a struct. */
  predicate StructsBefore(root: seq<Field>, path: seq<string>, k: nat)
    requires k <= |path|
  {
    forall j :: 1 <= j < k ==> At(root, path[..j]).Some? && At(root, path[..j]).value.Struct?
  }

  /** getField, walking the path in a loop that reassigns the current field. */
  method GetField(root: seq<Field>, fields: seq<string>) returns (r: Outcome<Option<Value>>)
    requires |fields| > 0
    ensures r == Resolve(root, fields)
  {
    var f := FieldByName(root, fields[0]);
    if |fields| == 1 {
      return Ok(f);
    }
    var i := 1;
    while i < |fields|
      invariant 1 <= i <= |fields|
      invariant Walk(f, fields[i..], fields) == Resolve(root, fields)
    {
      if f.None? {
        return Err(NotValidPathMessage(fields));
      }
      match f.value {
        case Str(_) => return Err(IsValueMessage(fields));
        case Bool(_) => return Err(IsValueMessage(fields));
        case Int(_) => return Err(IsValueMessage(fields));
        case Map(_) => return Ok(f);
        case Slice(_) => return Panicked(FieldByNamePanic);
        case Struct(fs) =>
          assert fields[i..][1..] == fields[i + 1..];
          f := FieldByName(fs, fields[i]);
      }
      i := i + 1;
    }
    return Ok(f);
  }

  /** Walking through structs from depth m to depth k is just descending. */
  lemma {:induction false} WalkThroughStructs(root: seq<Field>, path: seq<string>, m: nat, k: nat)
    requires 1 <= m <= k <= |path|
    requires StructsBefore(root, path, k)
    ensures Walk(At(root, path[..m]), path[m..], path) == Walk(At(root, path[..k]), path[k..], path)
    decreases k - m
  {
    if m < k {
      var fs := At(root, path[..m]).value.fields;
      assert path[..m + 1][..m] == path[..m];
      assert At(root, path[..m + 1]) == FieldByName(fs, path[m]);
      assert path[m..][1..] == path[m + 1..];
      WalkThroughStructs(root, path, m + 1, k);
    }
  }

  lemma ResolveIsWalkFromFirstField(root: seq<Field>, path: seq<string>)
    requires |path| > 0
    ensures Resolve(root, path) == Walk(At(root, path[..1]), path[1..], path)
  {
  }

  /**
   * getField against the reference lookup, by the depth k where the walk
   * stops: the full path when every proper prefix is a struct, otherwise the
   * first prefix that is not, whose kind decides the outcome.
   */
  lemma ResolveStopsAt(root: seq<Field>, path: seq<string>, k: nat)
    requires 1 <= k <= |path|
    requires StructsBefore(root, path, k)
    ensures k == |path| ==> Resolve(root, path) == Ok(At(root, path))
    ensures k < |path| && At(root, path[..k]).None? ==>
      Resolve(root, path) == Err(NotValidPathMessage(path))
    ensures k < |path| && At(root, path[..k]).Some? && IsScalar(At(root, path[..k]).value) ==>
      Resolve(root, path) == Err(IsValueMessage(path))
    ensures k < |path| && At(root, path[..k]).Some? && At(root, path[..k]).value.Map? ==>
      Resolve(root, path) == Ok(At(root, path[..k]))
    ensures k < |path| && At(root, path[..k]).Some? && At(root, path[..k]).value.Slice? ==>
      Resolve(root, path) == Panicked(FieldByNamePanic)
  {
    ResolveIsWalkFromFirstField(root, path);
    WalkThroughStructs(root, path, 1, k);
    if k == |path| {
      assert path[..k] == path;
    }
  }

  /** Whatever getField returns lies on the path: at its end, or a map before it. */
  lemma {:induction false} WalkFoundOnPath(root: seq<Field>, path: seq<string>, m: nat, v: Value)
    requires 1 <= m <= |path|
    requires StructsBefore(root, path, m)
    requires Walk(At(root, path[..m]), path[m..], path) == Ok(Some(v))
    ensures exists k :: m <= k <= |path| && At(root, path[..k]) == Some(v) && (k == |path| || v.Map?)
    decreases |path| - m
  {
    if m == |path| {
      assert path[..m] == path;
      assert At(root, path[..m]) == Some(v);
    } else if At(root, path[..m]).value.Map? {
      assert At(root, path[..m]) == Some(v);
    } else {
      assert At(root, path[..m]).value.Struct?;
      WalkThroughStructs(root, path, m, m + 1);
      WalkFoundOnPath(root, path, m + 1, v);
    }
  }

  lemma ResolveFoundOnPath(root: seq<Field>, path: seq<string>, v: Value)
    requires |path| > 0
    requires Resolve(root, path) == Ok(Some(v))
    ensures exists k :: 1 <= k <= |path| && At(root, path[..k]) == Some(v) && (k == |path| || v.Map?)
  {
    ResolveIsWalkFromFirstField(root, path);
    WalkFoundOnPath(root, path, 1, v);
  }

  // ---------------------------------------------------------------------
  // Entry points
  // ---------------------------------------------------------------------

  /**
   * GetConfigValueByArgs: the value at the path the command-line words name.
   * An empty word panics in the normalisation, as indexing its first rune does.
   */
  method GetConfigValueByArgs(root: seq<Field>, args: seq<string>) returns (r: Outcome<Value>)
    ensures |args| == 0 ==> r == Err(NoArgumentsMessage)
    ensures |args| > 0 && !AllNonEmpty(args) ==> r == Panicked(EmptyArgumentPanic)
    ensures r.Ok? ==>
      && |args| > 0
      && AllNonEmpty(args)
      && exists k :: 1 <= k <= |args| && At(root, NormalizedFields(args)[..k]) == Some(r.value) &&
                     (k == |args| || r.value.Map?)
    ensures r.Err? && |args| > 0 ==>
      r.msg == NotValidPathMessage(args) || r.msg == IsValueMessage(args)
    ensures |args| > 0 && AllNonEmpty(args) ==>
      var res := Resolve(root, NormalizedFields(args));
      && (res == Ok(None) ==> r == Err(NotValidPathMessage(args)))
      && (res.Ok? && res.value.Some? ==> r == Ok(res.value.value))
      && (res.Err? ==> r == Err(res.msg))
      && (res.Panicked? ==> r == Panicked(res.reason))
  {
    if |args| == 0 {
      return Err(NoArgumentsMessage);
    }
    if !AllNonEmpty(args) {
      return Panicked(EmptyArgumentPanic);
    }
    var fields := NormalizeFieldSlice(args);
    assert fields == NormalizedFields(args);
    var res := GetField(root, fields);
    MessagesIgnoreNormalization(args);
    match res {
      case Err(msg) =>
        return Err(msg);
      case Panicked(reason) =>
        return Panicked(reason);
      case Ok(None) =>
        return Err(NotValidPathMessage(args));
      case Ok(Some(v)) =>
        ResolveFoundOnPath(root, fields, v);
        return Ok(v);
    }
  }

  /**
   * GetProjectPath: the path of the first project named like the current
   * project; a panic when no project has that name.
   */
  method GetProjectPath(projects: seq<Project>, current: string) returns (r: Outcome<string>)
    ensures r.Ok? <==> exists i :: 0 <= i < |projects| && projects[i].name == current
    ensures r.Ok? ==>
      exists i :: 0 <= i < |projects| && projects[i] == Project(current, r.value) &&
                  forall j :: 0 <= j < i ==> projects[j].name != current
    ensures !r.Ok? ==> r == Panicked(ProjectPathPanic)
  {
    for i := 0 to |projects|
      invariant forall j :: 0 <= j < i ==> projects[j].name != current
    {
      if projects[i].name == current {
        return Ok(projects[i].path);
      }
    }
    return Panicked(ProjectPathPanic);
  }
}
