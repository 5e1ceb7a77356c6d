/** The argument-comment-lint wrapper: splitting a command line and rebuilding it with defaults. */
module LintArgs {
  import opened Common

  datatype Flags = Flags(manifest: bool, package: bool, noDeps: bool, library: bool, fix: bool)

  datatype Expected = ManifestPath | PackageSelection | LibrarySelection

  datatype Parsed = Parsed(lintArgs: seq<string>, cargoArgs: seq<string>, flags: Flags, targets: bool)

  /** What one argument before the separator means. */
  datatype Meaning = Expects(value: Expected) | Has(found: Flags)

  const NoFlags: Flags := Flags(false, false, false, false, false)

  function Or(a: Flags, b: Flags): Flags
  {
    Flags(a.manifest || b.manifest, a.package || b.package, a.noDeps || b.noDeps, a.library || b.library, a.fix || b.fix)
  }

  function Satisfies(e: Expected): Flags
  {
    match e
    case ManifestPath => NoFlags.(manifest := true)
    case PackageSelection => NoFlags.(package := true)
    case LibrarySelection => NoFlags.(library := true)
  }

  function MeaningOf(arg: string): Meaning
  {
    if arg == "--manifest-path" then Expects(ManifestPath)
    else if "--manifest-path=" <= arg then Has(NoFlags.(manifest := true))
    else if arg == "-p" || arg == "--package" then Expects(PackageSelection)
    else if "--package=" <= arg then Has(NoFlags.(package := true))
    else if arg == "--fix" then Has(NoFlags.(fix := true))
    else if arg == "--workspace" then Has(NoFlags.(package := true))
    else if arg == "--no-deps" then Has(NoFlags.(noDeps := true))
    else if arg == "--lib" || arg == "--lib-path" then Expects(LibrarySelection)
    else if "--lib=" <= arg || "--lib-path=" <= arg then Has(NoFlags.(library := true))
    else Has(NoFlags)
  }

  predicate SelectsTargets(arg: string)
  {
    || arg == "--all-targets" || arg == "--lib" || arg == "--bins" || arg == "--tests" || arg == "--examples"
    || arg == "--benches" || arg == "--doc" || arg == "--bin" || arg == "--test" || arg == "--example" || arg == "--bench"
    || "--bin=" <= arg || "--test=" <= arg || "--example=" <= arg || "--bench=" <= arg
  }

  // ----- Parsing: a declarative reading -----

  function Before(argv: seq<string>): seq<string>
  {
    if argv == [] || argv[0] == "--" then [] else [argv[0]] + Before(argv[1..])
  }

  function After(argv: seq<string>): seq<string>
  {
    if argv == [] then [] else if argv[0] == "--" then argv[1..] else After(argv[1..])
  }

  /** The flags an argument list sets, when its first argument is the value of `e`. */
  function FlagsIn(args: seq<string>, e: Option<Expected>): Flags
    decreases |args|
  {
    if args == [] then NoFlags
    else if e.Some? then Or(Satisfies(e.value), FlagsIn(args[1..], None))
    else
      match MeaningOf(args[0])
      case Expects(v) => FlagsIn(args[1..], Some(v))
      case Has(found) => Or(found, FlagsIn(args[1..], None))
  }

  function Parse(argv: seq<string>): Parsed
  {
    Parsed(Before(argv), After(argv), FlagsIn(Before(argv), None), AnyTargets(After(argv)))
  }

  // ----- Building -----

  function Prefix(f: Flags, manifest: string): seq<string>
  {
    (if f.manifest then [] else ["--manifest-path", manifest])
    + (if f.package || f.manifest then [] else ["--workspace"])
    + (if f.noDeps then [] else ["--no-deps"])
  }

  function Cargo(p: Parsed): seq<string>
  {
    p.cargoArgs + if p.flags.fix || p.targets then [] else ["--all-targets"]
  }

  function Tail(cargo: seq<string>): seq<string>
  {
    if cargo == [] then [] else ["--"] + cargo
  }

  function Build(p: Parsed, manifest: string): seq<string>
  {
    Prefix(p.flags, manifest) + p.lintArgs + Tail(Cargo(p))
  }

  function Normalize(argv: seq<string>, manifest: string): seq<string>
  {
    Build(Parse(argv), manifest)
  }

  // ----- The imperative forms -----

  /** `parse_wrapper_args`. */
  method ParseWrapperArgs(argv: seq<string>) returns (parsed: Parsed)
    ensures parsed == Parse(argv)
  {
    parsed := Parsed([], [], NoFlags, false);
    var afterSeparator := false;
    var expectValue: Option<Expected> := None;
    for i := 0 to |argv|
      invariant Reading(parsed, afterSeparator, expectValue, argv[i..], Parse(argv))
    {
      assert argv[i..][0] == argv[i] && argv[i..][1..] == argv[i + 1..];
      parsed, afterSeparator, expectValue := ReadArgument(parsed, afterSeparator, expectValue, argv[i], argv[i..], Parse(argv));
    }
  }

  /** The loop body: consumes the first argument of `rest` on the way to `whole`. */
  method ReadArgument(p: Parsed, after: bool, e: Option<Expected>, arg: string, ghost rest: seq<string>, ghost whole: Parsed)
    returns (parsed: Parsed, afterSeparator: bool, expectValue: Option<Expected>)
    requires rest != [] && rest[0] == arg && Reading(p, after, e, rest, whole)
    ensures Reading(parsed, afterSeparator, expectValue, rest[1..], whole)
  {
    parsed, afterSeparator, expectValue := p, after, e;
    if afterSeparator {
      parsed := parsed.(cargoArgs := parsed.cargoArgs + [arg], targets := parsed.targets || SelectsTargets(arg));
      AnySplits(rest);
    } else if arg == "--" {
      afterSeparator := true;
    } else {
      Advances(p.lintArgs, rest);
      var flags;
      flags, expectValue := ReadLintArgument(p.flags, e, arg, Before(rest));
      parsed := parsed.(lintArgs := parsed.lintArgs + [arg], flags := flags);
    }
  }

  /** The flags half of the loop body, for an argument before the separator. */
  method ReadLintArgument(f: Flags, e: Option<Expected>, arg: string, ghost lint: seq<string>)
    returns (flags: Flags, expectValue: Option<Expected>)
    requires lint != [] && lint[0] == arg
    ensures Or(flags, FlagsIn(lint[1..], expectValue)) == Or(f, FlagsIn(lint, e))
  {
    flags, expectValue := f, e;
    if expectValue.Some? {
      flags, expectValue := Or(flags, Satisfies(expectValue.value)), None;
    } else {
      match MeaningOf(arg)
      case Expects(v) => expectValue := Some(v);
      case Has(found) => flags := Or(flags, found);
    }
  }

  lemma Advances(lint: seq<string>, rest: seq<string>)
    requires rest != [] && rest[0] != "--"
    ensures Before(rest) == [rest[0]] + Before(rest[1..]) && Before(rest)[1..] == Before(rest[1..])
    ensures lint + Before(rest) == (lint + [rest[0]]) + Before(rest[1..])
  {
  }

  predicate AnyTargets(args: seq<string>)
  {
    exists i :: 0 <= i < |args| && SelectsTargets(args[i])
  }

  lemma AnySplits(args: seq<string>)
    requires args != []
    ensures AnyTargets(args) <==> SelectsTargets(args[0]) || AnyTargets(args[1..])
  {
    if i :| 0 < i < |args| && SelectsTargets(args[i]) { assert SelectsTargets(args[1..][i - 1]); }
  }

  /** What has been read so far plus what is left makes up the whole. */
  ghost predicate Reading(p: Parsed, after: bool, e: Option<Expected>, rest: seq<string>, whole: Parsed)
  {
    var lint, cargo := if after then [] else Before(rest), if after then rest else After(rest);
    && whole.lintArgs == p.lintArgs + lint
    && whole.cargoArgs == p.cargoArgs + cargo
    && whole.flags == Or(p.flags, FlagsIn(lint, e))
    && whole.targets == (p.targets || AnyTargets(cargo))
  }

  method BuildFinalArgs(p: Parsed, manifest: string) returns (finalArgs: seq<string>)
    ensures finalArgs == Build(p, manifest)
  {
    var cargoArgs := p.cargoArgs;
    finalArgs := BuildDefaults(p.flags, manifest);
    if !p.flags.fix && !p.targets { cargoArgs := cargoArgs + ["--all-targets"]; }
    finalArgs := finalArgs + p.lintArgs;
    if cargoArgs != [] { finalArgs := finalArgs + (["--"] + cargoArgs); }
  }

  method BuildDefaults(f: Flags, manifest: string) returns (r: seq<string>)
    ensures r == Prefix(f, manifest)
  {
    r := if f.manifest then [] else ["--manifest-path", manifest];
    if !f.package && !f.manifest { r := r + ["--workspace"]; }
    if !f.noDeps { r := r + ["--no-deps"]; }
  }

  // ----- Normalising twice -----

  lemma {:induction false} BeforeHasNoSeparator(argv: seq<string>)
    ensures "--" !in Before(argv)
  {
    if argv != [] && argv[0] != "--" { BeforeHasNoSeparator(argv[1..]); }
  }

  lemma SplitsCons(arg: string, rest: seq<string>)
    requires arg != "--"
    ensures Before([arg] + rest) == [arg] + Before(rest) && After([arg] + rest) == After(rest)
  {
    assert ([arg] + rest)[1..] == rest;
  }

  /** A list without a separator, followed by one and more arguments, splits back into the two. */
  lemma {:induction false} SplitsBack(lint: seq<string>, cargo: seq<string>)
    requires "--" !in lint
    ensures Before(lint + Tail(cargo)) == lint && After(lint + Tail(cargo)) == cargo
  {
    if lint == [] {
      NothingBefore(Tail(cargo));
      TailSplits(cargo);
    } else {
      var arg, rest := lint[0], lint[1..];
      HeadAndTail(lint);
      SplitsBack(rest, cargo);
      Regroup([arg], rest, Tail(cargo));
      SplitsCons(arg, rest + Tail(cargo));
    }
  }

  lemma TailSplits(cargo: seq<string>)
    ensures Before(Tail(cargo)) == [] && After(Tail(cargo)) == cargo
  {
    assert cargo != [] ==> Tail(cargo)[1..] == cargo;
  }

  lemma HeadAndTail(args: seq<string>)
    requires args != []
    ensures args == [args[0]] + args[1..]
  {
  }

  /** User arguments before and after the separator survive, in order, around the defaults. */
  lemma ArgumentsSurvive(argv: seq<string>, manifest: string)
    requires manifest != "--" || Parse(argv).flags.manifest
    ensures var p := Parse(argv);
      && Before(Normalize(argv, manifest)) == Prefix(p.flags, manifest) + Before(argv)
      && After(Normalize(argv, manifest)) == Cargo(p)
      && After(argv) <= Cargo(p)
  {
    var p := Parse(argv);
    BeforeHasNoSeparator(argv);
    PrefixHasNoSeparator(p.flags, manifest);
    SplitsBack(Prefix(p.flags, manifest) + p.lintArgs, Cargo(p));
  }

  lemma PrefixHasNoSeparator(f: Flags, manifest: string)
    requires manifest != "--" || f.manifest
    ensures "--" !in Prefix(f, manifest)
  {
  }

  function Defaults(f: Flags): Flags
  {
    Flags(!f.manifest, !f.package && !f.manifest, !f.noDeps, false, false)
  }

  lemma OneFlag(arg: string, found: Flags, rest: seq<string>)
    requires MeaningOf(arg) == Has(found)
    ensures FlagsIn([arg] + rest, None) == Or(found, FlagsIn(rest, None))
  {
    assert ([arg] + rest)[1..] == rest;
  }

  lemma ManifestFlag(manifest: string, rest: seq<string>)
    ensures FlagsIn(["--manifest-path", manifest] + rest, None) == Or(NoFlags.(manifest := true), FlagsIn(rest, None))
  {
    var args := ["--manifest-path", manifest] + rest;
    assert args[0] == "--manifest-path" && args[1..] == [manifest] + rest;
    assert ([manifest] + rest)[1..] == rest;
  }

  /** The defaults set exactly the flags that were missing, and disturb none of the user's. */
  lemma PrefixFlags(f: Flags, manifest: string, lint: seq<string>)
    ensures FlagsIn(Prefix(f, manifest) + lint, None) == Or(Defaults(f), FlagsIn(lint, None))
  {
    var x := if f.manifest then [] else ["--manifest-path", manifest];
    var y := if f.package || f.manifest then [] else ["--workspace"];
    var z := if f.noDeps then [] else ["--no-deps"];
    Regroup(x + y, z, lint);
    Regroup(x, y, z + lint);
    if f.manifest { NothingBefore(y + (z + lint)); } else { ManifestFlag(manifest, y + (z + lint)); }
    if f.package || f.manifest { NothingBefore(z + lint); } else { OneFlag("--workspace", NoFlags.(package := true), z + lint); }
    if f.noDeps { NothingBefore(lint); } else { OneFlag("--no-deps", NoFlags.(noDeps := true), lint); }
  }

  lemma ReparsedFlags(argv: seq<string>, manifest: string)
    requires manifest != "--" || Parse(argv).flags.manifest
    ensures var p, q := Parse(argv), Parse(Normalize(argv, manifest));
      && q.lintArgs == Prefix(p.flags, manifest) + p.lintArgs && q.cargoArgs == Cargo(p)
      && q.flags == Or(Defaults(p.flags), p.flags)
      && q.targets == AnyTargets(Cargo(p))
  {
    ArgumentsSurvive(argv, manifest);
    PrefixFlags(Parse(argv).flags, manifest, Parse(argv).lintArgs);
  }

  lemma CargoSelects(p: Parsed)
    requires p.targets == AnyTargets(p.cargoArgs)
    ensures AnyTargets(Cargo(p)) <==> p.targets || !p.flags.fix
  {
    if !p.flags.fix && !p.targets {
      assert Cargo(p)[|p.cargoArgs|] == "--all-targets";
    } else {
      assert Cargo(p) == p.cargoArgs;
    }
  }

  /** Normalising again changes nothing. */
  lemma NormalizeIdempotent(argv: seq<string>, manifest: string)
    requires manifest != "--" || Parse(argv).flags.manifest
    ensures Normalize(Normalize(argv, manifest), manifest) == Normalize(argv, manifest)
  {
    var p, q := Parse(argv), Parse(Normalize(argv, manifest));
    ReparsedFlags(argv, manifest);
    CargoSelects(p);
    assert Prefix(q.flags, manifest) == [];
    assert Cargo(q) == Cargo(p);
    NothingBefore(q.lintArgs);
  }

  /** Without a manifest path of the user's own, the path `--` is taken for the separator. */
  lemma SeparatorPathSplits(argv: seq<string>)
    requires !Parse(argv).flags.manifest
    ensures var f := Normalize(argv, "--");
      |f| >= 2 && Parse(f) == Parsed(["--manifest-path"], f[2..], NoFlags, AnyTargets(f[2..]))
  {
    var f := Normalize(argv, "--");
    assert f[0] == "--manifest-path" && f[1] == "--";
    assert f[1..][0] == "--";
    assert Before(f[1..]) == [] && Before(f) == ["--manifest-path"];
    assert After(f) == After(f[1..]) == f[2..] by { assert f[1..][1..] == f[2..]; }
    assert ["--manifest-path"][1..] == [];
    assert FlagsIn(["--manifest-path"], None) == NoFlags;
  }

  /** So the next normalisation puts the path in again. */
  lemma SeparatorPathGrows(argv: seq<string>)
    requires !Parse(argv).flags.manifest
    ensures |Normalize(Normalize(argv, "--"), "--")| > |Normalize(argv, "--")|
  {
    var f := Normalize(argv, "--");
    SeparatorPathSplits(argv);
    PrefixOfNoFlags("--");
    assert |Tail(Cargo(Parse(f)))| >= |f| - 2;
  }

  lemma PrefixOfNoFlags(manifest: string)
    ensures |Prefix(NoFlags, manifest)| == 4
  {
  }

  function Repeated(argv: seq<string>, manifest: string, n: nat): seq<string>
  {
    if n == 0 then argv else Normalize(Repeated(argv, manifest, n - 1), manifest)
  }

  lemma {:induction false} RepeatedLacksManifest(argv: seq<string>, n: nat)
    requires !Parse(argv).flags.manifest
    ensures !Parse(Repeated(argv, "--", n)).flags.manifest
  {
    if n > 0 {
      RepeatedLacksManifest(argv, n - 1);
      SeparatorPathSplits(Repeated(argv, "--", n - 1));
    }
  }

  lemma RepeatedUnfolds(argv: seq<string>, manifest: string, n: nat)
    ensures Repeated(argv, manifest, n + 1) == Normalize(Repeated(argv, manifest, n), manifest)
  {
  }

  /** Every further normalisation makes the list longer still. */
  lemma SeparatorPathGrowsForever(argv: seq<string>, n: nat)
    requires !Parse(argv).flags.manifest
    ensures |Repeated(argv, "--", n + 2)| > |Repeated(argv, "--", n + 1)|
  {
    RepeatedLacksManifest(argv, n);
    SeparatorPathGrows(Repeated(argv, "--", n));
    RepeatedUnfolds(argv, "--", n);
    RepeatedUnfolds(argv, "--", n + 1);
  }

  /** Normalising is idempotent exactly when the path put in is not mistaken for the separator. */
  lemma IdempotentIff(argv: seq<string>, manifest: string)
    ensures Normalize(Normalize(argv, manifest), manifest) == Normalize(argv, manifest)
      <==> manifest != "--" || Parse(argv).flags.manifest
  {
    if manifest != "--" || Parse(argv).flags.manifest {
      NormalizeIdempotent(argv, manifest);
    } else {
      SeparatorPathGrows(argv);
    }
  }
}
