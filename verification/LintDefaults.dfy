/** What the normalised command line is, from the spelling of the user's own arguments. */
module LintDefaults {
  import opened Common
  import opened LintArgs

  // ----- The separator -----

  /** The arguments split at the first `--`, if there is one. */
  lemma {:induction false} SplitsAtSeparator(argv: seq<string>)
    ensures "--" !in Before(argv)
    ensures argv == if "--" in argv then Before(argv) + ["--"] + After(argv) else Before(argv)
    ensures "--" !in argv ==> After(argv) == []
  {
    if argv != [] && argv[0] != "--" {
      SplitsAtSeparator(argv[1..]);
      assert argv == [argv[0]] + argv[1..];
    } else if argv != [] {
      assert argv == ["--"] + argv[1..];
      NothingBefore(["--"]);
    }
  }

  // ----- Arguments as they are read -----

  /** An argument is the value of the option before it, or stands for itself. */
  datatype Token = Value(option: string, arg: string) | Plain(arg: string)

  predicate TakesValue(arg: string)
  {
    arg in {"--manifest-path", "-p", "--package", "--lib", "--lib-path"}
  }

  function Tokens(args: seq<string>, option: Option<string>): seq<Token>
    decreases |args|
  {
    if args == [] then []
    else if option.Some? then [Value(option.value, args[0])] + Tokens(args[1..], None)
    else [Plain(args[0])] + Tokens(args[1..], if TakesValue(args[0]) then Some(args[0]) else None)
  }

  predicate GivesManifest(t: Token)
  {
    match t
    case Value(option, _) => option == "--manifest-path"
    case Plain(arg) => "--manifest-path=" <= arg
  }

  predicate GivesPackage(t: Token)
  {
    match t
    case Value(option, _) => option == "-p" || option == "--package"
    case Plain(arg) => "--package=" <= arg || arg == "--workspace"
  }

  predicate GivesLibrary(t: Token)
  {
    match t
    case Value(option, _) => option == "--lib" || option == "--lib-path"
    case Plain(arg) => "--lib=" <= arg || "--lib-path=" <= arg
  }

  predicate SelectsNamed(arg: string)
  {
    || arg in {"--all-targets", "--lib", "--bins", "--tests", "--examples", "--benches", "--doc"}
    || arg in {"--bin", "--test", "--example", "--bench"}
    || exists p :: p in ["--bin=", "--test=", "--example=", "--bench="] && p <= arg
  }

  predicate Any(tokens: seq<Token>, p: Token -> bool)
  {
    exists t :: t in tokens && p(t)
  }

  lemma AnyCons(t: Token, tokens: seq<Token>, p: Token -> bool)
    ensures Any([t] + tokens, p) <==> p(t) || Any(tokens, p)
  {
    if p(t) { assert t in [t] + tokens; }
    if u :| u in tokens && p(u) { assert u in [t] + tokens; }
  }

  /** The option an expected value belongs to. */
  predicate Matches(e: Option<Expected>, option: Option<string>)
  {
    match e
    case None => option.None?
    case Some(ManifestPath) => option == Some("--manifest-path")
    case Some(PackageSelection) => option == Some("-p") || option == Some("--package")
    case Some(LibrarySelection) => option == Some("--lib") || option == Some("--lib-path")
  }

  ghost predicate FlagsAre(f: Flags, tokens: seq<Token>)
  {
    && (f.manifest <==> Any(tokens, GivesManifest))
    && (f.package <==> Any(tokens, GivesPackage))
    && (f.library <==> Any(tokens, GivesLibrary))
    && (f.noDeps <==> Plain("--no-deps") in tokens)
    && (f.fix <==> Plain("--fix") in tokens)
  }

  /** The flags one token adds. */
  ghost predicate Adds(f: Flags, t: Token)
  {
    && f.manifest == GivesManifest(t) && f.package == GivesPackage(t) && f.library == GivesLibrary(t)
    && f.noDeps == (t == Plain("--no-deps")) && f.fix == (t == Plain("--fix"))
  }

  lemma FlagsCons(f: Flags, t: Token, rest: Flags, tokens: seq<Token>)
    requires Adds(f, t) && FlagsAre(rest, tokens)
    ensures FlagsAre(Or(f, rest), [t] + tokens)
  {
    AnyCons(t, tokens, GivesManifest);
    AnyCons(t, tokens, GivesPackage);
    AnyCons(t, tokens, GivesLibrary);
  }

  lemma ValueAdds(e: Expected, option: string, arg: string)
    requires Matches(Some(e), Some(option))
    ensures Adds(Satisfies(e), Value(option, arg))
  {
  }

  /** Options that share no third character are told apart by it. */
  lemma PrefixChars(p: string, arg: string)
    requires p <= arg && |p| > 2
    ensures |arg| >= |p| && arg[2] == p[2] && arg[|p| - 1] == p[|p| - 1]
  {
  }

  /** What the parser makes of an option is what its spelling says. */
  lemma PlainAdds(arg: string)
    ensures match MeaningOf(arg)
      case Expects(v) => TakesValue(arg) && Matches(Some(v), Some(arg)) && Adds(NoFlags, Plain(arg))
      case Has(found) => !TakesValue(arg) && Adds(found, Plain(arg))
  {
    if "--manifest-path=" <= arg { PrefixChars("--manifest-path=", arg); }
    if "--package=" <= arg { PrefixChars("--package=", arg); }
    if "--lib=" <= arg { PrefixChars("--lib=", arg); }
    if "--lib-path=" <= arg { PrefixChars("--lib-path=", arg); }
  }

  lemma {:induction false} FlagsFromTokens(args: seq<string>, e: Option<Expected>, option: Option<string>)
    requires Matches(e, option)
    ensures FlagsAre(FlagsIn(args, e), Tokens(args, option))
    decreases |args|
  {
    if args != [] {
      if e.Some? {
        FlagsFromTokens(args[1..], None, None);
        ValueAdds(e.value, option.value, args[0]);
        FlagsCons(Satisfies(e.value), Value(option.value, args[0]), FlagsIn(args[1..], None), Tokens(args[1..], None));
      } else {
        PlainAdds(args[0]);
        match MeaningOf(args[0])
        case Expects(v) =>
          FlagsFromTokens(args[1..], Some(v), Some(args[0]));
          FlagsCons(NoFlags, Plain(args[0]), FlagsIn(args[1..], Some(v)), Tokens(args[1..], Some(args[0])));
        case Has(found) =>
          FlagsFromTokens(args[1..], None, None);
          FlagsCons(found, Plain(args[0]), FlagsIn(args[1..], None), Tokens(args[1..], None));
      }
    }
  }

  lemma SelectsIff(arg: string)
    ensures SelectsTargets(arg) <==> SelectsNamed(arg)
  {
    var ps := ["--bin=", "--test=", "--example=", "--bench="];
    assert ps[0] in ps && ps[1] in ps && ps[2] in ps && ps[3] in ps;
    if "--bin=" <= arg || "--test=" <= arg || "--example=" <= arg || "--bench=" <= arg {
      assert exists p :: p in ps && p <= arg;
    }
  }

  // ----- The whole list -----

  /** The lint arguments with the defaults the user did not give, and the cargo arguments with theirs. */
  function Expanded(argv: seq<string>, manifest: string): seq<string>
  {
    var tokens, cargo := Tokens(Before(argv), None), After(argv);
    var path := if Any(tokens, GivesManifest) then [] else ["--manifest-path", manifest];
    var workspace := if Any(tokens, GivesPackage) || Any(tokens, GivesManifest) then [] else ["--workspace"];
    var noDeps := if Plain("--no-deps") in tokens then [] else ["--no-deps"];
    var all := if Plain("--fix") in tokens || exists i :: 0 <= i < |cargo| && SelectsNamed(cargo[i]) then [] else ["--all-targets"];
    path + workspace + noDeps + Before(argv) + if cargo + all == [] then [] else ["--"] + (cargo + all)
  }

  /** Normalising adds exactly the defaults that the spelling of the arguments leaves open. */
  lemma NormalizeExpands(argv: seq<string>, manifest: string)
    ensures Normalize(argv, manifest) == Expanded(argv, manifest)
  {
    FlagsFromTokens(Before(argv), None, None);
    var cargo := After(argv);
    forall i | 0 <= i < |cargo| ensures SelectsTargets(cargo[i]) <==> SelectsNamed(cargo[i]) { SelectsIff(cargo[i]); }
    assert AnyTargets(cargo) <==> exists i :: 0 <= i < |cargo| && SelectsNamed(cargo[i]);
  }
}
