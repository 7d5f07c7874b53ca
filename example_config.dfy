/**
  The `MyAppConfig` struct of the repository's example, stated in the
  model: the policy of each of its six fields, the command-line struct the
  macro derives for it, and how its `debug` field is resolved.
 */
module ExampleConfig {
  import opened Wrappers
  import opened Syntax
  import opened FieldAnalysis
  import opened Policy
  import opened CliSurface
  import opened Resolution
  import opened Derive
  import opened Seqs

  function PlatformconfigAttr(items: seq<NestedMeta>): Attribute
  {
    Attribute(PlatformconfigPath, Some(List("platformconfig", items)))
  }

  function Short(s: string): NestedMeta { MetaItem(NameValue("short", s)) }
  function Long(s: string): NestedMeta { MetaItem(NameValue("long", s)) }

  const Source: Field := Field("source", Path(["String"]), [PlatformconfigAttr([Short("s"), Long("source")])])
  const Debug: Field := Field("debug", Path(["bool"]), [PlatformconfigAttr([MetaItem(Word(OptionalCmd)), Short("d"), Long("debug")])])
  const DbHost: Field := Field("db_host", Path(["String"]), [PlatformconfigAttr([MetaItem(Word(NoCmd))])])
  const Timeout: Field := Field("timeout", Path(["Option"]), [PlatformconfigAttr([Short("t"), Long("timeout")])])
  const Port: Field := Field("port", Path(["Option"]), [PlatformconfigAttr([MetaItem(Word(NoCmd))])])
  const Pattern: Field := Field("pattern", Path(["Option"]), [])

  const ExampleFields: seq<Field> := [Source, Debug, DbHost, Timeout, Port, Pattern]

  const MyAppConfig: DeriveInput := DeriveInput("MyAppConfig", Struct(Named(ExampleFields)))

  /** The six fields get the five policies the example's comments describe:
      required on the command line, optional on the command line with a
      required fallback, source-only and required, optional, source-only
      and optional, optional. */
  lemma ExamplePolicies()
    ensures PolicyOf(Analyze(Source)) == CliRequiredFallbackRequired
    ensures PolicyOf(Analyze(Debug)) == CliOptionalOrFallback
    ensures PolicyOf(Analyze(DbHost)) == SourceOnlyRequired
    ensures PolicyOf(Analyze(Timeout)) == CliOptionalValueOptional
    ensures PolicyOf(Analyze(Port)) == SourceOnlyOptional
    ensures PolicyOf(Analyze(Pattern)) == CliOptionalValueOptional
  {
    DeclaresInOneList([Short("s"), Long("source")], NoCmd);
    DeclaresInOneList([Short("s"), Long("source")], OptionalCmd);
    DeclaresInOneList([MetaItem(Word(OptionalCmd)), Short("d"), Long("debug")], NoCmd);
    DeclaresInOneList([MetaItem(Word(OptionalCmd)), Short("d"), Long("debug")], OptionalCmd);
    DeclaresInOneList([MetaItem(Word(NoCmd))], NoCmd);
    DeclaresInOneList([Short("t"), Long("timeout")], NoCmd);
  }

  /** A field with a single `platformconfig(...)` list declares exactly the
      words in that list. */
  lemma DeclaresInOneList(items: seq<NestedMeta>, word: string)
    ensures Declares([PlatformconfigAttr(items)], word) <==> MetaItem(Word(word)) in items
  {
    FlatMapOne(PlatformconfigItems, PlatformconfigAttr(items));
  }

  /** The derived command-line struct `PlatformConfigMyAppConfigStructOpt`
      has four fields, `source`, `debug`, `timeout` and `pattern`, in that
      order; `debug` is widened to `Option<bool>` and the others keep their
      declared types. */
  lemma ExampleSurface()
    ensures var s := ImplForStruct("MyAppConfig", ExampleFields).surface;
            && |s| == 4
            && s[0].name == "source" && s[0].ty == AsDeclared(Source.ty)
            && s[1].name == "debug" && s[1].ty == OptionOf(Debug.ty)
            && s[2].name == "timeout" && s[2].ty == AsDeclared(Timeout.ty)
            && s[3].name == "pattern" && s[3].ty == AsDeclared(Pattern.ty)
  {
    ExamplePolicies();
    SurfaceOfSixFields("MyAppConfig", Source, Debug, DbHost, Timeout, Port, Pattern);
  }

  /** The same for six declared fields. */
  lemma SurfaceOfSixFields(name: string, f0: Field, f1: Field, f2: Field, f3: Field, f4: Field, f5: Field)
    requires PolicyOf(Analyze(f0)) == CliRequiredFallbackRequired
    requires PolicyOf(Analyze(f1)) == CliOptionalOrFallback
    requires PolicyOf(Analyze(f2)) == SourceOnlyRequired
    requires PolicyOf(Analyze(f3)) == CliOptionalValueOptional
    requires PolicyOf(Analyze(f4)) == SourceOnlyOptional
    requires PolicyOf(Analyze(f5)) == CliOptionalValueOptional
    ensures var s := ImplForStruct(name, [f0, f1, f2, f3, f4, f5]).surface;
            && |s| == 4
            && s[0].name == f0.name && s[0].ty == AsDeclared(f0.ty)
            && s[1].name == f1.name && s[1].ty == OptionOf(f1.ty)
            && s[2].name == f3.name && s[2].ty == AsDeclared(f3.ty)
            && s[3].name == f5.name && s[3].ty == AsDeclared(f5.ty)
  {
    var fs := [f0, f1, f2, f3, f4, f5];
    AnalyzeAllAt(fs, 0);
    AnalyzeAllAt(fs, 1);
    AnalyzeAllAt(fs, 2);
    AnalyzeAllAt(fs, 3);
    AnalyzeAllAt(fs, 4);
    AnalyzeAllAt(fs, 5);
    AnalyzeIsConsistent(f0);
    AnalyzeIsConsistent(f1);
    AnalyzeIsConsistent(f2);
    AnalyzeIsConsistent(f3);
    AnalyzeIsConsistent(f4);
    AnalyzeIsConsistent(f5);
    SurfaceOfSixInfos(AnalyzeAll(fs));
  }

  lemma AnalyzeAllAt(fields: seq<Field>, k: nat)
    requires k < |fields|
    ensures |AnalyzeAll(fields)| == |fields| && AnalyzeAll(fields)[k] == Analyze(fields[k])
  {
  }

  /** The surface of any six analysed fields whose policies are those of
      the example. */
  lemma SurfaceOfSixInfos(infos: seq<FieldInfo>)
    requires |infos| == 6
    requires forall k :: 0 <= k < 6 ==> Consistent(infos[k])
    requires PolicyOf(infos[0]) == CliRequiredFallbackRequired
    requires PolicyOf(infos[1]) == CliOptionalOrFallback
    requires PolicyOf(infos[2]) == SourceOnlyRequired
    requires PolicyOf(infos[3]) == CliOptionalValueOptional
    requires PolicyOf(infos[4]) == SourceOnlyOptional
    requires PolicyOf(infos[5]) == CliOptionalValueOptional
    ensures var s := Surface(infos);
            && |s| == 4
            && s[0].name == infos[0].field.name && s[0].ty == AsDeclared(infos[0].field.ty)
            && s[1].name == infos[1].field.name && s[1].ty == OptionOf(infos[1].field.ty)
            && s[2].name == infos[3].field.name && s[2].ty == AsDeclared(infos[3].field.ty)
            && s[3].name == infos[5].field.name && s[3].ty == AsDeclared(infos[5].field.ty)
  {
    EntryByPolicy(infos[0]);
    EntryByPolicy(infos[1]);
    EntryByPolicy(infos[2]);
    EntryByPolicy(infos[3]);
    EntryByPolicy(infos[4]);
    EntryByPolicy(infos[5]);
    SurfaceOfSix(infos);
  }

  /** The entry an analysed field contributes, read off its policy. */
  lemma EntryByPolicy(info: FieldInfo)
    requires Consistent(info)
    ensures var p := PolicyOf(info);
            && (!ReadsCli(p) ==> Entry(info) == [])
            && (ReadsCli(p) ==>
                  && |Entry(info)| == 1
                  && Entry(info)[0].name == info.field.name
                  && Entry(info)[0].ty == if p == CliOptionalOrFallback then OptionOf(info.field.ty) else AsDeclared(info.field.ty))
  {
  }

  lemma SurfaceOfSix(infos: seq<FieldInfo>)
    requires |infos| == 6
    ensures Surface(infos) ==
              Entry(infos[0]) + Entry(infos[1]) + Entry(infos[2]) + Entry(infos[3]) + Entry(infos[4]) + Entry(infos[5])
  {
    assert infos == [infos[0]] + [infos[1]] + [infos[2]] + [infos[3]] + [infos[4]] + [infos[5]];
    SurfaceAppend([infos[0]] + [infos[1]] + [infos[2]] + [infos[3]] + [infos[4]], [infos[5]]);
    SurfaceAppend([infos[0]] + [infos[1]] + [infos[2]] + [infos[3]], [infos[4]]);
    SurfaceAppend([infos[0]] + [infos[1]] + [infos[2]], [infos[3]]);
    SurfaceAppend([infos[0]] + [infos[1]], [infos[2]]);
    SurfaceAppend([infos[0]], [infos[1]]);
    FlatMapOne(Entry, infos[0]);
    FlatMapOne(Entry, infos[1]);
    FlatMapOne(Entry, infos[2]);
    FlatMapOne(Entry, infos[3]);
    FlatMapOne(Entry, infos[4]);
    FlatMapOne(Entry, infos[5]);
  }

  /** `debug` is optional on the command line and required overall: when
      `-d` is given its command-line value is taken (and an unset value
      panics), otherwise the configuration must hold it. */
  lemma DebugResolution<V, E>(rt: Runtime<V, E>)
    ensures rt.isPresent("debug") ==>
              FieldSetter(Analyze(Debug), rt) ==
                if rt.opts("debug").Some? then TakeCli(rt.opts("debug")) else Panic(Abort("debug", CliValueUnset))
    ensures !rt.isPresent("debug") ==>
              FieldSetter(Analyze(Debug), rt) ==
                match rt.get("debug")
                case Success(v) => TakeConfig(v)
                case Failure(e) => Panic(Abort("debug", LookupFailed(e)))
  {
    ExamplePolicies();
  }

  /** A command line giving values for `-s` and `-d` passes the parser's
      required-argument check; with `db_host` missing from the
      configuration, the conversion then aborts on `db_host`, the first
      field whose setter panics. */
  lemma ConversionWithoutDbHost<V, E>(rt: Runtime<V, E>)
    requires rt.isPresent("source") && rt.opts("source").Some?
    requires rt.isPresent("debug") && rt.opts("debug").Some?
    requires rt.get("db_host").Failure?
    ensures FromConfig(ImplForStruct("MyAppConfig", ExampleFields), rt) ==
              Failure(Abort("db_host", LookupFailed(rt.get("db_host").error)))
  {
    ExamplePolicies();
    ThirdFieldAborts("MyAppConfig", Source, Debug, DbHost, Timeout, Port, Pattern, rt);
  }

  /** The same for any six fields whose first three have the example's
      policies. */
  lemma ThirdFieldAborts<V, E>(name: string, f0: Field, f1: Field, f2: Field, f3: Field, f4: Field, f5: Field, rt: Runtime<V, E>)
    requires PolicyOf(Analyze(f0)) == CliRequiredFallbackRequired
    requires PolicyOf(Analyze(f1)) == CliOptionalOrFallback
    requires PolicyOf(Analyze(f2)) == SourceOnlyRequired
    requires rt.isPresent(f0.name) && rt.opts(f0.name).Some?
    requires rt.isPresent(f1.name) && rt.opts(f1.name).Some?
    requires rt.get(f2.name).Failure?
    ensures FromConfig(ImplForStruct(name, [f0, f1, f2, f3, f4, f5]), rt) ==
              Failure(Abort(f2.name, LookupFailed(rt.get(f2.name).error)))
  {
    var fs := [f0, f1, f2, f3, f4, f5];
    AnalyzeAllAt(fs, 0);
    AnalyzeAllAt(fs, 1);
    AnalyzeAllAt(fs, 2);
    ThirdInfoAborts(AnalyzeAll(fs), rt);
  }

  lemma ThirdInfoAborts<V, E>(infos: seq<FieldInfo>, rt: Runtime<V, E>)
    requires |infos| == 6
    requires PolicyOf(infos[0]) == CliRequiredFallbackRequired
    requires PolicyOf(infos[1]) == CliOptionalOrFallback
    requires PolicyOf(infos[2]) == SourceOnlyRequired
    requires rt.isPresent(infos[0].field.name) && rt.opts(infos[0].field.name).Some?
    requires rt.isPresent(infos[1].field.name) && rt.opts(infos[1].field.name).Some?
    requires rt.get(infos[2].field.name).Failure?
    ensures Build(infos, rt) == Failure(Abort(infos[2].field.name, LookupFailed(rt.get(infos[2].field.name).error)))
  {
    assert !FieldSetter(infos[0], rt).Panic? && !FieldSetter(infos[1], rt).Panic?;
    BuildFailsAtFirstPanic(infos, rt, 2);
  }

  /** The example is a struct with named fields, so the derive accepts it
      and expands its six fields. */
  lemma ExampleIsAccepted()
    ensures ImplPlatformconfig(MyAppConfig) == Success(ImplForStruct("MyAppConfig", ExampleFields))
  {
    OnlyNamedStructsAccepted(MyAppConfig);
  }
}
