/**
  The derive entry point: the named-struct check, the analysis of every
  field, the generated command-line struct and the generated conversion.
 */
module Derive {
  import opened Wrappers
  import opened Syntax
  import opened FieldAnalysis
  import opened CliSurface
  import opened Resolution

  const NotNamedStruct: string := "platformconfig only supports non-tuple structs"

  /** What the macro generates for one struct: the analysed fields, the
      name and fields of the command-line struct. */
  datatype Expansion = Expansion(
    structName: string,
    cliStructName: string,
    infos: seq<FieldInfo>,
    surface: seq<CliField>)

  function CliStructName(name: string): string
  {
    "PlatformConfig" + name + "StructOpt"
  }

  /** Every field analysed, in declaration order. */
  function AnalyzeAll(fields: seq<Field>): seq<FieldInfo>
  {
    seq(|fields|, k requires 0 <= k < |fields| => Analyze(fields[k]))
  }

  function ImplForStruct(name: string, fields: seq<Field>): Expansion
  {
    var infos := AnalyzeAll(fields);
    Expansion(name, CliStructName(name), infos, Surface(infos))
  }

  /** Only a struct with named fields is accepted. */
  function ImplPlatformconfig(input: DeriveInput): Result<Expansion, string>
  {
    match input.data
    case Struct(Named(fields)) => Success(ImplForStruct(input.ident, fields))
    case _ => Failure(NotNamedStruct)
  }

  /** The generated `from`: one conversion attempt over the parsed command
      line and the configuration. */
  function FromConfig<V, E>(expansion: Expansion, rt: Runtime<V, E>): Result<seq<Option<V>>, Abort<E>>
  {
    Build(expansion.infos, rt)
  }

  /** Tuple structs, unit structs, enums and unions are all rejected with
      the same message; every struct with named fields is accepted. */
  lemma OnlyNamedStructsAccepted(input: DeriveInput)
    ensures ImplPlatformconfig(input).Success? <==> input.data.Struct? && input.data.fields.Named?
    ensures ImplPlatformconfig(input).Failure? ==> ImplPlatformconfig(input).error == NotNamedStruct
    ensures ImplPlatformconfig(input).Success? ==>
              ImplPlatformconfig(input).value == ImplForStruct(input.ident, input.data.fields.named)
  {
  }

  /** The expansion of a named struct: one consistent analysis per field,
      and a command-line struct holding exactly the entries of the fields
      without `no_cmd`, in declaration order. */
  lemma ExpansionOfNamedStruct(name: string, fields: seq<Field>)
    ensures var e := ImplForStruct(name, fields);
            && |e.infos| == |fields|
            && (forall k :: 0 <= k < |fields| ==> e.infos[k] == Analyze(fields[k]) && Consistent(e.infos[k]))
            && |e.surface| == |CmdArgs(e.infos)|
    ensures var e := ImplForStruct(name, fields);
            forall c :: c in e.surface <==>
              exists k :: 0 <= k < |fields| && !Declares(fields[k].attrs, NoCmd) && StructoptField(e.infos[k]) == Some(c)
  {
    var e := ImplForStruct(name, fields);
    SurfaceFollowsCmdArgs(e.infos);
    forall c
      ensures c in e.surface <==>
              exists k :: 0 <= k < |fields| && !Declares(fields[k].attrs, NoCmd) && StructoptField(e.infos[k]) == Some(c)
    {
      SurfaceMember(e.infos, c);
      if c in e.surface {
        var i :| i in e.infos && i.isCmdArg && StructoptField(i) == Some(c);
        var k :| 0 <= k < |e.infos| && e.infos[k] == i;
        assert !Declares(fields[k].attrs, NoCmd);
      }
      if exists k :: 0 <= k < |fields| && !Declares(fields[k].attrs, NoCmd) && StructoptField(e.infos[k]) == Some(c) {
        var k :| 0 <= k < |fields| && !Declares(fields[k].attrs, NoCmd) && StructoptField(e.infos[k]) == Some(c);
        assert e.infos[k] in e.infos;
      }
    }
  }

  /** The generated conversion of a named struct fails exactly when some
      field's setter panics, and then reports the first such field by name. */
  lemma ConversionOfNamedStruct<V, E>(name: string, fields: seq<Field>, rt: Runtime<V, E>)
    ensures var r := FromConfig(ImplForStruct(name, fields), rt);
            r.Success? <==> forall k :: 0 <= k < |fields| ==> !FieldSetter(Analyze(fields[k]), rt).Panic?
    ensures var r := FromConfig(ImplForStruct(name, fields), rt);
            r.Failure? ==>
              exists k :: 0 <= k < |fields| && r.error.field == fields[k].name &&
                FieldSetter(Analyze(fields[k]), rt) == Panic(r.error) &&
                forall j :: 0 <= j < k ==> !FieldSetter(Analyze(fields[j]), rt).Panic?
  {
    var infos := AnalyzeAll(fields);
    var r := Build(infos, rt);
    assert FromConfig(ImplForStruct(name, fields), rt) == r;
    assert |infos| == |fields| && forall k :: 0 <= k < |fields| ==> infos[k] == Analyze(fields[k]);
    BuildSucceedsIffNoPanic(infos, rt);
    if r.Failure? {
      BuildAbortsAtFirstPanic(infos, rt);
      var k :| 0 <= k < |infos| && FieldSetter(infos[k], rt) == Panic(r.error) &&
               forall j :: 0 <= j < k ==> !FieldSetter(infos[j], rt).Panic?;
      SetterPanicNamesField(infos[k], rt);
      assert r.error.field == fields[k].name;
    }
  }

  /** A panicking setter names its own field. */
  lemma SetterPanicNamesField<V, E>(info: FieldInfo, rt: Runtime<V, E>)
    ensures FieldSetter(info, rt).Panic? ==> FieldSetter(info, rt).abort.field == info.field.name
  {
  }
}
