/**
  The shape of the generated command-line struct: which fields it has and
  of which type.
 */
module CliSurface {
  import opened Wrappers
  import opened Syntax
  import opened FieldAnalysis
  import opened Policy
  import opened Seqs

  /** The type a field gets in the command-line struct: its own type, or
      that type wrapped in `Option<...>`. */
  datatype CliType = AsDeclared(ty: Type) | OptionOf(ty: Type)

  /** One field of the command-line struct, with the structopt attributes
      placed before it. */
  datatype CliField = CliField(attrs: seq<Attribute>, name: string, ty: CliType)

  /** The command-line field for one analysed field, if it has one. */
  function StructoptField(info: FieldInfo): Option<CliField>
  {
    if !info.isCmdArg then None
    else
      var ty := if !info.isOptionalCmd || info.isOptional then AsDeclared(info.field.ty) else OptionOf(info.field.ty);
      var attrs := if info.HasStructoptAttrs() then info.structoptAttrs else [];
      Some(CliField(attrs, info.field.name, ty))
  }

  /** The fields of the command-line struct, in declaration order. */
  function Surface(infos: seq<FieldInfo>): seq<CliField>
  {
    FlatMap(Entry, infos)
  }

  function Entry(info: FieldInfo): seq<CliField>
  {
    if StructoptField(info).Some? then [StructoptField(info).value] else []
  }

  /** The entry's type in the command-line struct is an `Option`, either
      as declared or by wrapping. */
  predicate HasOptionType(ty: CliType)
  {
    ty.OptionOf? || IsOption(ty.ty)
  }

  /** A declared field is on the command line exactly when it does not say
      `no_cmd`; it keeps its attributes minus `optional_cmd` and `no_cmd`;
      its type is wrapped in `Option` exactly when it says `optional_cmd`
      and is not already an `Option`. */
  lemma CliFieldOfDeclaration(field: Field)
    ensures StructoptField(Analyze(field)).Some? <==> !Declares(field.attrs, NoCmd)
    ensures StructoptField(Analyze(field)).Some? ==>
              var e := StructoptField(Analyze(field)).value;
              && e.name == field.name && e.ty.ty == field.ty
              && e.attrs == ForwardedAttrs(field.attrs)
              && (e.ty.OptionOf? <==> Declares(field.attrs, OptionalCmd) && !IsOption(field.ty))
  {
  }

  /** For an analysed field: an entry exists exactly when `isCmdArg`
      holds; it has the field's name, the forwarded attributes and the
      field's type, wrapped in `Option` exactly when `isOptionalCmd` holds
      and the type is not an `Option` already. */
  lemma CliTypeWrapping(info: FieldInfo)
    requires Consistent(info)
    ensures StructoptField(info).Some? <==> info.isCmdArg
    ensures StructoptField(info).Some? ==>
              var e := StructoptField(info).value;
              && e.name == info.field.name && e.attrs == info.structoptAttrs && e.ty.ty == info.field.ty
              && (e.ty.OptionOf? <==> info.isOptionalCmd && !IsOption(info.field.ty))
  {
  }

  /** A field has an entry exactly for the three command-line arms, and the
      entry's type is an `Option` exactly outside arm `(true, false, _)`. */
  lemma CliOptionalityMatchesPolicy(info: FieldInfo)
    requires Consistent(info)
    ensures StructoptField(info).Some? <==> ReadsCli(PolicyOf(info))
    ensures StructoptField(info).Some? ==>
              (HasOptionType(StructoptField(info).value.ty) <==> PolicyOf(info) != CliRequiredFallbackRequired)
  {
  }

  /** The surface of a concatenation is the concatenation of the surfaces:
      entries never move past one another. */
  lemma SurfaceAppend(a: seq<FieldInfo>, b: seq<FieldInfo>)
    ensures Surface(a + b) == Surface(a) + Surface(b)
  {
    FlatMapAppend(Entry, a, b);
  }

  /** An entry is on the surface exactly when some field that is a command
      line argument produces it. */
  lemma SurfaceMember(infos: seq<FieldInfo>, e: CliField)
    ensures e in Surface(infos) <==> exists i :: i in infos && i.isCmdArg && StructoptField(i) == Some(e)
  {
    FlatMapMember(Entry, infos, e);
    if exists i :: i in infos && i.isCmdArg && StructoptField(i) == Some(e) {
      var i :| i in infos && i.isCmdArg && StructoptField(i) == Some(e);
      assert e in Entry(i);
    }
  }

  /** The command-line fields among `infos`, in order. */
  function CmdArgs(infos: seq<FieldInfo>): seq<FieldInfo>
  {
    FlatMap((i: FieldInfo) => if i.isCmdArg then [i] else [], infos)
  }

  /** The surface has one entry per field without `no_cmd`, in the same
      order and under the same name. */
  lemma {:induction false} SurfaceFollowsCmdArgs(infos: seq<FieldInfo>)
    ensures |Surface(infos)| == |CmdArgs(infos)|
    ensures forall k :: 0 <= k < |CmdArgs(infos)| ==> StructoptField(CmdArgs(infos)[k]) == Some(Surface(infos)[k])
  {
    if infos != [] {
      SurfaceFollowsCmdArgs(infos[1..]);
    }
  }
}
