/**
  Field classification: how the derive macro turns one field declaration
  into the three policy flags and the list of `structopt` attributes that
  it forwards to the generated command-line struct.
 */
module FieldAnalysis {
  import opened Wrappers
  import opened Syntax
  import opened Seqs

  const PlatformconfigPath: seq<string> := ["platformconfig"]
  const StructoptPath: seq<string> := ["structopt"]
  const OptionalCmd: string := "optional_cmd"
  const NoCmd: string := "no_cmd"

  /** The type is a path whose last segment is `Option`. */
  predicate IsOption(ty: Type)
  {
    ty.Path? && ty.segments[|ty.segments| - 1] == "Option"
  }

  /** What the macro knows about one field. */
  datatype FieldInfo = FieldInfo(
    field: Field,
    structoptAttrs: seq<Attribute>,
    isOptional: bool,
    isOptionalCmd: bool,
    isCmdArg: bool)
  {
    predicate HasStructoptAttrs()
    {
      structoptAttrs != []
    }
  }

  /** The invariant every analysed field keeps: `isOptional` tells whether
      the field's type is an `Option`, and an `Option` field is always
      optional on the command line. */
  predicate Consistent(info: FieldInfo)
  {
    && info.isOptional == IsOption(info.field.ty)
    && (info.isOptional ==> info.isOptionalCmd)
  }

  /** The starting point of an analysis: nothing forwarded, not optional,
      exposed on the command line. It is already the final analysis of a
      field with no attributes and a non-`Option` type; for an `Option`
      field it breaks `Consistent`, which is why the analysis overwrites
      the two optionality flags before looking at any attribute. */
  function NewFieldInfo(field: Field): (info: FieldInfo)
    ensures field.attrs == [] && !IsOption(field.ty) ==> info == Analyze(field)
    ensures Consistent(info) <==> !IsOption(field.ty)
  {
    FieldInfo(field, [], false, false, true)
  }

  // ---------------------------------------------------------------------
  // The declarative specification of the analysis
  // ---------------------------------------------------------------------

  predicate IsPlatformconfig(attr: Attribute)
  {
    attr.path == PlatformconfigPath
  }

  /** The nested items of a `platformconfig(...)` attribute; empty for any
      other attribute and for a platformconfig attribute that is not a list. */
  function PlatformconfigItems(attr: Attribute): seq<NestedMeta>
  {
    if IsPlatformconfig(attr) && attr.meta.Some? && attr.meta.value.List?
    then attr.meta.value.nested
    else []
  }

  /** The two words the macro consumes itself. */
  predicate IsPlatformconfigItem(nested: NestedMeta)
  {
    nested == MetaItem(Word(OptionalCmd)) || nested == MetaItem(Word(NoCmd))
  }

  /** Some platformconfig attribute of `attrs` lists the bare word `word`
      (see DeclaresIffSomeAttribute). */
  predicate Declares(attrs: seq<Attribute>, word: string)
  {
    MetaItem(Word(word)) in FlatMap(PlatformconfigItems, attrs)
  }

  /** What one nested item contributes to structopt: itself, unless it is
      one of the two platformconfig words. */
  function KeepForStructopt(nested: NestedMeta): seq<NestedMeta>
  {
    if IsPlatformconfigItem(nested) then [] else [nested]
  }

  /** The nested items that are passed on to structopt, in order. */
  function Forwarded(nested: seq<NestedMeta>): seq<NestedMeta>
  {
    FlatMap(KeepForStructopt, nested)
  }

  /** A copy of `attr` renamed to `structopt` and holding `nested`. */
  function StructoptAttribute(attr: Attribute, nested: seq<NestedMeta>): Attribute
  {
    attr.(path := StructoptPath, meta := Some(List("structopt", nested)))
  }

  /** The structopt attribute one attribute contributes: none when nothing
      of it is forwarded. */
  function ForwardedAttr(attr: Attribute): seq<Attribute>
  {
    var nested := Forwarded(PlatformconfigItems(attr));
    if nested == [] then [] else [StructoptAttribute(attr, nested)]
  }

  function ForwardedAttrs(attrs: seq<Attribute>): seq<Attribute>
  {
    FlatMap(ForwardedAttr, attrs)
  }

  /** The analysis of a field, stated without any loop. */
  function Analyze(field: Field): FieldInfo
  {
    FieldInfo(
      field,
      ForwardedAttrs(field.attrs),
      IsOption(field.ty),
      IsOption(field.ty) || Declares(field.attrs, OptionalCmd),
      !Declares(field.attrs, NoCmd))
  }

  // ---------------------------------------------------------------------
  // The analysis as the macro performs it
  // ---------------------------------------------------------------------

  /** Walks the attributes and their nested items once, flipping flags and
      collecting forwarded items as it goes. */
  method AnalyzeField(field: Field) returns (result: FieldInfo)
    ensures result == Analyze(field)
  {
    result := NewFieldInfo(field);
    result := result.(isOptional := IsOption(field.ty));
    result := result.(isOptionalCmd := result.isOptional);

    var i := 0;
    while i < |field.attrs|
      invariant i <= |field.attrs|
      invariant result.field == field && result.isOptional == IsOption(field.ty)
      invariant result.isOptionalCmd == (IsOption(field.ty) || Declares(field.attrs[..i], OptionalCmd))
      invariant result.isCmdArg == !Declares(field.attrs[..i], NoCmd)
      invariant result.structoptAttrs == ForwardedAttrs(field.attrs[..i])
    {
      var attr := field.attrs[i];

      if attr.path != PlatformconfigPath {
        AttributeStep(field.attrs, i);
        i := i + 1;
        continue;
      }

      var meta := attr.meta;
      if meta.Some? && meta.value.List? {
        var structoptNesteds;
        result, structoptNesteds := ScanNested(result, meta.value.nested);
        if structoptNesteds != [] {
          result := result.(structoptAttrs := result.structoptAttrs + [StructoptAttribute(attr, structoptNesteds)]);
        }
      }
      AttributeStep(field.attrs, i);
      i := i + 1;
    }
    assert field.attrs[..i] == field.attrs;
  }

  /** The walk over the nested items of one `platformconfig(...)` list:
      `optional_cmd` sets `isOptionalCmd`, `no_cmd` clears `isCmdArg`, and
      every other item is collected, in order, for structopt. */
  method ScanNested(info: FieldInfo, nesteds: seq<NestedMeta>) returns (result: FieldInfo, structoptNesteds: seq<NestedMeta>)
    ensures result == info.(
              isOptionalCmd := info.isOptionalCmd || MetaItem(Word(OptionalCmd)) in nesteds,
              isCmdArg := info.isCmdArg && MetaItem(Word(NoCmd)) !in nesteds)
    ensures structoptNesteds == Forwarded(nesteds)
  {
    result := info;
    structoptNesteds := [];
    var j := 0;
    while j < |nesteds|
      invariant j <= |nesteds|
      invariant result.field == info.field && result.isOptional == info.isOptional
      invariant result.structoptAttrs == info.structoptAttrs
      invariant result.isOptionalCmd == (info.isOptionalCmd || MetaItem(Word(OptionalCmd)) in nesteds[..j])
      invariant result.isCmdArg == (info.isCmdArg && MetaItem(Word(NoCmd)) !in nesteds[..j])
      invariant structoptNesteds == Forwarded(nesteds[..j])
    {
      var nested := nesteds[j];
      FlatMapStep(KeepForStructopt, nesteds, j);
      InPrefixStep(nesteds, j, MetaItem(Word(OptionalCmd)));
      InPrefixStep(nesteds, j, MetaItem(Word(NoCmd)));

      var isPlatformconfigNested: bool;
      if nested == MetaItem(Word(OptionalCmd)) {
        result := result.(isOptionalCmd := true);
        isPlatformconfigNested := true;
      } else if nested == MetaItem(Word(NoCmd)) {
        result := result.(isCmdArg := false);
        isPlatformconfigNested := true;
      } else {
        isPlatformconfigNested := false;
      }

      assert isPlatformconfigNested == IsPlatformconfigItem(nested);
      if !isPlatformconfigNested {
        structoptNesteds := structoptNesteds + [nested];
      }
      j := j + 1;
    }
    assert nesteds[..j] == nesteds;
  }

  // ---------------------------------------------------------------------
  // Properties of the analysis
  // ---------------------------------------------------------------------

  /** Only the last path segment decides: `Option<T>`, `option::Option<T>`
      and `std::option::Option<T>` all count, a non-path type never does. */
  lemma IsOptionByLastSegment(prefix: seq<string>, last: string)
    ensures IsOption(Path(prefix + [last])) <==> last == "Option"
    ensures IsOption(Path(["std", "option", "Option"]))
    ensures !IsOption(Other)
  {
  }

  /** Exactly the items other than `optional_cmd` and `no_cmd` are forwarded. */
  lemma ForwardedMembers(nested: seq<NestedMeta>, n: NestedMeta)
    ensures n in Forwarded(nested) <==> n in nested && !IsPlatformconfigItem(n)
  {
    FlatMapMember(KeepForStructopt, nested, n);
    if n in nested && !IsPlatformconfigItem(n) {
      assert n in KeepForStructopt(n);
    }
  }

  /** Items are forwarded unchanged and in their original order. */
  lemma {:induction false} ForwardedKeepsOrder(nested: seq<NestedMeta>)
    requires forall k :: 0 <= k < |nested| ==> !IsPlatformconfigItem(nested[k])
    ensures Forwarded(nested) == nested
  {
    if nested != [] {
      ForwardedKeepsOrder(nested[1..]);
      assert nested == [nested[0]] + nested[1..];
    }
  }

  /** How the specification advances over one more attribute. */
  lemma AttributeStep(attrs: seq<Attribute>, i: nat)
    requires i < |attrs|
    ensures ForwardedAttrs(attrs[..i + 1]) == ForwardedAttrs(attrs[..i]) + ForwardedAttr(attrs[i])
    ensures Declares(attrs[..i + 1], OptionalCmd) <==>
            Declares(attrs[..i], OptionalCmd) || MetaItem(Word(OptionalCmd)) in PlatformconfigItems(attrs[i])
    ensures Declares(attrs[..i + 1], NoCmd) <==>
            Declares(attrs[..i], NoCmd) || MetaItem(Word(NoCmd)) in PlatformconfigItems(attrs[i])
  {
    FlatMapStep(ForwardedAttr, attrs, i);
    FlatMapStep(PlatformconfigItems, attrs, i);
  }

  /** `Declares` holds exactly when one of the attributes carries the word. */
  lemma DeclaresIffSomeAttribute(attrs: seq<Attribute>, word: string)
    ensures Declares(attrs, word) <==> exists a :: a in attrs && MetaItem(Word(word)) in PlatformconfigItems(a)
  {
    FlatMapMember(PlatformconfigItems, attrs, MetaItem(Word(word)));
  }

  /** The flags start at `isOptionalCmd == isOptional` and `optional_cmd`
      can only set it, so an `Option` field is always optional on the
      command line. */
  lemma AnalyzeIsConsistent(field: Field)
    ensures Consistent(Analyze(field))
  {
  }

  /** The three flags, for comparing two analyses. */
  function Flags(info: FieldInfo): (bool, bool, bool)
  {
    (info.isOptional, info.isOptionalCmd, info.isCmdArg)
  }

  /** The flags depend only on which attributes occur, not on their order
      or on how often each occurs. */
  lemma FlagsIgnoreOrderAndRepetition(f: Field, g: Field)
    requires f.ty == g.ty
    requires forall a :: a in f.attrs <==> a in g.attrs
    ensures Flags(Analyze(f)) == Flags(Analyze(g))
  {
    DeclaresIffSomeAttribute(f.attrs, OptionalCmd);
    DeclaresIffSomeAttribute(g.attrs, OptionalCmd);
    DeclaresIffSomeAttribute(f.attrs, NoCmd);
    DeclaresIffSomeAttribute(g.attrs, NoCmd);
  }

  /** What inserting one attribute anywhere among a field's attributes does
      to its analysis: only the attribute's own items matter, and what it
      forwards lands at its own position. */
  lemma InsertAttribute(field: Field, pre: seq<Attribute>, post: seq<Attribute>, attr: Attribute)
    requires field.attrs == pre + post
    ensures var after := Analyze(field.(attrs := pre + [attr] + post));
            var before := Analyze(field);
            && after.isOptional == before.isOptional
            && after.isOptionalCmd == (before.isOptionalCmd || MetaItem(Word(OptionalCmd)) in PlatformconfigItems(attr))
            && after.isCmdArg == (before.isCmdArg && MetaItem(Word(NoCmd)) !in PlatformconfigItems(attr))
            && after.structoptAttrs == ForwardedAttrs(pre) + ForwardedAttr(attr) + ForwardedAttrs(post)
            && before.structoptAttrs == ForwardedAttrs(pre) + ForwardedAttrs(post)
            && (ForwardedAttr(attr) == [] ==> after.structoptAttrs == before.structoptAttrs)
  {
    FlatMapAppend(ForwardedAttr, pre + [attr], post);
    FlatMapAppend(ForwardedAttr, pre, [attr]);
    FlatMapAppend(ForwardedAttr, pre, post);
    FlatMapOne(ForwardedAttr, attr);
    FlatMapAppend(PlatformconfigItems, pre + [attr], post);
    FlatMapAppend(PlatformconfigItems, pre, [attr]);
    FlatMapAppend(PlatformconfigItems, pre, post);
    FlatMapOne(PlatformconfigItems, attr);
    if ForwardedAttr(attr) == [] {
      assert ForwardedAttrs(pre) + ForwardedAttr(attr) + ForwardedAttrs(post) == ForwardedAttrs(pre) + ForwardedAttrs(post);
    }
  }

  /** Inserting an attribute that is not `platformconfig` changes nothing. */
  lemma ForeignAttributeIsInert(field: Field, pre: seq<Attribute>, post: seq<Attribute>, attr: Attribute)
    requires field.attrs == pre + post
    requires !IsPlatformconfig(attr)
    ensures var after := Analyze(field.(attrs := pre + [attr] + post));
            Flags(after) == Flags(Analyze(field)) && after.structoptAttrs == Analyze(field).structoptAttrs
  {
    InsertAttribute(field, pre, post, attr);
    assert PlatformconfigItems(attr) == [];
  }

  /** `#[platformconfig(optional_cmd)]` sets `isOptionalCmd`, leaves the
      other two flags alone and forwards no attribute. */
  lemma OptionalCmdOnlySetsOptionalCmd(field: Field, pre: seq<Attribute>, post: seq<Attribute>)
    requires field.attrs == pre + post
    ensures var attr := Attribute(PlatformconfigPath, Some(List("platformconfig", [MetaItem(Word(OptionalCmd))])));
            var before := Analyze(field);
            var after := Analyze(field.(attrs := pre + [attr] + post));
            && after.isOptionalCmd && after.isOptional == before.isOptional && after.isCmdArg == before.isCmdArg
            && after.structoptAttrs == before.structoptAttrs
  {
    var attr := Attribute(PlatformconfigPath, Some(List("platformconfig", [MetaItem(Word(OptionalCmd))])));
    InsertAttribute(field, pre, post, attr);
    assert PlatformconfigItems(attr) == [MetaItem(Word(OptionalCmd))];
    assert ForwardedAttr(attr) == [] by {
      FlatMapOne(KeepForStructopt, MetaItem(Word(OptionalCmd)));
    }
  }

  /** `#[platformconfig(no_cmd)]` clears `isCmdArg`, leaves the other two
      flags alone and forwards no attribute. */
  lemma NoCmdOnlyClearsCmdArg(field: Field, pre: seq<Attribute>, post: seq<Attribute>)
    requires field.attrs == pre + post
    ensures var attr := Attribute(PlatformconfigPath, Some(List("platformconfig", [MetaItem(Word(NoCmd))])));
            var before := Analyze(field);
            var after := Analyze(field.(attrs := pre + [attr] + post));
            && !after.isCmdArg && after.isOptional == before.isOptional && after.isOptionalCmd == before.isOptionalCmd
            && after.structoptAttrs == before.structoptAttrs
  {
    var attr := Attribute(PlatformconfigPath, Some(List("platformconfig", [MetaItem(Word(NoCmd))])));
    InsertAttribute(field, pre, post, attr);
    assert PlatformconfigItems(attr) == [MetaItem(Word(NoCmd))];
    assert ForwardedAttr(attr) == [] by {
      FlatMapOne(KeepForStructopt, MetaItem(Word(NoCmd)));
    }
  }
}
