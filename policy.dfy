/**
  The five arms of the field-setter match: which combination of the three
  flags selects which way of producing the field's value.
 */
module Policy {
  import opened Syntax
  import opened FieldAnalysis

  /** One constructor per arm of the match on
      `(isCmdArg, isOptionalCmd, isOptional)`. */
  datatype Policy =
    | CliOptionalValueOptional     // (true, true, true)
    | CliOptionalOrFallback        // (true, true, false)
    | CliRequiredFallbackRequired  // (true, false, _)
    | SourceOnlyOptional           // (false, _, true)
    | SourceOnlyRequired           // (false, _, false)

  function PolicyOf(info: FieldInfo): Policy
  {
    match (info.isCmdArg, info.isOptionalCmd, info.isOptional)
    case (true, true, true) => CliOptionalValueOptional
    case (true, true, false) => CliOptionalOrFallback
    case (true, false, _) => CliRequiredFallbackRequired
    case (false, _, true) => SourceOnlyOptional
    case (false, _, false) => SourceOnlyRequired
  }

  predicate ReadsCli(p: Policy)
  {
    p.CliOptionalValueOptional? || p.CliOptionalOrFallback? || p.CliRequiredFallbackRequired?
  }

  /** The policy of an analysed field, as a decision table over what the
      declaration says, checked in priority order: `no_cmd` first (it wins
      over `optional_cmd` without any error), then an `Option` type, then
      `optional_cmd`. */
  lemma PolicyOfDeclaration(field: Field)
    ensures PolicyOf(Analyze(field)) ==
      if Declares(field.attrs, NoCmd) then
        (if IsOption(field.ty) then SourceOnlyOptional else SourceOnlyRequired)
      else if IsOption(field.ty) then CliOptionalValueOptional
      else if Declares(field.attrs, OptionalCmd) then CliOptionalOrFallback
      else CliRequiredFallbackRequired
  {
  }

  /** For a consistent field the arm `(true, false, _)` is only taken by a
      non-`Option` field: the combination `(true, false, true)` never occurs. */
  lemma RequiredArmOnlyForPlainTypes(info: FieldInfo)
    requires Consistent(info)
    ensures PolicyOf(info) == CliRequiredFallbackRequired ==> !info.isOptional
    ensures info.isOptional <==> PolicyOf(info) in {CliOptionalValueOptional, SourceOnlyOptional}
    ensures ReadsCli(PolicyOf(info)) <==> info.isCmdArg
  {
  }
}
