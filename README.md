# platform-config derive: a Dafny model

`platform-config` lets a Rust struct take its values from the command line
and from layered configuration files. The `PlatformConfig` derive macro
looks at each named field: its type, and its `#[platformconfig(...)]`
attributes. From these it generates two things:

- a `structopt` command-line struct;
- a `From<config::Config>` conversion that fills each field from the
  command line, from the configuration, or from neither.

This project models the decisions the macro makes, on plain values instead
of token streams:

- **Field classification** (`FieldAnalysis`). `is_option` and
  `analyze_field` give each field three flags:
  - `isOptional`: the type is an `Option`;
  - `isOptionalCmd`: `optional_cmd`, or an `Option` type;
  - `isCmdArg`: no `no_cmd`.

  They also collect the `structopt` attributes the field forwards.
  `analyze_field` is modelled as the method `AnalyzeField`, whose two loops
  walk the attributes and their nested items. It is proved equal to the
  loop-free specification `Analyze`.
- **Policy** (`Policy`). The five arms of the field-setter match, as a
  datatype with one constructor per arm.
- **Command-line surface** (`CliSurface`). `structopt_field` and the
  `filter_map` of `gen_structopt_struct` decide which fields the
  command-line struct has, in which order, and with which type.
- **Resolution** (`Resolution`). What each field setter of the generated
  conversion does, given:
  - the command line's presence check and parsed values;
  - the configuration lookup.

  Then the struct literal, in which the first panicking field, in
  declaration order, aborts the conversion.
- **Entry point** (`Derive`). The named-struct check, the analysis of all
  fields, and the generated expansion and conversion.
- **The example struct** (`ExampleConfig`). `MyAppConfig` from the
  repository's example, stated in the model.

Support modules:

- `Wrappers`: `Option` and `Result`.
- `Syntax`: the parts of a `syn` derive input that the macro reads.
- `Seqs`: a `FlatMap` that expresses every filter and `filter_map`,
  together with its laws.

The command-line parser (`matches.is_present`, the parsed `opts` struct)
and `config.get` are parameters of the model. They are given as a
`Runtime`: three functions of the field name.

The model follows what the code does:

- The conversion does not collect errors across fields. It panics at the
  first field whose `.unwrap()` fails.
- `no_cmd` together with `optional_cmd` is not an error. `no_cmd` wins
  silently.
- No combination of attributes is rejected. Every field gets a policy.

## Model

| member | source | states |
|---|---|---|
| FieldAnalysis.IsOption | platform-config-derive/src/lib.rs:38-44 | The definition of `is_option`. It has no contract and is specified by `IsOptionByLastSegment` |
| FieldAnalysis.Analyze | platform-config-derive/src/lib.rs:99-142 | The loop-free definition of `analyze_field`'s result. It has no contract, is the specification of `AnalyzeField`, and carries the lemmas below |
| FieldAnalysis.IsOptionByLastSegment | platform-config-derive/src/lib.rs:38-44 | Only the last path segment decides whether a type is an `Option`: `std::option::Option` counts, and a non-path type never does |
| FieldAnalysis.NewFieldInfo | platform-config-derive/src/lib.rs:55-63 | The starting record is already the final analysis of a field with no attributes and a non-`Option` type. It is consistent exactly when the type is not an `Option`, which is why the optionality flags must be overwritten first (lib.rs:102-103) |
| FieldAnalysis.FieldInfo.HasStructoptAttrs | platform-config-derive/src/lib.rs:65-67 | The definition of `has_structopt_attrs`: true when some structopt attribute is forwarded. It has no contract and is used by `StructoptField`, so it is covered by `CliFieldOfDeclaration` |
| FieldAnalysis.AnalyzeField | platform-config-derive/src/lib.rs:99-142 | After walking every attribute and nested item, the flags and the forwarded attributes equal the loop-free specification `Analyze` |
| FieldAnalysis.ScanNested | platform-config-derive/src/lib.rs:115-133 | One pass over a `platformconfig(...)` list: `optional_cmd` sets `isOptionalCmd` and `no_cmd` clears `isCmdArg`. All other items are collected in order and nothing else changes |
| FieldAnalysis.ForwardedMembers | platform-config-derive/src/lib.rs:117-132 | An item is forwarded to structopt exactly when it is in the list and is neither `optional_cmd` nor `no_cmd` |
| FieldAnalysis.ForwardedKeepsOrder | platform-config-derive/src/lib.rs:130-132 | A list without platformconfig words is forwarded unchanged, in its original order |
| FieldAnalysis.DeclaresIffSomeAttribute | platform-config-derive/src/lib.rs:105-128 | A field declares a word exactly when one of its platformconfig list attributes holds that bare word |
| FieldAnalysis.AnalyzeIsConsistent | platform-config-derive/src/lib.rs:102-103 | Every analysed field has `isOptional` equal to "the type is an `Option`", and `isOptional` implies `isOptionalCmd` |
| FieldAnalysis.FlagsIgnoreOrderAndRepetition | platform-config-derive/src/lib.rs:105-128 | Two fields with the same type and the same set of attributes get the same three flags, whatever the order or repetition |
| FieldAnalysis.InsertAttribute | platform-config-derive/src/lib.rs:105-138 | Inserting an attribute anywhere affects the flags only through the attribute's own items. What it forwards lands at its own position, and an attribute that forwards nothing adds no structopt attribute |
| FieldAnalysis.ForeignAttributeIsInert | platform-config-derive/src/lib.rs:106-110 | Inserting an attribute other than `platformconfig` changes neither the flags nor the forwarded attributes |
| FieldAnalysis.OptionalCmdOnlySetsOptionalCmd | platform-config-derive/src/lib.rs:119-122 | Inserting `platformconfig(optional_cmd)` sets `isOptionalCmd`, keeps the other two flags and forwards nothing |
| FieldAnalysis.NoCmdOnlyClearsCmdArg | platform-config-derive/src/lib.rs:123-126 | Inserting `platformconfig(no_cmd)` clears `isCmdArg`, keeps the other two flags and forwards nothing |
| Policy.PolicyOf | platform-config-derive/src/lib.rs:153-159 | The five-arm match on `(is_cmd_arg, is_optional_cmd, is_optional)`. It has no contract and is specified by `PolicyOfDeclaration` and `RequiredArmOnlyForPlainTypes` |
| Policy.PolicyOfDeclaration | platform-config-derive/src/lib.rs:153-159 | The arm chosen for a declared field is a priority table: `no_cmd` first, so it wins over `optional_cmd`; then an `Option` type; then `optional_cmd` |
| Policy.RequiredArmOnlyForPlainTypes | platform-config-derive/src/lib.rs:153-159 | For an analysed field, arm `(true, false, _)` is only taken by a non-`Option` type. An `Option` field uses exactly the two `.ok()` arms, and the three command-line arms are exactly the fields with `isCmdArg` |
| CliSurface.StructoptField | platform-config-derive/src/lib.rs:69-96 | The definition of `structopt_field`. It has no contract and is specified by `CliFieldOfDeclaration` and `CliTypeWrapping` |
| CliSurface.Surface | platform-config-derive/src/lib.rs:180-193 | The `filter_map` of `gen_structopt_struct`. It has no contract and is specified by `SurfaceAppend`, `SurfaceMember` and `SurfaceFollowsCmdArgs` |
| CliSurface.CliFieldOfDeclaration | platform-config-derive/src/lib.rs:69-96 | A declared field has a command-line entry exactly when it lacks `no_cmd`. The entry has its name, its forwarded attributes and its type, wrapped in `Option` exactly for `optional_cmd` on a non-`Option` type |
| CliSurface.CliTypeWrapping | platform-config-derive/src/lib.rs:70-81 | An entry exists exactly when `isCmdArg` holds. Its type is `Option<T>` exactly when `isOptionalCmd` holds and `T` is not an `Option`, and `T` otherwise |
| CliSurface.CliOptionalityMatchesPolicy | platform-config-derive/src/lib.rs:77-81 | A field has an entry exactly for the three command-line arms, and the entry's type is an `Option` exactly outside arm `(true, false, _)` |
| CliSurface.SurfaceAppend | platform-config-derive/src/lib.rs:182-185 | The command-line fields of a concatenation are the concatenation of the command-line fields: entries never change places |
| CliSurface.SurfaceMember | platform-config-derive/src/lib.rs:182-185 | An entry is in the command-line struct exactly when some field with `isCmdArg` produces it |
| CliSurface.SurfaceFollowsCmdArgs | platform-config-derive/src/lib.rs:180-193 | The command-line struct has one entry per field with `isCmdArg`, in declaration order, and the k-th entry belongs to the k-th such field |
| Resolution.FieldSetter | platform-config-derive/src/lib.rs:146-160 | One field setter of the generated conversion. It has no contract and is specified by the five lemmas below |
| Resolution.Build | platform-config-derive/src/lib.rs:172-174 | The struct literal: the setters in declaration order, and the first panic aborts. It has no contract and is specified by `BuildSucceedsIffNoPanic`, `BuildAbortsAtFirstPanic` and `BuildFailsAtFirstPanic` |
| Resolution.CliWinsWhenPresent | platform-config-derive/src/lib.rs:154-156 | For a command-line field reported present, the configuration is never read, and a parsed value `v` is taken as is |
| Resolution.CliAbsentFallsBackToConfig | platform-config-derive/src/lib.rs:154-156 | A command-line field absent from the command line takes the configuration value. On a failed lookup an `Option` field gets `None`, and any other field panics naming itself, with or without `optional_cmd` |
| Resolution.SourceOnlyIgnoresCli | platform-config-derive/src/lib.rs:157-158 | A `no_cmd` field depends on the configuration lookup alone. A failed lookup gives `None` for an `Option` field and a panic naming the field otherwise |
| Resolution.OptionalFieldNeverPanics | platform-config-derive/src/lib.rs:154-157 | The setter of an `Option` field never panics |
| Resolution.PlainFieldNeverEmpty | platform-config-derive/src/lib.rs:155-158 | A non-`Option` field either panics naming itself or holds a value, never `None` |
| Resolution.BuildSucceedsIffNoPanic | platform-config-derive/src/lib.rs:172-174 | The struct literal succeeds exactly when no field setter panics, and then holds every field's value in declaration order |
| Resolution.BuildAbortsAtFirstPanic | platform-config-derive/src/lib.rs:172-174 | A failed struct literal reports the panic of the first panicking field in declaration order |
| Resolution.BuildFailsAtFirstPanic | platform-config-derive/src/lib.rs:172-174 | When field `k` is the first whose setter panics, the struct literal fails with exactly that panic |
| Derive.ImplPlatformconfig | platform-config-derive/src/lib.rs:23-34 | The named-struct check. It has no contract and is specified by `OnlyNamedStructsAccepted` |
| Derive.ImplForStruct | platform-config-derive/src/lib.rs:195-211 | The analysis of every field, with the generated expansion. It has no contract and is specified by `ExpansionOfNamedStruct` and `ConversionOfNamedStruct` |
| Derive.CliStructName | platform-config-derive/src/lib.rs:162 | The name `PlatformConfig<name>StructOpt` of the command-line struct, as also built at line 181. It has no contract and is used by `ImplForStruct` |
| Derive.AnalyzeAll | platform-config-derive/src/lib.rs:199-202 | Every field analysed, in declaration order. It has no contract and is specified by `ExpansionOfNamedStruct` |
| Derive.FromConfig | platform-config-derive/src/lib.rs:164-176 | The generated `from`: the struct literal over the analysed fields. It has no contract and is specified by `ConversionOfNamedStruct` |
| Derive.OnlyNamedStructsAccepted | platform-config-derive/src/lib.rs:23-34 | Only a struct with named fields is expanded. Tuple and unit structs, enums and unions are all rejected with the same message |
| Derive.ExpansionOfNamedStruct | platform-config-derive/src/lib.rs:195-211 | The expansion analyses every field in order, and every analysis is consistent. The command-line struct holds exactly the entries of the fields without `no_cmd` |
| Derive.ConversionOfNamedStruct | platform-config-derive/src/lib.rs:164-176 | The generated conversion fails exactly when some field's setter panics, and then names the first such field in declaration order |
| Derive.SetterPanicNamesField | platform-config-derive/src/lib.rs:150-158 | A panicking setter names its own field |
| ExampleConfig.ExamplePolicies | examples/example.rs:5-29 | The six example fields get the arms their comments describe: required on the command line; command-line optional with a required fallback; source-only required; optional; source-only optional; optional |
| ExampleConfig.ExampleSurface | examples/example.rs:5-29 | The derived command-line struct has exactly `source`, `debug`, `timeout` and `pattern`, in that order, with `debug` widened to `Option<bool>` |
| ExampleConfig.DebugResolution | examples/example.rs:11-13 | `debug` takes the command-line value when `-d` is given. Otherwise it takes the configuration value, or panics naming `debug` |
| ExampleConfig.ConversionWithoutDbHost | examples/example.rs:7-17 | The command line gives values for `source` and `debug`, so the parser accepts it. If `db_host` is missing from the configuration, the conversion then aborts on `db_host` |
| ExampleConfig.ExampleIsAccepted | examples/example.rs:5-6 | The example is a struct with named fields, so the derive accepts it and expands its six fields |

## Left out

- Token generation is not modelled: `syn` parsing, `quote!` output, the proc-macro entry point and the `Ident`/`LitStr` plumbing. The model keeps the decisions and drops the emitted tokens, so visibility, colon tokens and `..attr.clone()` are not modelled either. Only the forwarded attribute's path and nested items are.
- An attribute carries the result of `interpret_meta()` directly. Its raw token trees are not modelled.
- `is_option` takes the last segment of a type path with `.unwrap()`. The model's path type cannot be empty, as a parsed path never is.
- The real `clap` call `get_matches()`, which reads the process arguments and exits on a missing required argument, is not modelled. Neither are `from_clap` or `config::Config::get` deserialisation. All of them become the `Runtime` parameter.
- CliSurface.CliOptionalityMatchesPolicy: states only the type of the entry in the command-line struct. Structopt decides which arguments are required, and its rules for `bool` flags, `Vec` and `default_value` are not modelled. So the lemma does not say that the command line demands a field.
- ExampleConfig.ConversionWithoutDbHost: `Runtime` is not constrained by the parser's required-argument check. In the real program, `get_matches()` exits before any field setter runs when a required argument such as `-s` is missing. In the model, a `Runtime` without `source` still reaches the setters. The scenario is therefore stated for a command line that gives `-s`.
- Resolution.CliWellTyped: a non-`Option` field on the command line is always `Some` in `opts`. This is a hypothesis of `PlainFieldNeverEmpty`, because the typing of the generated struct is not modelled.
- The conversion treats every `config.get` type as one value type `V`. The per-field deserialisation types are not modelled.
- `PlatformConfigBuilder` in src/lib.rs is not modelled. It wraps the external `config` crate's layered merge and discards merge errors.
- The example's `main` is not modelled. It only loads a file and prints.
- The example's field types keep only their path segments. The generic arguments of `Option<usize>` and the like are not modelled.
