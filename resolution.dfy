/**
  The generated `From<config::Config>` conversion: for every field, where
  its value comes from, and for the whole struct, which field aborts the
  conversion.
 */
module Resolution {
  import opened Wrappers
  import opened FieldAnalysis
  import opened Policy

  /** What the conversion reads at run time, keyed by field name:
      `isPresent` is the command-line parser's presence check, `opts` the
      field of the parsed command-line struct (a plain field is seen as
      `Some` of its value), `get` the layered configuration's lookup at
      the type the field setter asks for. */
  datatype Runtime<V, E> = Runtime(
    isPresent: string -> bool,
    opts: string -> Option<V>,
    get: string -> Result<V, E>)

  /** Why an `.unwrap()` in a field setter panics. */
  datatype Cause<E> = CliValueUnset | LookupFailed(error: E)

  /** The panic that aborts the conversion, naming the field. */
  datatype Abort<E> = Abort(field: string, cause: Cause<E>)

  /** Where one field's value comes from. */
  datatype Setter<V, E> =
    | TakeCli(cliValue: Option<V>)
    | TakeConfig(value: V)
    | TakeNone
    | Panic(abort: Abort<E>)

  /** `config.get(name).ok()` */
  function LookupOk<V, E>(lookup: Result<V, E>): Setter<V, E>
  {
    match lookup
    case Success(v) => TakeConfig(v)
    case Failure(_) => TakeNone
  }

  /** `config.get(name).unwrap()` */
  function LookupUnwrap<V, E>(name: string, lookup: Result<V, E>): Setter<V, E>
  {
    match lookup
    case Success(v) => TakeConfig(v)
    case Failure(e) => Panic(Abort(name, LookupFailed(e)))
  }

  /** `opts.name.unwrap()` */
  function CliUnwrap<V, E>(name: string, value: Option<V>): Setter<V, E>
  {
    match value
    case Some(v) => TakeCli(Some(v))
    case None => Panic(Abort(name, CliValueUnset))
  }

  /** The field setter of the generated conversion, one branch per arm. */
  function FieldSetter<V, E>(info: FieldInfo, rt: Runtime<V, E>): Setter<V, E>
  {
    var name := info.field.name;
    match PolicyOf(info)
    case CliOptionalValueOptional =>
      if rt.isPresent(name) then TakeCli(rt.opts(name)) else LookupOk(rt.get(name))
    case CliOptionalOrFallback =>
      if rt.isPresent(name) then CliUnwrap(name, rt.opts(name)) else LookupUnwrap(name, rt.get(name))
    case CliRequiredFallbackRequired =>
      if rt.isPresent(name) then TakeCli(rt.opts(name)) else LookupUnwrap(name, rt.get(name))
    case SourceOnlyOptional =>
      LookupOk(rt.get(name))
    case SourceOnlyRequired =>
      LookupUnwrap(name, rt.get(name))
  }

  /** The value a setter that did not panic stores in the field; an
      `Option` field holds it as is, a plain field holds the `Some`. */
  function ValueOf<V, E>(s: Setter<V, E>): Option<V>
    requires !s.Panic?
  {
    match s
    case TakeCli(o) => o
    case TakeConfig(v) => Some(v)
    case TakeNone => None
  }

  /** The struct literal: fields are set in declaration order and the first
      panic aborts the conversion. */
  function Build<V, E>(infos: seq<FieldInfo>, rt: Runtime<V, E>): Result<seq<Option<V>>, Abort<E>>
  {
    if infos == [] then Success([])
    else
      var s := FieldSetter(infos[0], rt);
      if s.Panic? then Failure(s.abort)
      else
        match Build(infos[1..], rt)
        case Success(rest) => Success([ValueOf(s)] + rest)
        case Failure(a) => Failure(a)
  }

  // ---------------------------------------------------------------------
  // One field
  // ---------------------------------------------------------------------

  /** A plain (non-`Option`) command-line field always holds a value. */
  predicate CliWellTyped<V, E>(info: FieldInfo, rt: Runtime<V, E>)
  {
    PolicyOf(info) == CliRequiredFallbackRequired ==> rt.opts(info.field.name).Some?
  }

  /** Whenever the command line reports a field of a command-line policy
      present, its command-line value wins and the configuration is not
      read. */
  lemma CliWinsWhenPresent<V, E>(info: FieldInfo, rt: Runtime<V, E>, get: string -> Result<V, E>, v: V)
    requires info.isCmdArg && rt.isPresent(info.field.name)
    ensures FieldSetter(info, rt) == FieldSetter(info, rt.(get := get))
    ensures rt.opts(info.field.name) == Some(v) ==> FieldSetter(info, rt) == TakeCli(Some(v))
  {
  }

  /** A command-line field that is absent from the command line falls back
      on the configuration: an `Option` field turns a failed lookup into
      `None`, any other field, with or without `optional_cmd`, panics. */
  lemma CliAbsentFallsBackToConfig<V, E>(info: FieldInfo, rt: Runtime<V, E>)
    requires Consistent(info)
    requires info.isCmdArg && !rt.isPresent(info.field.name)
    ensures match rt.get(info.field.name)
            case Success(v) => FieldSetter(info, rt) == TakeConfig(v)
            case Failure(e) =>
              FieldSetter(info, rt) ==
                if info.isOptional then TakeNone else Panic(Abort(info.field.name, LookupFailed(e)))
  {
  }

  /** A `no_cmd` field never looks at the command line: its setter depends
      on the configuration lookup alone, which an `Option` field turns into
      `None` on failure and any other field into a panic. */
  lemma SourceOnlyIgnoresCli<V, E>(info: FieldInfo, rt: Runtime<V, E>, rt': Runtime<V, E>)
    requires !info.isCmdArg
    requires rt.get(info.field.name) == rt'.get(info.field.name)
    ensures FieldSetter(info, rt) == FieldSetter(info, rt')
    ensures match rt.get(info.field.name)
            case Success(v) => FieldSetter(info, rt) == TakeConfig(v)
            case Failure(e) =>
              FieldSetter(info, rt) ==
                if info.isOptional then TakeNone else Panic(Abort(info.field.name, LookupFailed(e)))
  {
  }

  /** An `Option` field never aborts the conversion. */
  lemma OptionalFieldNeverPanics<V, E>(info: FieldInfo, rt: Runtime<V, E>)
    requires Consistent(info) && info.isOptional
    ensures !FieldSetter(info, rt).Panic?
  {
  }

  /** A plain field either gets a value or aborts the conversion, naming
      itself; it is never left empty. */
  lemma PlainFieldNeverEmpty<V, E>(info: FieldInfo, rt: Runtime<V, E>)
    requires Consistent(info) && !info.isOptional && CliWellTyped(info, rt)
    ensures FieldSetter(info, rt).Panic? ==> FieldSetter(info, rt).abort.field == info.field.name
    ensures !FieldSetter(info, rt).Panic? ==> ValueOf(FieldSetter(info, rt)).Some?
  {
  }

  // ---------------------------------------------------------------------
  // The whole struct
  // ---------------------------------------------------------------------

  /** The conversion succeeds exactly when no field setter panics, and then
      holds each field's value in declaration order. */
  lemma {:induction false} BuildSucceedsIffNoPanic<V, E>(infos: seq<FieldInfo>, rt: Runtime<V, E>)
    ensures Build(infos, rt).Success? <==> forall k :: 0 <= k < |infos| ==> !FieldSetter(infos[k], rt).Panic?
    ensures Build(infos, rt).Success? ==>
              && |Build(infos, rt).value| == |infos|
              && forall k :: 0 <= k < |infos| ==>
                   !FieldSetter(infos[k], rt).Panic? && Build(infos, rt).value[k] == ValueOf(FieldSetter(infos[k], rt))
  {
    if infos != [] {
      BuildSucceedsIffNoPanic(infos[1..], rt);
      if Build(infos, rt).Success? {
        var values := Build(infos, rt).value;
        forall k | 0 <= k < |infos|
          ensures !FieldSetter(infos[k], rt).Panic? && values[k] == ValueOf(FieldSetter(infos[k], rt))
        {
          if k > 0 {
            assert infos[k] == infos[1..][k - 1];
          }
        }
      } else if !FieldSetter(infos[0], rt).Panic? {
        var k :| 0 <= k < |infos[1..]| && FieldSetter(infos[1..][k], rt).Panic?;
        assert infos[1..][k] == infos[k + 1];
      }
    }
  }

  /** A failed conversion reports the panic of the first field, in
      declaration order, whose setter panics; no error is collected from
      the fields after it. */
  lemma {:induction false} BuildAbortsAtFirstPanic<V, E>(infos: seq<FieldInfo>, rt: Runtime<V, E>)
    requires Build(infos, rt).Failure?
    ensures exists k :: 0 <= k < |infos| &&
              FieldSetter(infos[k], rt) == Panic(Build(infos, rt).error) &&
              forall j :: 0 <= j < k ==> !FieldSetter(infos[j], rt).Panic?
  {
    if !FieldSetter(infos[0], rt).Panic? {
      BuildAbortsAtFirstPanic(infos[1..], rt);
      var k :| 0 <= k < |infos[1..]| &&
               FieldSetter(infos[1..][k], rt) == Panic(Build(infos[1..], rt).error) &&
               forall j :: 0 <= j < k ==> !FieldSetter(infos[1..][j], rt).Panic?;
      assert infos[1..][k] == infos[k + 1];
      forall j | 0 <= j < k + 1
        ensures !FieldSetter(infos[j], rt).Panic?
      {
        if j > 0 {
          assert infos[j] == infos[1..][j - 1];
        }
      }
    }
  }

  /** The converse: when field `k` is the first whose setter panics, the
      conversion fails with exactly that panic. */
  lemma {:induction false} BuildFailsAtFirstPanic<V, E>(infos: seq<FieldInfo>, rt: Runtime<V, E>, k: nat)
    requires k < |infos| && FieldSetter(infos[k], rt).Panic?
    requires forall j :: 0 <= j < k ==> !FieldSetter(infos[j], rt).Panic?
    ensures Build(infos, rt) == Failure(FieldSetter(infos[k], rt).abort)
  {
    if k > 0 {
      assert !FieldSetter(infos[0], rt).Panic?;
      assert infos[1..][k - 1] == infos[k];
      forall j | 0 <= j < k - 1
        ensures !FieldSetter(infos[1..][j], rt).Panic?
      {
        assert infos[1..][j] == infos[j + 1];
      }
      BuildFailsAtFirstPanic(infos[1..], rt, k - 1);
    }
  }
}
