/**
  The part of a derive input that the PlatformConfig macro looks at, as
  plain values: a struct's named fields, each with its name, its type and
  its attributes. An attribute is stored together with the result of
  interpreting its tokens as a meta item (`None` when they do not parse
  as one).
 */
module Syntax {
  import opened Wrappers

  /** A parsed type path always has at least one segment. */
  type Segments = s: seq<string> | |s| > 0 witness ["_"]

  /** A field type: a path such as `std::option::Option<T>` (only the
      segment identifiers matter here), or any other kind of type. */
  datatype Type = Path(segments: Segments) | Other

  /** A meta item: `ident`, `ident(nested, ...)` or `ident = "lit"`. */
  datatype Meta =
    | Word(ident: string)
    | List(ident: string, nested: seq<NestedMeta>)
    | NameValue(ident: string, lit: string)

  /** One entry inside the parentheses of a meta list. */
  datatype NestedMeta = MetaItem(meta: Meta) | Literal(lit: string)

  /** `#[path tokens]`, with `meta` the interpretation of the tokens. */
  datatype Attribute = Attribute(path: seq<string>, meta: Option<Meta>)

  datatype Field = Field(name: string, ty: Type, attrs: seq<Attribute>)

  datatype Fields = Named(named: seq<Field>) | Unnamed(arity: nat) | Unit

  datatype Data = Struct(fields: Fields) | Enum | Union

  datatype DeriveInput = DeriveInput(ident: string, data: Data)
}
