/** The part of a Rust derive input that the Optionalize macro inspects,
    as an abstract syntax tree in place of syn's `DeriveInput`.

    Only what the macro reads is kept: a type is either a path (with its
    segments and their generic arguments) or one of the other type forms,
    which the macro treats alike; an attribute is reduced to its meta, which
    is a bare path, a list or a name-value pair; an item is a struct with its
    fields or one of the two other kinds of data a derive can be put on. */
module Syntax {
  import opened Wrappers

  /** The forms of a Rust type other than a path (syn's `Type` variants
      besides `Type::Path`). */
  datatype TyForm =
    | Array | BareFn | Group | ImplTrait | Infer | Macro | Never
    | Paren | Ptr | Reference | Slice | TraitObject | Tuple | Verbatim

  /** A type. `PathTy` is `Type::Path`: an optional qualified self type
      (the `T` of `<T as Trait>::Name`) and the path's segments.
      `NonPath` is every other form, with the types it is built from
      (the elements of a tuple, the referent of a reference, ...). */
  datatype Ty =
    | PathTy(qself: Option<Ty>, segments: seq<Segment>)
    | NonPath(form: TyForm, elems: seq<Ty>)

  /** One segment of a type path: its identifier and its generic
      arguments (`Vec` and `[u8]` in `Vec<u8>`). */
  datatype Segment = Segment(ident: string, args: seq<Ty>)

  /** The path of an attribute: whether it starts with `::`, and its
      identifiers. Attribute paths carry no generic arguments. */
  datatype AttrPath = AttrPath(leadingColon: bool, idents: seq<string>)

  /** An attribute, by the shape of its meta: `#[p]`, `#[p(...)]` or
      `#[p = ...]`. The tokens after the path are kept as text. */
  datatype Attr =
    | PathAttr(path: AttrPath)
    | ListAttr(path: AttrPath, tokens: string)
    | NameValueAttr(path: AttrPath, value: string)

  /** A field of a struct: its identifier (absent in a tuple struct),
      its declared type and its attributes in source order. */
  datatype Field = Field(name: Option<string>, ty: Ty, attrs: seq<Attr>)

  /** The item a derive is attached to. */
  datatype Item =
    | Struct(name: string, fields: seq<Field>)
    | Enum(name: string)
    | Union(name: string)

  /** syn never builds a type path without segments. */
  predicate WellFormed(t: Ty)
  {
    t.PathTy? ==> |t.segments| > 0
  }

  predicate FieldsWellFormed(fields: seq<Field>)
  {
    forall i :: 0 <= i < |fields| ==> WellFormed(fields[i].ty)
  }

  /** The identifier of the last segment of a path type. */
  function LastIdent(t: Ty): string
    requires t.PathTy? && |t.segments| > 0
  {
    t.segments[|t.segments| - 1].ident
  }

  /** The unqualified path type `name<args>`. */
  function Named(name: string, args: seq<Ty>): (t: Ty)
    ensures t.PathTy? && |t.segments| == 1 && LastIdent(t) == name
  {
    PathTy(None, [Segment(name, args)])
  }
}
