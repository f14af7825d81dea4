/** The `Optionalize` derive macro (optionalize-macro/src/lib.rs).

    For a struct `S` it generates a struct `SOptional` with one field per
    field of `S`, in the same order and under the same name, whose type is
    chosen per field:
      - a path type whose field is marked `#[optionalize_ignore]`, or whose
        last segment is `Option`, is kept as declared;
      - any other path type `T` becomes `Option<<T as OptionalizeTrait>::Optional>`
        when a name heuristic guesses that `T` has its own optional
        counterpart, and `Option<T>` otherwise;
      - a type that is not a path (a tuple, a reference, ...) becomes
        `Option<T>`, whether the field is marked or not.
    It also emits `impl OptionalizeTrait for S { type Optional = SOptional; }`.
    On anything but a struct it emits only a compile error. */
module Optionalize {
  import opened Wrappers
  import opened Syntax

  /** The suffix appended to the struct's name. */
  const Suffix := "Optional"
  /** The one identifier the attribute scan recognises. */
  const IgnoreMarker := "optionalize_ignore"
  /** The identifier that marks a type as already optional. */
  const OptionIdent := "Option"
  /** The trait that links a struct to its optional counterpart, and its
      associated type. */
  const TraitName := "OptionalizeTrait"
  const AssocName := "Optional"
  /** The message of the compile error for anything but a struct. */
  const NotStructMessage := "Optionalize can only be used on structs"

  /** The names the heuristic assumes never implement `OptionalizeTrait`,
      as auditable data. */
  const PrimitiveNames: set<string> := {"i32", "i64", "u32", "u64", "f32", "f64", "String", "bool"}

  /** The attribute that marks a field as ignored, `#[optionalize_ignore]`. */
  const MarkerAttr := PathAttr(AttrPath(false, [IgnoreMarker]))

  // ---------------------------------------------------------------------------
  // Field classification
  // ---------------------------------------------------------------------------

  /** syn's `Path::is_ident`: no leading `::` and exactly the one identifier. */
  predicate IsBareIdent(p: AttrPath, ident: string)
  {
    !p.leadingColon && p.idents == [ident]
  }

  /** The match arm of the attribute scan: a bare-path meta that is the
      marker identifier. Exactly one attribute value is a marker. */
  function IsIgnoreMarker(a: Attr): (r: bool)
    ensures r <==> a == MarkerAttr
  {
    match a
    case PathAttr(p) => IsBareIdent(p, IgnoreMarker)
    case ListAttr(_, _) => false
    case NameValueAttr(_, _) => false
  }

  /** A field is ignored when some attribute of it is the marker. */
  predicate IsIgnored(attrs: seq<Attr>)
  {
    exists i :: 0 <= i < |attrs| && IsIgnoreMarker(attrs[i])
  }

  /** The scan as the macro runs it: a flag, false at first, set by every
      marker met while walking the attributes in order. */
  method ScanIgnore(attrs: seq<Attr>) returns (ignore: bool)
    ensures ignore == IsIgnored(attrs)
  {
    ignore := false;
    for i := 0 to |attrs|
      invariant ignore <==> exists j :: 0 <= j < i && IsIgnoreMarker(attrs[j])
    {
      match attrs[i]
      case PathAttr(p) =>
        if IsBareIdent(p, IgnoreMarker) {
          ignore := true;
        }
      case ListAttr(_, _) =>
      case NameValueAttr(_, _) =>
    }
  }

  /** Attributes other than the marker never set the flag: appending
      attribute lists combines their flags by disjunction. */
  lemma IgnoredAppend(a: seq<Attr>, b: seq<Attr>)
    ensures IsIgnored(a + b) <==> IsIgnored(a) || IsIgnored(b)
  {
    if IsIgnored(a + b) {
      var i :| 0 <= i < |a + b| && IsIgnoreMarker((a + b)[i]);
      if i >= |a| {
        assert b[i - |a|] == (a + b)[i];
      }
    }
    if IsIgnored(a) {
      var i :| 0 <= i < |a| && IsIgnoreMarker(a[i]);
      assert (a + b)[i] == a[i];
    }
    if IsIgnored(b) {
      var i :| 0 <= i < |b| && IsIgnoreMarker(b[i]);
      assert (a + b)[|a| + i] == b[i];
    }
  }

  /** The order of a field's attributes does not matter. */
  lemma IgnoredOrderIrrelevant(a: seq<Attr>, b: seq<Attr>)
    requires multiset(a) == multiset(b)
    ensures IsIgnored(a) == IsIgnored(b)
  {
    if IsIgnored(a) {
      var i :| 0 <= i < |a| && IsIgnoreMarker(a[i]);
      assert a[i] in multiset(b);
      var j :| 0 <= j < |b| && b[j] == a[i];
    }
    if IsIgnored(b) {
      var j :| 0 <= j < |b| && IsIgnoreMarker(b[j]);
      assert b[j] in multiset(a);
      var i :| 0 <= i < |a| && a[i] == b[j];
    }
  }

  /** The `Option` test on a path (`segments.last().map(..).unwrap_or(false)`):
      the path ends in a segment `Option<..>`, whatever precedes it; a path
      without segments is not an `Option`. */
  function LastIsOption(segments: seq<Segment>): (r: bool)
    ensures r <==> exists front: seq<Segment>, args: seq<Ty> :: segments == front + [Segment(OptionIdent, args)]
  {
    if |segments| == 0 then false
    else
      var last := segments[|segments| - 1];
      assert segments == segments[..|segments| - 1] + [Segment(last.ident, last.args)];
      last.ident == OptionIdent
  }

  /** A type the generated struct can hold absent: a path ending in `Option`. */
  predicate IsOptionTy(t: Ty)
  {
    t.PathTy? && LastIsOption(t.segments)
  }

  /** `type_implements_optionalize`: a path type whose last identifier is not
      on the denylist; never a type of another form. */
  function ImplementsOptionalize(t: Ty): (r: bool)
    requires WellFormed(t)
    ensures r <==> t.PathTy? && LastIdent(t) !in PrimitiveNames
  {
    match t
    case PathTy(_, segments) =>
      var s := segments[|segments| - 1].ident;
      !(s == "i32" || s == "i64" || s == "u32" || s == "u64"
        || s == "f32" || s == "f64" || s == "String" || s == "bool")
    case NonPath(_, _) => false
  }

  // ---------------------------------------------------------------------------
  // Field rewriting
  // ---------------------------------------------------------------------------

  /** The choice made for one field's type: keep it, wrap it in `Option`,
      or wrap its `OptionalizeTrait::Optional` counterpart in `Option`. */
  datatype OutTy = Same(ty: Ty) | Wrap(ty: Ty) | WrapAssoc(ty: Ty)

  /** A field of the generated struct. */
  datatype GenField = GenField(name: Option<string>, ty: OutTy)

  /** `<t as OptionalizeTrait>::Optional`. */
  function AssocOptional(t: Ty): Ty
  {
    PathTy(Some(t), [Segment(TraitName, []), Segment(AssocName, [])])
  }

  /** The type written into the generated struct for a choice: the declared
      type itself for `Same`, otherwise a single `Option<..>` around the
      declared type (`Wrap`) or its counterpart (`WrapAssoc`). */
  function Emit(o: OutTy): (r: Ty)
    ensures o.Same? ==> r == o.ty
    ensures !o.Same? ==>
              && r.PathTy? && r.qself.None? && |r.segments| == 1
              && r.segments[0].ident == OptionIdent && |r.segments[0].args| == 1
              && r.segments[0].args[0] == (if o.Wrap? then o.ty else AssocOptional(o.ty))
  {
    match o
    case Same(t) => t
    case Wrap(t) => Named(OptionIdent, [t])
    case WrapAssoc(t) => Named(OptionIdent, [AssocOptional(t)])
  }

  /** The body of the `fields.iter().map` closure: the field keeps its name,
      and its declared type is kept (path type, ignored or `Option`),
      wrapped with its counterpart (path type naming no primitive), or
      wrapped plainly (every other case, every non-path type among them). */
  function RewriteField(f: Field): (g: GenField)
    requires WellFormed(f.ty)
    ensures g.name == f.name && g.ty.ty == f.ty
    ensures g.ty.Same? <==> f.ty.PathTy? && (IsIgnored(f.attrs) || LastIsOption(f.ty.segments))
    ensures g.ty.WrapAssoc? <==>
              f.ty.PathTy? && !IsIgnored(f.attrs) && !LastIsOption(f.ty.segments)
              && LastIdent(f.ty) !in PrimitiveNames
  {
    var ignore := IsIgnored(f.attrs);
    var out :=
      match f.ty
      case PathTy(_, segments) =>
        if ignore || LastIsOption(segments) then Same(f.ty)
        else if ImplementsOptionalize(f.ty) then WrapAssoc(f.ty)
        else Wrap(f.ty)
      case NonPath(_, _) => Wrap(f.ty);
    GenField(f.name, out)
  }

  /** The closure mapped over all fields, one output field per input field,
      in order. */
  function RewriteFields(fields: seq<Field>): (r: seq<GenField>)
    requires FieldsWellFormed(fields)
    ensures |r| == |fields|
    ensures forall i :: 0 <= i < |fields| ==> r[i] == RewriteField(fields[i])
  {
    if fields == [] then []
    else [RewriteField(fields[0])] + RewriteFields(fields[1..])
  }

  // ---------------------------------------------------------------------------
  // The derivation
  // ---------------------------------------------------------------------------

  /** `impl OptionalizeTrait for forType { type Optional = optional; }` */
  datatype TraitLink = TraitLink(forType: string, optional: string)

  /** What a successful derivation emits: the generated struct (its name and
      fields) and the trait link. */
  datatype Expansion = Expansion(structName: string, fields: seq<GenField>, link: TraitLink)

  /** The compile error emitted instead. */
  datatype DeriveError = DeriveError(message: string)

  /** `derive_optionalize`. A struct expands to `<Name>Optional` with its
      fields rewritten one by one in order, linked to the struct by the
      trait; an enum or a union yields the error and nothing else. */
  function Derive(input: Item): (r: Result<Expansion, DeriveError>)
    requires input.Struct? ==> FieldsWellFormed(input.fields)
    ensures r.Ok? <==> input.Struct?
    ensures r.Err? ==> r.error == DeriveError(NotStructMessage)
    ensures r.Ok? ==>
              && r.value.structName == input.name + Suffix
              && r.value.link == TraitLink(input.name, r.value.structName)
              && |r.value.fields| == |input.fields|
              && forall i :: 0 <= i < |input.fields| ==>
                   r.value.fields[i].name == input.fields[i].name
                   && r.value.fields[i] == RewriteField(input.fields[i])
  {
    var optionalName := input.name + Suffix;
    match input
    case Struct(name, fields) =>
      Ok(Expansion(optionalName, RewriteFields(fields), TraitLink(name, optionalName)))
    case Enum(_) => Err(DeriveError(NotStructMessage))
    case Union(_) => Err(DeriveError(NotStructMessage))
  }

  // ---------------------------------------------------------------------------
  // Properties of the rewrite
  // ---------------------------------------------------------------------------

  /** The generated name is the struct's name followed by exactly `Optional`,
      and the trait binds `Optional` to that name for the original struct. */
  lemma GeneratedName(name: string, fields: seq<Field>)
    requires FieldsWellFormed(fields)
    ensures Derive(Struct(name, fields)).Ok?
    ensures var e := Derive(Struct(name, fields)).value;
            && |e.structName| == |name| + 8
            && e.structName[..|name|] == name
            && e.structName[|name|..] == "Optional"
            && e.link.forType == name && e.link.optional == e.structName
  {
  }

  /** A kept field emits its declared type: every ignored path field, and
      every field already of type `Option<T>`. */
  lemma KeepsIgnoredAndOption(f: Field)
    requires WellFormed(f.ty)
    requires f.ty.PathTy? && (IsIgnored(f.attrs) || LastIsOption(f.ty.segments))
    ensures Emit(RewriteField(f).ty) == f.ty
  {
  }

  /** `Option<T>` is never wrapped again: a field is wrapped only when its
      type is not already an `Option`. */
  lemma NeverDoubleWrapped(f: Field)
    requires WellFormed(f.ty)
    ensures !RewriteField(f).ty.Same? ==> !IsOptionTy(f.ty)
  {
  }

  /** The generated field can be absent: its type is an `Option` unless the
      field is an ignored path field (then it is the declared type), and
      wrapping is a single `Option` layer around the declared type or its
      counterpart. */
  lemma EmittedIsOptional(f: Field)
    requires WellFormed(f.ty)
    ensures !(f.ty.PathTy? && IsIgnored(f.attrs)) ==> IsOptionTy(Emit(RewriteField(f).ty))
    ensures match RewriteField(f).ty
            case Same(t) => Emit(Same(t)) == f.ty
            case Wrap(t) => Emit(Wrap(t)) == Named(OptionIdent, [f.ty])
            case WrapAssoc(t) => Emit(WrapAssoc(t)) == Named(OptionIdent, [AssocOptional(f.ty)])
  {
  }

  /** A path field that is neither ignored nor `Option` is wrapped with its
      counterpart exactly when its last identifier is off the denylist; so
      `i32` and `String` become `Option<i32>` and `Option<String>`. */
  lemma WrapChoice(f: Field)
    requires WellFormed(f.ty) && f.ty.PathTy?
    requires !IsIgnored(f.attrs) && !LastIsOption(f.ty.segments)
    ensures LastIdent(f.ty) in PrimitiveNames ==> Emit(RewriteField(f).ty) == Named(OptionIdent, [f.ty])
    ensures LastIdent(f.ty) !in PrimitiveNames ==>
              Emit(RewriteField(f).ty) == Named(OptionIdent, [AssocOptional(f.ty)])
  {
  }

  /** A type of any other form than a path is always wrapped plainly, even
      when the field carries the marker. */
  lemma NonPathAlwaysWrapped(f: Field)
    requires f.ty.NonPath?
    ensures RewriteField(f).ty == Wrap(f.ty)
    ensures Emit(RewriteField(f).ty) == Named(OptionIdent, [f.ty])
  {
  }

  /** Only a path's last identifier is consulted: two path fields with the
      same flag and the same last identifier get the same choice, whatever
      their qualifiers, generic arguments or other segments. */
  lemma LastSegmentDecides(f1: Field, f2: Field)
    requires WellFormed(f1.ty) && WellFormed(f2.ty)
    requires f1.ty.PathTy? && f2.ty.PathTy?
    requires IsIgnored(f1.attrs) == IsIgnored(f2.attrs)
    requires LastIdent(f1.ty) == LastIdent(f2.ty)
    ensures RewriteField(f1).ty.Same? == RewriteField(f2).ty.Same?
    ensures RewriteField(f1).ty.Wrap? == RewriteField(f2).ty.Wrap?
    ensures RewriteField(f1).ty.WrapAssoc? == RewriteField(f2).ty.WrapAssoc?
  {
  }

  /** Running the rewrite again on a generated field (which carries no
      attributes) keeps its type, unless the first run kept a non-`Option`
      type only because of the marker. */
  lemma SecondPassKeeps(f: Field)
    requires WellFormed(f.ty)
    requires !(f.ty.PathTy? && IsIgnored(f.attrs) && !LastIsOption(f.ty.segments))
    ensures var t := Emit(RewriteField(f).ty);
            WellFormed(t) && RewriteField(Field(f.name, t, [])).ty == Same(t)
  {
  }

  /** A struct none of whose fields is marked or already optional generates
      one `Option` field per field, with the same names in the same order. */
  lemma PlainStructAllWrapped(name: string, fields: seq<Field>)
    requires FieldsWellFormed(fields)
    requires forall i :: 0 <= i < |fields| ==> !IsIgnored(fields[i].attrs) && !IsOptionTy(fields[i].ty)
    ensures Derive(Struct(name, fields)).Ok?
    ensures var gen := Derive(Struct(name, fields)).value.fields;
            && |gen| == |fields|
            && forall i :: 0 <= i < |fields| ==>
                 gen[i].name == fields[i].name && !gen[i].ty.Same? && IsOptionTy(Emit(gen[i].ty))
  {
  }
}
