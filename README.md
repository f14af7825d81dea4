# Optionalize, modelled in Dafny

A model of the `Optionalize` derive macro of the `optionalize` crates. Put on a
struct `S`, the macro generates a struct `SOptional` whose fields are the fields
of `S`, in the same order and under the same names, each made optional:

- a path-typed field marked `#[optionalize_ignore]`, or whose type's last path
  segment is `Option`, keeps its declared type (so `Option<T>` is never wrapped
  twice);
- any other path type `T` becomes `Option<<T as OptionalizeTrait>::Optional>`
  when a name heuristic guesses that `T` has its own optional counterpart (its
  last identifier is none of `i32 i64 u32 u64 f32 f64 String bool`), and
  `Option<T>` otherwise;
- a type that is not a path (tuple, reference, array, ...) becomes `Option<T>`,
  even when the field is marked.

It also emits `impl OptionalizeTrait for S { type Optional = SOptional; }`. On an
enum or a union it emits only the compile error "Optionalize can only be used on
structs".

Files:

- `wrappers.dfy` — module `Wrappers`: `Option` and `Result`.
- `syntax.dfy` — module `Syntax`: the derive input as an abstract syntax tree
  (types as paths or other forms, attributes by the shape of their meta, fields,
  items) in place of syn's `DeriveInput`.
- `optionalize.dfy` — module `Optionalize`: the attribute scan (the loop as a
  method, proved equal to an `exists` predicate), the denylist heuristic, the
  per-field rewrite, the derivation, and the lemmas about them.
- `scenarios.dfy` — module `OptionalizeScenarios`: the macro's documented
  example and the struct of the core crate's test, expanded.

The rewrite result `OutTy` records the choice (`Same`, `Wrap`, `WrapAssoc`)
together with the declared type; `Emit` gives the type the generated struct
declares for it.

The macro rejects only enums and unions (optionalize-macro/src/lib.rs:47-54).
Tuple and unit structs are rewritten like any other struct. Their fields have
no identifiers, so `Field.name` is `None`, just as `fields.iter()` yields them.

The macro's doc comment says a field of type `T` becomes `Option<T>`
(optionalize-macro/src/lib.rs:8). The code does this only for the eight
denylisted names. Every other path type, `usize`, `u8`, `char` and `Vec<T>`
included, becomes `Option<<T as OptionalizeTrait>::Optional>`
(`WrapChoice`, `ImplementsOptionalize`).

## Model

| member | source | states |
|---|---|---|
| `Optionalize.IsIgnoreMarker` | optionalize-macro/src/lib.rs:64-68 | an attribute sets the flag iff it is exactly `#[optionalize_ignore]`: a bare path, no leading `::`, the one identifier; list and name-value forms never do |
| `Optionalize.ScanIgnore` | optionalize-macro/src/lib.rs:61-70 | the loop over the attributes returns true iff some attribute is the marker |
| `Optionalize.IgnoredAppend` | optionalize-macro/src/lib.rs:63-70 | the flag of concatenated attribute lists is the disjunction of their flags, so other attributes never set or clear it |
| `Optionalize.IgnoredOrderIrrelevant` | optionalize-macro/src/lib.rs:63-70 | two attribute lists that are permutations of each other have the same flag |
| `Optionalize.LastIsOption` | optionalize-macro/src/lib.rs:74 | true iff the path ends in a segment named `Option` (with any arguments), whatever precedes it; false for a path without segments |
| `Optionalize.Emit` | optionalize-macro/src/lib.rs:76-86 | the declared type for a kept field; otherwise exactly one `Option<..>` around the declared type (`Wrap`) or around `<T as OptionalizeTrait>::Optional` (`WrapAssoc`) |
| `Optionalize.ImplementsOptionalize` | optionalize-macro/src/lib.rs:105-117 | true iff the type is a path whose last identifier is not in the eight-name denylist; false for every non-path type |
| `Optionalize.RewriteField` | optionalize-macro/src/lib.rs:57-88 | the name is kept; the type is kept iff it is a path that is ignored or ends in `Option`; counterpart-wrapped iff it is such a path that is neither and names no primitive; plainly wrapped otherwise |
| `Optionalize.RewriteFields` | optionalize-macro/src/lib.rs:57-88 | one output field per input field, position by position |
| `Optionalize.Derive` | optionalize-macro/src/lib.rs:36-103 | a struct expands to `<Name>Optional` with its fields rewritten in order and the trait link `Name -> <Name>Optional`; enums and unions yield only the error |
| `Optionalize.GeneratedName` | optionalize-macro/src/lib.rs:41-99 | the generated name is the struct's name followed by exactly `Optional`, and the trait link binds that name to the struct |
| `Optionalize.KeepsIgnoredAndOption` | optionalize-macro/src/lib.rs:73-76 | an ignored or `Option` path field emits its declared type unchanged |
| `Optionalize.NeverDoubleWrapped` | optionalize-macro/src/lib.rs:72-76 | a field whose type is already `Option` is never wrapped |
| `Optionalize.EmittedIsOptional` | optionalize-macro/src/lib.rs:73-87 | every generated field except an ignored path field has an `Option` type, one layer around the declared type or its counterpart |
| `Optionalize.WrapChoice` | optionalize-macro/src/lib.rs:77-83 | a path field neither ignored nor `Option` emits `Option<T>` when its last identifier is a primitive, `Option<<T as OptionalizeTrait>::Optional>` otherwise |
| `Optionalize.NonPathAlwaysWrapped` | optionalize-macro/src/lib.rs:84-86 | a non-path type is wrapped as `Option<T>` whatever its attributes |
| `Optionalize.LastSegmentDecides` | optionalize-macro/src/lib.rs:73-83 | path fields with the same flag and the same last identifier get the same choice, whatever their other segments and arguments |
| `Optionalize.SecondPassKeeps` | optionalize-macro/src/lib.rs:73-87 | rewriting a generated field again keeps its type, except for an ignored non-`Option` path field |
| `Optionalize.PlainStructAllWrapped` | optionalize-macro/src/lib.rs:57-95 | a struct with no marked and no `Option` fields generates only `Option` fields, same names, same order |
| `OptionalizeScenarios.MyStructExpansion` | optionalize-macro/src/lib.rs:16-28 | the documented struct expands to `MyStructOptional { id: Option<i32>, name: Option<String>, description: Option<String> }` |
| `OptionalizeScenarios.MyStructIdIgnored` | optionalize-macro/src/lib.rs:61-76 | marking `id` keeps `id: i32` and leaves the other fields as before |
| `OptionalizeScenarios.NestedAndTupleFields` | optionalize-macro/src/lib.rs:77-86 | a user-named type is linked to its counterpart; a marked tuple field is still wrapped |
| `OptionalizeScenarios.TestStructMatchesHandWritten` | optionalize-core/src/test.rs:4-16 | the expansion of `TestStruct` is the hand-written `TestStructOptional { id: Option<i32>, name: Option<String> }` with its trait link |
| `OptionalizeScenarios.EnumAndUnionRejected` | optionalize-macro/src/lib.rs:47-54 | an enum or a union yields exactly the error |

## Left out

- Parsing with syn, emission with quote, spans and `TokenStream` conversion:
  the input and output are the abstract syntax tree of `syntax.dfy` and the
  `Expansion` value.
- The `#[derive(Debug, Deserialize)]` put on the generated struct, and the fact
  that its fields are emitted without `pub` and without the original
  attributes: fixed decoration, not modelled.
- The formatting of the compile error (its span and token form): modelled as
  the error value with its message.
- The panic of `segments.last().unwrap()` on a path without segments: syn never
  builds one, so `WellFormed` is a precondition.
- The qualified self type of a path type (`<T as Trait>::X`) is not read by the
  macro; the model carries it only to write `<T as OptionalizeTrait>::Optional`.
- Whether the host compiler accepts the generated code (a type that the
  heuristic links but that does not implement `OptionalizeTrait`, a tuple struct
  whose fields have no names, a name collision): outside the macro.
- No `to_active` conversion exists in this code, so none is modelled.
- The struct's generics, where-clause and visibility are never read: the
  macro emits a non-generic `pub struct <Name>Optional` and an
  `impl OptionalizeTrait for <Name>` without type parameters, so a generic
  struct fails in the host compiler. The model's `Item` carries none of them.
- Derive: does not tell raw identifiers apart. For a struct declared as
  `r#Foo`, the macro builds the string `r#FooOptional`, and `syn::Ident::new`
  panics on it (optionalize-macro/src/lib.rs:44). The model returns `Ok` with
  that name instead.
- The definition of `OptionalizeTrait` is not part of this model. The test at
  optionalize-core/src/test.rs:14-16 implements it with only
  `type Optional`.
