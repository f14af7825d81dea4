/** The structs that the repository itself uses to show the macro: the
    example in the macro's documentation and the struct whose optional
    counterpart the core crate's test writes out by hand. */
module OptionalizeScenarios {
  import opened Wrappers
  import opened Syntax
  import opened Optionalize

  function Plain(name: string, ty: Ty): Field
  {
    Field(Some(name), ty, [])
  }

  /** `pub struct MyStruct { id: i32, name: String, description: Option<String> }` */
  function MyStruct(): Item
  {
    Struct("MyStruct", [
      Plain("id", Named("i32", [])),
      Plain("name", Named("String", [])),
      Plain("description", Named("Option", [Named("String", [])]))
    ])
  }

  /** The documented expansion: `MyStructOptional` with fields
      `id: Option<i32>`, `name: Option<String>`, `description: Option<String>`,
      the last one not wrapped twice. */
  lemma MyStructExpansion()
    ensures Derive(MyStruct()).Ok?
    ensures var e := Derive(MyStruct()).value;
            && e.structName == "MyStructOptional"
            && e.link == TraitLink("MyStruct", "MyStructOptional")
            && |e.fields| == 3
            && e.fields[0] == GenField(Some("id"), Wrap(Named("i32", [])))
            && e.fields[1] == GenField(Some("name"), Wrap(Named("String", [])))
            && e.fields[2] == GenField(Some("description"), Same(Named("Option", [Named("String", [])])))
            && Emit(e.fields[2].ty) == Named("Option", [Named("String", [])])
  {
  }

  /** The same struct with `id` marked `#[optionalize_ignore]` keeps
      `id: i32`, and wraps the other fields as before. */
  lemma MyStructIdIgnored()
    ensures var s := MyStruct();
            var ignored := Struct(s.name, [Field(Some("id"), Named("i32", []), [MarkerAttr])] + s.fields[1..]);
            && Derive(ignored).Ok?
            && Derive(ignored).value.fields[0] == GenField(Some("id"), Same(Named("i32", [])))
            && Derive(ignored).value.fields[1..] == Derive(s).value.fields[1..]
  {
    var s := MyStruct();
    var ignored := Struct(s.name, [Field(Some("id"), Named("i32", []), [MarkerAttr])] + s.fields[1..]);
    assert IsIgnoreMarker(ignored.fields[0].attrs[0]);
  }

  /** A struct-typed field `address: Address` is linked to `Address`'s own
      counterpart, while a tuple field marked ignored is still wrapped. */
  lemma NestedAndTupleFields()
    ensures var addr := Named("Address", []);
            var pair := NonPath(Tuple, [Named("i32", []), Named("i32", [])]);
            var s := Struct("User", [Plain("address", addr), Field(Some("pos"), pair, [MarkerAttr])]);
            && Derive(s).Ok?
            && Derive(s).value.fields == [GenField(Some("address"), WrapAssoc(addr)), GenField(Some("pos"), Wrap(pair))]
            && Emit(Derive(s).value.fields[0].ty) == Named("Option", [AssocOptional(addr)])
  {
  }

  /** `struct TestStruct { id: i32, name: String }` */
  function TestStruct(): Item
  {
    Struct("TestStruct", [Plain("id", Named("i32", [])), Plain("name", Named("String", []))])
  }

  /** The macro generates what the core crate's test writes by hand:
      `TestStructOptional { id: Option<i32>, name: Option<String> }`,
      linked to `TestStruct` through `OptionalizeTrait`. */
  lemma TestStructMatchesHandWritten()
    ensures Derive(TestStruct()).Ok?
    ensures var e := Derive(TestStruct()).value;
            && e.structName == "TestStructOptional"
            && e.link == TraitLink("TestStruct", "TestStructOptional")
            && |e.fields| == 2
            && e.fields[0].name == Some("id") && Emit(e.fields[0].ty) == Named("Option", [Named("i32", [])])
            && e.fields[1].name == Some("name") && Emit(e.fields[1].ty) == Named("Option", [Named("String", [])])
  {
  }

  /** Deriving on an enum or a union only reports the error. */
  lemma EnumAndUnionRejected(name: string)
    ensures Derive(Enum(name)) == Err(DeriveError("Optionalize can only be used on structs"))
    ensures Derive(Union(name)) == Err(DeriveError("Optionalize can only be used on structs"))
  {
  }
}
