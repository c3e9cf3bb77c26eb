/** Worked declarations, checked against what the builders' contracts promise. */
module Examples {
  import opened CodeGen
  import opened Wrappers
  import Params
  import Methods
  import Fields
  import Javadocs
  import Strings
  import Tags

  const StringType: Type := Type("String", false)
  const VoidType: Type := Type("void", true)

  /** The parameter `String input` renders as its type, a space and its name. */
  method InputParameter() returns (p: Params.Param, r: Fragment)
    ensures !p.allowNull && p.name == "input"
    ensures r == [AnnotationsRef([]), TypeRef(StringType), Lit(" input")]
  {
    p := new Params.Param(StringType, "input", allowNull := false);
    assert " " + p.name == " input";
    r := p.Build();
  }

  /**
   * `void validate(String input)` with a parameter that rejects null and an
   * empty body: the block holds exactly one null check, for `input`.
   */
  method ValidateMethod() returns (r: Fragment)
    ensures |r| == 14
    ensures r[13] == Block([Newline, TypeRef(Objects), Lit(Methods.RequireNonNull("input"))])
  {
    var m := new Methods.JavaMethod(Public, VoidType, "validate");
    var input := new Params.Param(StringType, "input", allowNull := false);
    m.params := [input];
    Methods.NullChecksOfOne(input);
    r := m.Build();
    assert r[13].body == Methods.NullChecks([input]);
  }

  /** The same parameter with the default `allowNull = true` gets no null check. */
  method NullableParameter() returns (r: Fragment)
    ensures |r| == 14 && r[13] == Block([])
  {
    var m := new Methods.JavaMethod(Public, VoidType, "validate");
    var input := new Params.Param(StringType, "input");
    m.params := [input];
    Methods.NullChecksOfOne(input);
    r := m.Build();
  }

  /** `private final String name;`. */
  method NameField() returns (f: Fields.JavaField, r: Fragment)
    ensures |r| == 9
    ensures r[3] == ScopeRef(Private) && r[4] == ModifiersRef({Modifier.Final}) && r[5] == TypeRef(StringType)
    ensures r[6] == Lit(" ") && r[7] == Lit("name") && r[8] == Lit(";\n")
  {
    f := new Fields.JavaField(Private, StringType, "name", "the name", Type("Person", false));
    f.Final();
    r := f.Build();
    assert r[..8][3] == r[3] && r[..8][4] == r[4];
  }

  /** The comment documenting "the name" holds that text as its one description line. */
  method NameDoc() returns (r: Fragment)
    ensures r == [Pad, Lit("/**\n"), Javadocs.DescriptionLine("the name"), Lit(" */\n")]
  {
    var doc := new Javadocs.Javadoc();
    doc.Append("the name");
    assert doc.description == "the name" && doc.tags == [] && doc.params == [];
    assert !Strings.IsWhitespace(doc.description[0]);
    Javadocs.RenderOneLine(doc.description);
    r := doc.Build();
    assert r == Javadocs.Render("the name", [], []);
  }

  /** A static field refers to itself through its owner, a member field through `this`. */
  method FieldReferences() returns (staticRef: string, memberRef: string)
    ensures staticRef == "Foo.bar" && memberRef == "this.bar"
  {
    var foo := Type("Foo", false);
    var s := new Fields.JavaField(Private, StringType, "bar", "", foo);
    s.Static();
    s.Static();
    assert s.modifiers == {Modifier.Static};
    staticRef := s.ToString();
    var m := new Fields.JavaField(Private, StringType, "bar", "", foo);
    memberRef := m.ToString();
  }
}
