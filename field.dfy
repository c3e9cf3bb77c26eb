/** A field declaration (`JavaField`). */
module Fields {
  import opened CodeGen
  import opened Wrappers
  import Annotated
  import Javadocs

  /** `JavaField`. */
  class JavaField {
    const scope: Scope
    const typ: Type
    const name: string
    /** Taken by the constructor and never used. */
    const description: string
    const owner: Type
    const annotated: Annotated.Impl
    const javadoc: Javadocs.Javadoc
    var modifiers: set<Modifier>
    /** The initializer, if any. */
    var value: Option<Fragment>

    constructor (scope: Scope, typ: Type, name: string, description: string, owner: Type)
      ensures this.scope == scope && this.typ == typ && this.name == name
      ensures this.description == description && this.owner == owner
      ensures fresh(annotated) && annotated.annotations == []
      ensures fresh(javadoc) && javadoc.description == "" && javadoc.tags == []
      ensures modifiers == {} && value == None
    {
      this.scope := scope;
      this.typ := typ;
      this.name := name;
      this.description := description;
      this.owner := owner;
      annotated := new Annotated.Impl();
      javadoc := new Javadocs.Javadoc();
      modifiers := {};
      value := None;
    }

    method Static()
      modifies this
      ensures modifiers == old(modifiers) + {Modifier.Static} && value == old(value)
      ensures IsStatic() && IsFinal() == old(IsFinal())
    {
      modifiers := modifiers + {Modifier.Static};
    }

    method Final()
      modifies this
      ensures modifiers == old(modifiers) + {Modifier.Final} && value == old(value)
      ensures IsFinal() && IsStatic() == old(IsStatic())
    {
      modifiers := modifiers + {Modifier.Final};
    }

    method Volatile()
      modifies this
      ensures modifiers == old(modifiers) + {Modifier.Volatile} && value == old(value)
      ensures IsStatic() == old(IsStatic()) && IsFinal() == old(IsFinal())
    {
      modifiers := modifiers + {Modifier.Volatile};
    }

    /**
     * The fragment `build()` returns: the Javadoc, the annotations, a
     * newline, scope, modifiers, type, a space and the name, ` = ` and the
     * initializer when there is one, and the closing `;`.
     */
    function Build(): (r: Fragment)
      reads this, javadoc, annotated
      ensures |r| >= 9
      ensures r[..8] == [ Embed(javadoc.Build()), AnnotationsRef(annotated.annotations), Newline,
                          ScopeRef(scope), ModifiersRef(modifiers), TypeRef(typ), Lit(" "), Lit(name) ]
      ensures r[|r| - 1] == Lit(";\n")
      ensures r[8] == Lit(" = ") <==> value.Some?
      ensures value.Some? ==> r[9..|r| - 1] == value.value
      ensures value.None? ==> |r| == 9
    {
      var declaration := [ Embed(javadoc.Build()), AnnotationsRef(annotated.annotations), Newline,
                           ScopeRef(scope), ModifiersRef(modifiers), TypeRef(typ), Lit(" "), Lit(name) ];
      var initializer := match value
        case Some(v) => [Lit(" = ")] + v
        case None => [];
      var r := declaration + initializer + [Lit(";\n")];
      assert r[..8] == declaration;
      assert |initializer| > 0 ==> r[8] == initializer[0];
      r
    }

    /** Whether the field's type is primitive. */
    function IsPrimitive(): (r: bool)
      ensures r == typ.IsPrimitive()
    {
      typ.IsPrimitive()
    }

    /** Whether `static` is among the field's modifiers. */
    function IsStatic(): (r: bool)
      reads this
      ensures r <==> Modifier.Static in modifiers
    {
      Modifier.Static in modifiers
    }

    /** Whether `final` is among the field's modifiers. */
    function IsFinal(): (r: bool)
      reads this
      ensures r <==> Modifier.Final in modifiers
    {
      Modifier.Final in modifiers
    }

    /** A reference to the field: `Owner.name` when it is static, `this.name` otherwise. */
    function ToString(): (r: string)
      reads this
      ensures IsStatic() ==> r == owner.rendered + "." + name
      ensures !IsStatic() ==> r == "this." + name
    {
      if IsStatic() then owner.rendered + "." + name else "this." + name
    }
  }
}
