/** A method parameter (`Param`). */
module Params {
  import opened CodeGen
  import Annotated

  /**
   * An immutable parameter record. Its only mutable part is the annotation
   * list it holds through the annotation capability.
   */
  class Param {
    const typ: Type
    const name: string
    const allowNull: bool
    const description: string
    const varargs: bool
    const annotated: Annotated.Impl

    constructor (typ: Type, name: string, allowNull: bool := true, description: string := "", varargs: bool := false)
      ensures this.typ == typ && this.name == name
      ensures this.allowNull == allowNull && this.description == description && this.varargs == varargs
      ensures fresh(annotated) && annotated.annotations == []
    {
      this.typ := typ;
      this.name := name;
      this.allowNull := allowNull;
      this.description := description;
      this.varargs := varargs;
      annotated := new Annotated.Impl();
    }

    /** Annotations, the type, `...` for a varargs parameter, then a space and the name. */
    function Build(): (r: Fragment)
      reads annotated
      ensures |r| == if varargs then 4 else 3
      ensures r[0] == AnnotationsRef(annotated.annotations) && r[1] == TypeRef(typ)
      ensures r[2] == Lit("...") <==> varargs
      ensures r[|r| - 1] == Lit(" " + name)
    {
      assert (" " + name)[0] != "..."[0];
      [AnnotationsRef(annotated.annotations), TypeRef(typ)]
      + (if varargs then [Lit("...")] else [])
      + [Lit(" " + name)]
    }

    /** The parameter's name. */
    function ToString(): (r: string)
      ensures r == name
    {
      name
    }
  }
}
