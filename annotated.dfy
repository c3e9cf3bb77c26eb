/** The annotation-list capability that fields, methods and parameters hold. */
module Annotated {
  import opened CodeGen

  /** `Annotated.Impl`: an append-only list of annotations. */
  class Impl {
    var annotations: seq<JavaAnnotation>

    constructor ()
      ensures annotations == []
    {
      annotations := [];
    }

    /**
     * Adds an annotation of the given type at the end of the list and
     * returns it; the annotations already there keep their positions.
     */
    method Annotation(annotationType: Type) returns (a: JavaAnnotation)
      modifies this
      ensures a.annotationType == annotationType
      ensures annotations == old(annotations) + [a]
      ensures |annotations| == |old(annotations)| + 1 && annotations[|annotations| - 1] == a
      ensures HasAnnotations()
    {
      a := JavaAnnotation(annotationType);
      annotations := annotations + [a];
    }

    /** The annotations, in the order they were added. */
    function GetAnnotations(): (r: seq<JavaAnnotation>)
      reads this
      ensures r == annotations
    {
      annotations
    }

    /** The interface's default `hasAnnotations`. */
    function HasAnnotations(): (r: bool)
      reads this
      ensures r <==> GetAnnotations() != []
    {
      |GetAnnotations()| > 0
    }
  }
}
