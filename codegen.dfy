/**
 * The output-fragment abstraction and the external types that member
 * declarations refer to.
 *
 * A rendered fragment is a sequence of tokens: literal text plus abstract
 * markers for the builder's `pad()`, `newline()` and `block { }`, and opaque
 * embeds for the things whose rendering lives outside this model (types,
 * scopes, modifier sets, annotation lists, thrown-type lists, joined
 * sub-fragments and embedded code elements).
 */
module CodeGen {

  /** A Java type reference: the text it renders as and whether it is primitive. */
  datatype Type = Type(rendered: string, primitive: bool) {
    predicate IsPrimitive() { primitive }
  }

  /** The type `java.util.Objects`, used by the synthesized null checks. */
  const Objects: Type := Type("java.util.Objects", false)

  /** A type name; only its fully qualified class name is used here. */
  datatype TypeName = TypeName(fqcn: string)

  /** The access scope of a declaration. */
  datatype Scope = Public | Protected | Private | PackagePrivate

  /** The modifier keywords that fields and methods can add. */
  datatype Modifier = Static | Final | Abstract | Synchronized | Volatile

  /** An annotation of a given annotation type. */
  datatype JavaAnnotation = JavaAnnotation(annotationType: Type)

  datatype Token =
    | Lit(text: string)                          // `+"text"` or `+'c'`
    | Pad                                        // `pad()`
    | Newline                                    // `newline()`
    | Block(body: seq<Token>)                    // `block { body }`
    | Embed(element: seq<Token>)                 // `+element` for an embedded code element
    | TypeRef(typ: Type)                         // `+type`
    | ScopeRef(scope: Scope)                     // `+scope`
    | ModifiersRef(modifiers: set<Modifier>)     // `+modifiers`
    | AnnotationsRef(annotations: seq<JavaAnnotation>)  // `+getAnnotations()`
    | ThrowsRef(thrown: seq<Type>)               // `+getThrows()`
    | Joined(parts: seq<seq<Token>>, separator: string) // `+join(parts, separator)`

  /** A rendered fragment: what a `CodeGen` closure emits, in order. */
  type Fragment = seq<Token>
}
