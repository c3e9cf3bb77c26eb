# Java member builders of kodegen, modelled in Dafny

kodegen builds Java source text from Kotlin. A caller creates a declaration
element, which is a field (`JavaField`), a method (`JavaMethod`) or a
parameter (`Param`). The caller then adds modifiers, annotations,
documentation, parameters and a body, and calls `build()`. `build()` returns
a deferred output fragment (`CodeGen`), which the rendering engine writes
out later.

This project models those builders and the Javadoc comment builder:

- **The output fragment** is a sequence of tokens (module `CodeGen`):
  - literal text;
  - the markers `Pad`, `Newline` and `Block(...)`;
  - embedded fragments;
  - opaque references to a type, a scope, a modifier set, an annotation
    list, a thrown-type list, and a list of fragments joined by a separator.

  The engine that turns tokens into text is not modelled. Types, scopes,
  modifiers and annotations are opaque values. A type carries its rendered
  name and whether it is primitive.
- **Javadoc** (module `Javadocs`) is a class with three fields:
  - a mutable description, which the markup helpers append to;
  - a mutable list of ranked tags;
  - a private `params` list, which the class never assigns, so it stays
    empty.

  Its `Build` is specified by the pure function `Render`. `Render` does the
  following:
  - it emits nothing for a blank description without tags;
  - otherwise it emits a pad, `/**`, one ` * line` per `'\n'`-separated
    description line, the ` *` separator exactly when both parts are
    present, the tags in stable rank order, and ` */`.

  Kotlin's `split('\n')` (which keeps trailing empty pieces) and
  `isBlank()` (which uses the JVM whitespace set) are written out in module
  `Strings`. `List.sorted()` is a stable sort. The tag type, its
  `compareTo` and that sort are in module `Tags`. The model proves the sort
  stable, and proves that a stable sort by rank has only one possible
  result.
- **Null-check synthesis and method rendering** (module `Methods`):
  - `nullChecks` filters the parameters that forbid null and have a
    non-primitive type, then maps each to its `Objects.requireNonNull`
    statement;
  - the method declaration is a fixed token layout with the null checks
    ahead of the body inside the block.
- **Fields** (module `Fields`): modifier adders, an optional initializer,
  the token layout of the declaration, and the `Owner.name` / `this.name`
  self-reference.
- **Parameters** (module `Params`): an immutable record whose rendering is
  annotations, type, an optional `...`, and then ` name`.
- **The annotation capability** (module `Annotated`): an append-only list of
  annotations with an emptiness query.
- **Worked declarations** (module `Examples`) create real objects and read
  the promised output off the builders' contracts.

Any tag, even one with a blank value, makes the Javadoc non-empty. So do
`pre`, `code`, `list` and `link`, whose markup is never blank. `IsEmpty` and
an empty `Build` both hold exactly when the description is blank and the tag
list is empty. `params` is modelled as a constant empty list, and `Render`
keeps its `params != []` disjunct.

## Model

| member | source | states |
|---|---|---|
| Strings.IsBlank | src/main/kotlin/galuzzi/kodegen/java/Javadoc.kt:41 | `isBlank()`: the empty text is blank, and a non-empty text is blank exactly when its first character is JVM whitespace and the rest is blank |
| Strings.EndsWith | src/main/kotlin/galuzzi/kodegen/java/Javadoc.kt:45-49 | `endsWith`: the text ends with the suffix exactly when it is some prefix followed by the suffix |
| Strings.EndsWithAppend | src/main/kotlin/galuzzi/kodegen/java/Javadoc.kt:45-49 | a text with a suffix appended ends with that suffix, so `pad()` appends each terminator at most once |
| Strings.BlankConcat | src/main/kotlin/galuzzi/kodegen/java/Javadoc.kt:128-133 | appended text is blank exactly when both parts are, so appending non-blank markup makes the description non-blank |
| Strings.Split | src/main/kotlin/galuzzi/kodegen/java/Javadoc.kt:146 | `split('\n')` yields at least one piece, and no piece contains a newline |
| Strings.JoinSplit | src/main/kotlin/galuzzi/kodegen/java/Javadoc.kt:146 | joining the split pieces with newlines gives back the description, so no character of it is lost or reordered |
| Strings.SplitJoin | src/main/kotlin/galuzzi/kodegen/java/Javadoc.kt:146 | splitting newline-joined lines that contain no newline gives back exactly those lines |
| Strings.SplitWithoutNewline | src/main/kotlin/galuzzi/kodegen/java/Javadoc.kt:146 | a text without a newline splits into itself alone |
| Strings.SplitAfterLine | src/main/kotlin/galuzzi/kodegen/java/Javadoc.kt:146 | a line followed by a newline splits off as its own first piece |
| Tags.CompareTo | src/main/kotlin/galuzzi/kodegen/java/Javadoc.kt:155-163 | the comparison is -1, 0 or 1, and its sign is exactly the order of the two ranks; name and value play no part |
| Tags.Insert | src/main/kotlin/galuzzi/kodegen/java/Javadoc.kt:149 | one insertion step adds exactly the new tag |
| Tags.InsertSorted | src/main/kotlin/galuzzi/kodegen/java/Javadoc.kt:149 | inserting into a rank-sorted list keeps it rank-sorted |
| Tags.InsertWithOrder | src/main/kotlin/galuzzi/kodegen/java/Javadoc.kt:149 | the inserted tag goes ahead of every tag of the same rank |
| Tags.Sorted | src/main/kotlin/galuzzi/kodegen/java/Javadoc.kt:149 | `sorted()` is a permutation of the tags, in non-decreasing rank order |
| Tags.SortedStable | src/main/kotlin/galuzzi/kodegen/java/Javadoc.kt:149-162 | after sorting, the tags of every rank come in their insertion order |
| Tags.WithOrderMember | src/main/kotlin/galuzzi/kodegen/java/Javadoc.kt:149 | the tags picked for a rank are tags of the list with that rank |
| Tags.SameRanksSameOrder | src/main/kotlin/galuzzi/kodegen/java/Javadoc.kt:149 | two rank-sorted lists with the same tags in the same order at every rank are equal |
| Tags.StableSortIsUnique | src/main/kotlin/galuzzi/kodegen/java/Javadoc.kt:149-162 | any rank-sorted list that preserves insertion order at each rank is exactly the result of `sorted()` |
| Javadocs.DescriptionLines | src/main/kotlin/galuzzi/kodegen/java/Javadoc.kt:146 | one ` * line` token per description line, in order |
| Javadocs.TagLines | src/main/kotlin/galuzzi/kodegen/java/Javadoc.kt:149 | one ` * @name value` token per tag, in order |
| Javadocs.Render | src/main/kotlin/galuzzi/kodegen/java/Javadoc.kt:130-152 | the comment is empty exactly when the description is blank and there are no tags; otherwise it starts with a pad and `/**` and ends with ` */` |
| Javadocs.NoLineIsTheSeparator | src/main/kotlin/galuzzi/kodegen/java/Javadoc.kt:146-149 | neither a description line nor a tag line is the ` *` separator |
| Javadocs.RenderSeparator | src/main/kotlin/galuzzi/kodegen/java/Javadoc.kt:144-147 | the ` *` separator occurs exactly when there are both a non-blank description and tags |
| Javadocs.RenderDescription | src/main/kotlin/galuzzi/kodegen/java/Javadoc.kt:144-146 | each split description line follows the opening line as ` * line`, and the lines join back to the description |
| Javadocs.RenderTagLines | src/main/kotlin/galuzzi/kodegen/java/Javadoc.kt:149-150 | the tag lines of the sorted tags sit just before the closing line |
| Javadocs.RenderTags | src/main/kotlin/galuzzi/kodegen/java/Javadoc.kt:149-163 | the lines before ` */` are the tags in non-decreasing rank order, with insertion order kept within each rank |
| Javadocs.RenderOneLine | src/main/kotlin/galuzzi/kodegen/java/Javadoc.kt:141-150 | a one-line description without tags renders as pad, `/**`, ` * line`, ` */` |
| Javadocs.PadText | src/main/kotlin/galuzzi/kodegen/java/Javadoc.kt:39-53 | `pad()` leaves a blank description unchanged; otherwise it keeps the text as a prefix, adds at most a newline and `<p>\n`, and the result ends with `<p>\n` |
| Javadocs.PadIdempotent | src/main/kotlin/galuzzi/kodegen/java/Javadoc.kt:39-53 | a second `pad()` changes nothing |
| Javadocs.ListItemsConcat | src/main/kotlin/galuzzi/kodegen/java/Javadoc.kt:69 | each item contributes exactly its own `  <li>item</li>` entry, in iteration order |
| Javadocs.Javadoc.constructor | src/main/kotlin/galuzzi/kodegen/java/Javadoc.kt:30-32 | a new Javadoc has an empty description and no tags |
| Javadocs.Javadoc.Append | src/main/kotlin/galuzzi/kodegen/java/Javadoc.kt:34-37 | `+text` appends the text to the description, and the tags are unchanged |
| Javadocs.Javadoc.Pad | src/main/kotlin/galuzzi/kodegen/java/Javadoc.kt:39-53 | the imperative `pad()` leaves the description `PadText` describes, and the tags are unchanged |
| Javadocs.Javadoc.Pre | src/main/kotlin/galuzzi/kodegen/java/Javadoc.kt:55-58 | appends `<pre>\n`, the text, then `\n</pre>\n` |
| Javadocs.Javadoc.Code | src/main/kotlin/galuzzi/kodegen/java/Javadoc.kt:60-63 | appends `<code>text</code>` |
| Javadocs.Javadoc.List | src/main/kotlin/galuzzi/kodegen/java/Javadoc.kt:65-76 | the `forEach` loop appends `<ul>` or `<ol>`, one entry per item in order, and the closing tag, in both overloads |
| Javadocs.Javadoc.Link | src/main/kotlin/galuzzi/kodegen/java/Javadoc.kt:78-81 | appends `{@link fqcn}` |
| Javadocs.Javadoc.Author | src/main/kotlin/galuzzi/kodegen/java/Javadoc.kt:83-86 | appends one `author` tag of rank 1; the description is unchanged |
| Javadocs.Javadoc.Version | src/main/kotlin/galuzzi/kodegen/java/Javadoc.kt:88-91 | appends one `version` tag of rank 2 |
| Javadocs.Javadoc.Param | src/main/kotlin/galuzzi/kodegen/java/Javadoc.kt:93-96 | appends one `param` tag of rank 3 whose value is the name, one space and the description |
| Javadocs.Javadoc.Returns | src/main/kotlin/galuzzi/kodegen/java/Javadoc.kt:98-101 | appends one `return` tag of rank 4 |
| Javadocs.Javadoc.Throws | src/main/kotlin/galuzzi/kodegen/java/Javadoc.kt:103-106 | appends one `throws` tag of rank 5 whose value is the type, one space and the description |
| Javadocs.Javadoc.See | src/main/kotlin/galuzzi/kodegen/java/Javadoc.kt:108-111 | appends one `see` tag of rank 6 |
| Javadocs.Javadoc.Since | src/main/kotlin/galuzzi/kodegen/java/Javadoc.kt:113-116 | appends one `since` tag of rank 7 |
| Javadocs.Javadoc.Deprecated | src/main/kotlin/galuzzi/kodegen/java/Javadoc.kt:118-121 | appends one `deprecated` tag of rank 9 |
| Javadocs.Javadoc.Tag | src/main/kotlin/galuzzi/kodegen/java/Javadoc.kt:123-126 | appends one custom tag of rank 10, after every standard rank |
| Javadocs.Javadoc.Build | src/main/kotlin/galuzzi/kodegen/java/Javadoc.kt:130-152 | nothing exactly when the description is blank and there are no tags; otherwise pad, `/**` first and ` */` last, the separator exactly when both parts are present, and the sorted tag lines just before ` */` |
| Javadocs.Javadoc.IsEmpty | src/main/kotlin/galuzzi/kodegen/java/Javadoc.kt:128-139 | `isEmpty()` holds exactly when the description is blank and there are no tags, which is exactly when `build()` emits nothing |
| Methods.Checked | src/main/kotlin/galuzzi/kodegen/java/JavaMethod.kt:91 | every kept parameter forbids null and is not primitive, and every such parameter is kept; the counts are in `CheckedCounts` |
| Methods.CheckedCounts | src/main/kotlin/galuzzi/kodegen/java/JavaMethod.kt:91 | the filter keeps every occurrence of a parameter that needs a check and none of any other, so a parameter listed twice is kept twice |
| Methods.NullChecks | src/main/kotlin/galuzzi/kodegen/java/JavaMethod.kt:88-98 | three tokens per filtered parameter, and nothing when no parameter needs a check |
| Methods.RepeatedParamCheckedTwice | src/main/kotlin/galuzzi/kodegen/java/JavaMethod.kt:91-96 | a parameter that needs a check and is listed twice gets two null checks |
| Methods.EmitNullChecks | src/main/kotlin/galuzzi/kodegen/java/JavaMethod.kt:92-96 | three tokens per checked parameter |
| Methods.EmitNullChecksAt | src/main/kotlin/galuzzi/kodegen/java/JavaMethod.kt:92-96 | the i-th group of three tokens is the null check of the i-th checked parameter |
| Methods.Names | src/main/kotlin/galuzzi/kodegen/java/JavaMethod.kt:95 | the names of the parameters, one per parameter, in order |
| Methods.CheckedIsSubsequence | src/main/kotlin/galuzzi/kodegen/java/JavaMethod.kt:91 | the filtered parameters keep declaration order |
| Methods.NullChecksFollowParams | src/main/kotlin/galuzzi/kodegen/java/JavaMethod.kt:88-98 | one statement per occurrence of a parameter that needs it, counted with multiplicity, and none for any other; each is a newline, `Objects` and `.requireNonNull(p, "p");`; the checked names are a subsequence of the parameter names |
| Methods.NullChecksOfOne | src/main/kotlin/galuzzi/kodegen/java/JavaMethod.kt:88-98 | a single parameter yields its null check when it needs one and nothing otherwise |
| Methods.ParamFragments | src/main/kotlin/galuzzi/kodegen/java/JavaMethod.kt:77 | the parameters, rendered one by one in declaration order, are what `join` receives |
| Methods.RenderSignature | src/main/kotlin/galuzzi/kodegen/java/JavaMethod.kt:71-79 | scope, modifiers, return type, `' '`, name, `'('`, the parameters joined by `", "`, `')'` and throws, in that order |
| Methods.RenderMethod | src/main/kotlin/galuzzi/kodegen/java/JavaMethod.kt:66-84 | pad, javadoc, annotations and newline, then the signature, then one block whose body is the null checks followed by the user body |
| Methods.JavaMethod.constructor | src/main/kotlin/galuzzi/kodegen/java/JavaMethod.kt:30-39 | a new method has no modifiers, annotations, parameters, body or thrown types, and an empty Javadoc |
| Methods.JavaMethod.Static | src/main/kotlin/galuzzi/kodegen/java/JavaMethod.kt:41-44 | adds exactly `static`; other modifiers and all other state are unchanged |
| Methods.JavaMethod.Final | src/main/kotlin/galuzzi/kodegen/java/JavaMethod.kt:46-49 | adds exactly `final`; nothing else changes |
| Methods.JavaMethod.Abstract | src/main/kotlin/galuzzi/kodegen/java/JavaMethod.kt:51-54 | adds exactly `abstract`; nothing else changes |
| Methods.JavaMethod.Synchronized | src/main/kotlin/galuzzi/kodegen/java/JavaMethod.kt:56-59 | adds exactly `synchronized`; nothing else changes |
| Methods.JavaMethod.Build | src/main/kotlin/galuzzi/kodegen/java/JavaMethod.kt:66-84 | the 14 tokens pad, javadoc, annotations, newline, scope, modifiers, return type, `' '`, name, `'('`, the parameters joined by `", "`, `')'`, throws, and a block holding the null checks followed by the body |
| Fields.JavaField.constructor | src/main/kotlin/galuzzi/kodegen/java/JavaField.kt:30-40 | a new field has no modifiers, no initializer, no annotations and an empty Javadoc |
| Fields.JavaField.Static | src/main/kotlin/galuzzi/kodegen/java/JavaField.kt:42-45 | adds `static`; afterwards `isStatic()` holds, `isFinal()` is as before, and the initializer is unchanged |
| Fields.JavaField.Final | src/main/kotlin/galuzzi/kodegen/java/JavaField.kt:47-50 | adds `final`; afterwards `isFinal()` holds and `isStatic()` is as before |
| Fields.JavaField.Volatile | src/main/kotlin/galuzzi/kodegen/java/JavaField.kt:52-55 | adds `volatile`, leaving `isStatic()` and `isFinal()` unchanged |
| Fields.JavaField.Build | src/main/kotlin/galuzzi/kodegen/java/JavaField.kt:57-74 | javadoc, annotations, newline, scope, modifiers, type, `' '` and name, then ` = ` and the initializer exactly when there is one, always ending with `;\n` |
| Fields.JavaField.IsPrimitive | src/main/kotlin/galuzzi/kodegen/java/JavaField.kt:76 | the field is primitive exactly when its type is |
| Fields.JavaField.IsStatic | src/main/kotlin/galuzzi/kodegen/java/JavaField.kt:78 | holds exactly when `static` is in the modifier set |
| Fields.JavaField.IsFinal | src/main/kotlin/galuzzi/kodegen/java/JavaField.kt:80 | holds exactly when `final` is in the modifier set |
| Fields.JavaField.ToString | src/main/kotlin/galuzzi/kodegen/java/JavaField.kt:78-85 | `Owner.name` for a static field and `this.name` otherwise |
| Annotated.Impl.constructor | src/main/kotlin/galuzzi/kodegen/java/support/Annotated.kt:47 | the annotation list starts empty |
| Annotated.Impl.Annotation | src/main/kotlin/galuzzi/kodegen/java/support/Annotated.kt:49-55 | the list grows by exactly the returned annotation, which has the requested type and is now last; earlier annotations keep their positions; `hasAnnotations()` then holds |
| Annotated.Impl.GetAnnotations | src/main/kotlin/galuzzi/kodegen/java/support/Annotated.kt:57-60 | the getter returns the list that `annotation()` appends to, so its order is insertion order |
| Annotated.Impl.HasAnnotations | src/main/kotlin/galuzzi/kodegen/java/support/Annotated.kt:40-43 | holds exactly when the list is non-empty |
| Params.Param.constructor | src/main/kotlin/galuzzi/kodegen/java/Param.kt:26-30 | the record holds its arguments, with defaults `allowNull = true`, `description = ""` and `varargs = false`, and no annotations |
| Params.Param.Build | src/main/kotlin/galuzzi/kodegen/java/Param.kt:34-42 | annotations, then the type, then `...` exactly when varargs, then `" " + name` last |
| Params.Param.ToString | src/main/kotlin/galuzzi/kodegen/java/Param.kt:44-50 | the parameter name |
| Examples.InputParameter | src/main/kotlin/galuzzi/kodegen/java/Param.kt:26-42 | `String input` renders as no annotations, the type and ` input` |
| Examples.ValidateMethod | src/main/kotlin/galuzzi/kodegen/java/JavaMethod.kt:61-98 | a method with one non-null `String` parameter and no body has 14 tokens, and its block holds exactly that parameter's null check |
| Examples.NullableParameter | src/main/kotlin/galuzzi/kodegen/java/JavaMethod.kt:80-98 | with the default `allowNull` the block is empty |
| Examples.NameField | src/main/kotlin/galuzzi/kodegen/java/JavaField.kt:47-74 | `private final String name;` renders as nine tokens with scope, `{final}`, type, space, name and `;\n` |
| Examples.NameDoc | src/main/kotlin/galuzzi/kodegen/java/Javadoc.kt:130-152 | a description `the name` renders as pad, `/**`, ` * the name`, ` */` |
| Examples.FieldReferences | src/main/kotlin/galuzzi/kodegen/java/JavaField.kt:42-85 | a static field `bar` of `Foo` is referred to as `Foo.bar`, a member field as `this.bar` |

## Left out

- `addParamDoc` and `addThrowsDoc`, which `JavaMethod.build()` calls first, are defined in support files that are not part of this model. `Methods.JavaMethod.Build` models only the returned fragment, not how these calls change the Javadoc.
- The `CodeGen` engine is not modelled: closure receivers, `pad()`, `newline()`, `block {}`, `join`, indentation and the writing of text. Its calls are tokens.
- The canonical emission order of `Modifiers` is not modelled, and neither is how `Type`, `Scope`, `TypeName`, `Modifiers` and thrown types render. Their definitions are not part of this model, so they are opaque values and modifiers are a plain set.
- The `init` configuration callback of `annotation()` and the internals of `JavaAnnotation` are foreign code. `init` is treated as doing nothing.
- `JavaTypeElement.kt` is not modelled: it declares an interface with no logic.
- The `description` constructor argument of `JavaField` is stored but not used; no code in this model feeds it into the Javadoc.
- `ParamHolder`, `BodyHolder` and `Thrower` are not part of this model. Their state is held directly as the `params`, `body` and `throws` fields of `JavaMethod`, and callers set those fields.
- `Param` is a class with reference identity, so Kotlin data-class equality and hashing are not modelled.
- `Javadocs.Javadoc.Build` and `Methods.JavaMethod.Build` render from the state at one moment. In the source, `build()` reads the description and decides `haveDescription` and `haveTags` when it is called, but it sorts the tags only when the returned fragment runs. A tag added in between would show up without the ` *` separator, and after an empty `build()` it would not show up at all. The model does not capture this.
- `Javadocs.Javadoc.List`: the loop collects the entries in a local string and stores the description once. Nothing can observe the description in between, so the final description is the same.
- Kotlin `Int` ranks are small constants, so their 32-bit width plays no part and is not modelled.
- Fields that the source declares `val` and that hold immutable values are Dafny constants: `scope`, `type`, `name`, `description`, `owner`, the `Param` fields and the capability objects. The `val` references to mutable containers are `var` fields that hold the container's current value. These are the Javadoc description buffer and tag list, the modifier sets of `JavaMethod` and `JavaField`, and the annotation list of `Annotated`.
- `Annotated.Impl.GetAnnotations` returns a snapshot of the list. The source returns the live list, so a caller that keeps it would see later `annotation()` calls. The code in this model reads the list only inside deferred fragments, so nothing here depends on the difference.
