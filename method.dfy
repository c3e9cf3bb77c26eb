/** A method declaration (`JavaMethod`) and the null checks it synthesizes. */
module Methods {
  import opened CodeGen
  import Annotated
  import Javadocs
  import Params

  /** A parameter gets a null check when it rejects null and its type is not primitive. */
  predicate NeedsNullCheck(p: Params.Param) {
    !p.allowNull && !p.typ.IsPrimitive()
  }

  /** The statement text after `Objects`: `.requireNonNull(name, "name");` and a line feed. */
  function RequireNonNull(name: string): string {
    ".requireNonNull(" + name + ", \"" + name + "\");\n"
  }

  /** The null check of one parameter: a newline, `Objects`, then the call. */
  function NullCheck(p: Params.Param): Fragment {
    [Newline, TypeRef(Objects), Lit(RequireNonNull(p.name))]
  }

  /** The parameters that reject null and are not primitive, in order. */
  function Checked(params: seq<Params.Param>): (r: seq<Params.Param>)
    ensures |r| <= |params|
    ensures forall i :: 0 <= i < |r| ==> r[i] in params && NeedsNullCheck(r[i])
    ensures forall i :: 0 <= i < |params| && NeedsNullCheck(params[i]) ==> params[i] in r
  {
    if params == [] then []
    else if NeedsNullCheck(params[0]) then [params[0]] + Checked(params[1..])
    else Checked(params[1..])
  }

  /**
   * The filter keeps every occurrence of a parameter that needs a check and
   * none of any other: a parameter listed twice is checked twice.
   */
  lemma {:induction false} CheckedCounts(params: seq<Params.Param>)
    ensures forall x | x in params ::
      multiset(Checked(params))[x] == if NeedsNullCheck(x) then multiset(params)[x] else 0
  {
    if params != [] {
      var rest := params[1..];
      CheckedCounts(rest);
      var c := Checked(rest);
      assert params == [params[0]] + rest;
      assert multiset(params) == multiset{params[0]} + multiset(rest);
      assert Checked(params) == if NeedsNullCheck(params[0]) then [params[0]] + c else c;
      forall x | x in params
        ensures multiset(Checked(params))[x] == if NeedsNullCheck(x) then multiset(params)[x] else 0
      {
        if x !in rest {
          assert x !in c;
        }
      }
    }
  }

  /** The `forEach` that emits one null check per filtered parameter, in order. */
  function EmitNullChecks(checked: seq<Params.Param>): (r: Fragment)
    ensures |r| == 3 * |checked|
  {
    if checked == [] then [] else NullCheck(checked[0]) + EmitNullChecks(checked[1..])
  }

  /** The `i`-th statement checks the `i`-th filtered parameter. */
  lemma {:induction false} EmitNullChecksAt(checked: seq<Params.Param>, i: nat)
    requires i < |checked|
    ensures EmitNullChecks(checked)[3 * i..3 * i + 3] == NullCheck(checked[i])
  {
    var r := EmitNullChecks(checked);
    if i > 0 {
      EmitNullChecksAt(checked[1..], i - 1);
      var rest := EmitNullChecks(checked[1..]);
      assert r == NullCheck(checked[0]) + rest;
      assert r[3 * i..3 * i + 3] == rest[3 * (i - 1)..3 * (i - 1) + 3];
    }
  }

  /** `nullChecks(params)`: three tokens per parameter that needs a check, nothing when none does. */
  function NullChecks(params: seq<Params.Param>): (r: Fragment)
    ensures |r| == 3 * |Checked(params)|
    ensures (forall i :: 0 <= i < |params| ==> !NeedsNullCheck(params[i])) ==> r == []
  {
    var checked := Checked(params);
    assert checked != [] ==> checked[0] in params && NeedsNullCheck(checked[0]);
    EmitNullChecks(checked)
  }

  /** `a` is `b` with some elements left out, the rest in the same order. */
  predicate IsSubsequence<T(==)>(a: seq<T>, b: seq<T>) {
    if a == [] then true
    else if b == [] then false
    else if a[0] == b[0] then IsSubsequence(a[1..], b[1..])
    else IsSubsequence(a, b[1..])
  }

  function Names(params: seq<Params.Param>): (r: seq<string>)
    ensures |r| == |params| && forall i :: 0 <= i < |params| ==> r[i] == params[i].name
  {
    if params == [] then [] else [params[0].name] + Names(params[1..])
  }

  /**
   * One null check per parameter that rejects null and is not primitive,
   * none for any other parameter, each naming its parameter twice, and in
   * parameter declaration order.
   */
  lemma {:induction false} NullChecksFollowParams(params: seq<Params.Param>)
    ensures var checked, r := Checked(params), NullChecks(params);
      && |r| == 3 * |checked|
      && (forall i :: 0 <= i < |checked| ==> checked[i] in params && NeedsNullCheck(checked[i]))
      && (forall i :: 0 <= i < |params| && NeedsNullCheck(params[i]) ==> params[i] in checked)
      && (forall x | x in params :: multiset(checked)[x] == if NeedsNullCheck(x) then multiset(params)[x] else 0)
      && (forall i :: 0 <= i < |checked| ==> r[3 * i..3 * i + 3] == NullCheck(checked[i]))
      && IsSubsequence(checked, params)
      && IsSubsequence(Names(checked), Names(params))
  {
    CheckedIsSubsequence(params);
    CheckedCounts(params);
    forall i | 0 <= i < |Checked(params)|
      ensures NullChecks(params)[3 * i..3 * i + 3] == NullCheck(Checked(params)[i])
    {
      EmitNullChecksAt(Checked(params), i);
    }
  }

  /**
   * A lone parameter gets its null check exactly when it rejects null and
   * is not primitive.
   */
  lemma NullChecksOfOne(p: Params.Param)
    ensures NullChecks([p]) == if NeedsNullCheck(p) then NullCheck(p) else []
  {
    assert [p][1..] == [];
  }

  /** A parameter that needs a check and is listed twice gets two null checks. */
  lemma RepeatedParamCheckedTwice(p: Params.Param)
    requires NeedsNullCheck(p)
    ensures NullChecks([p, p]) == NullCheck(p) + NullCheck(p)
  {
    assert [p, p][1..] == [p];
    assert [p][1..] == [];
    assert Checked([p, p]) == [p, p];
    assert EmitNullChecks([p]) == NullCheck(p) + [];
    assert EmitNullChecks([p, p]) == NullCheck(p) + EmitNullChecks([p]);
  }

  lemma {:induction false} CheckedIsSubsequence(params: seq<Params.Param>)
    ensures IsSubsequence(Checked(params), params)
    ensures IsSubsequence(Names(Checked(params)), Names(params))
  {
    if params != [] {
      CheckedIsSubsequence(params[1..]);
      var c, n := Checked(params), Names(params);
      assert Names(params)[1..] == Names(params[1..]);
      if NeedsNullCheck(params[0]) {
        assert c[1..] == Checked(params[1..]);
        assert Names(c)[1..] == Names(c[1..]);
      } else {
        SubsequenceOfTail(c, params);
        SubsequenceOfTail(Names(c), n);
      }
    }
  }

  lemma {:induction false} SubsequenceOfTail<T>(a: seq<T>, b: seq<T>)
    requires b != [] && IsSubsequence(a, b[1..])
    ensures IsSubsequence(a, b)
  {
    if a != [] && a[0] == b[0] {
      SubsequenceDropHead(a, b[1..]);
    }
  }

  lemma {:induction false} SubsequenceDropHead<T>(a: seq<T>, b: seq<T>)
    requires a != [] && IsSubsequence(a, b)
    ensures IsSubsequence(a[1..], b)
  {
    if a[0] == b[0] {
      if a[1..] != [] {
        SubsequenceDropHead(a[1..], b[1..]);
        SubsequenceOfTail(a[1..], b);
      }
    } else {
      SubsequenceDropHead(a, b[1..]);
      if a[1..] != [] {
        SubsequenceOfTail(a[1..], b);
      }
    }
  }

  /** The annotation lists of the parameters. */
  function ParamsFootprint(params: seq<Params.Param>): set<object> {
    set p | p in params :: p.annotated
  }

  /** The rendered parameters, one fragment per parameter, in order. */
  function ParamFragments(params: seq<Params.Param>): (r: seq<Fragment>)
    reads ParamsFootprint(params)
    ensures |r| == |params| && forall i :: 0 <= i < |params| ==> r[i] == params[i].Build()
  {
    if params == [] then [] else [params[0].Build()] + ParamFragments(params[1..])
  }

  /**
   * The signature of a method declaration: scope, modifiers, return type, a
   * space, the name, and the parameters joined by commas in parentheses,
   * then the thrown types.
   */
  function RenderSignature(scope: Scope, modifiers: set<Modifier>, returnType: Type, name: string,
                           params: seq<Fragment>, throws: seq<Type>): (r: Fragment)
    ensures |r| == 9
    ensures r[0] == ScopeRef(scope) && r[1] == ModifiersRef(modifiers) && r[2] == TypeRef(returnType)
    ensures r[3] == Lit(" ") && r[4] == Lit(name)
    ensures r[5] == Lit("(") && r[6] == Joined(params, ", ") && r[7] == Lit(")")
    ensures r[8] == ThrowsRef(throws)
  {
    [ ScopeRef(scope), ModifiersRef(modifiers), TypeRef(returnType), Lit(" "), Lit(name),
      Lit("("), Joined(params, ", "), Lit(")"), ThrowsRef(throws) ]
  }

  /**
   * A method declaration: a pad, the Javadoc, the annotations, a newline,
   * the signature, and a block holding the null checks ahead of the body.
   */
  function RenderMethod(javadoc: Fragment, annotations: seq<JavaAnnotation>, signature: Fragment,
                        checks: Fragment, body: Fragment): (r: Fragment)
    ensures |r| == |signature| + 5
    ensures r[0] == Pad && r[1] == Embed(javadoc) && r[2] == AnnotationsRef(annotations) && r[3] == Newline
    ensures r[4..|r| - 1] == signature && forall i :: 0 <= i < |signature| ==> r[4 + i] == signature[i]
    ensures r[|r| - 1] == Block(checks + body)
    ensures r[|r| - 1].Block? && |r[|r| - 1].body| == |checks| + |body|
    ensures r[|r| - 1].body[..|checks|] == checks && r[|r| - 1].body[|checks|..] == body
  {
    [Pad, Embed(javadoc), AnnotationsRef(annotations), Newline] + signature + [Block(checks + body)]
  }

  /** `JavaMethod`. */
  class JavaMethod {
    const scope: Scope
    const returnType: Type
    const name: string
    const annotated: Annotated.Impl
    const javadoc: Javadocs.Javadoc
    var modifiers: set<Modifier>
    /** The state of the parameter, body and thrown-type capabilities. */
    var params: seq<Params.Param>
    var body: Fragment
    var throws: seq<Type>

    constructor (scope: Scope, returnType: Type, name: string)
      ensures this.scope == scope && this.returnType == returnType && this.name == name
      ensures fresh(annotated) && annotated.annotations == []
      ensures fresh(javadoc) && javadoc.description == "" && javadoc.tags == []
      ensures modifiers == {} && params == [] && body == [] && throws == []
    {
      this.scope := scope;
      this.returnType := returnType;
      this.name := name;
      annotated := new Annotated.Impl();
      javadoc := new Javadocs.Javadoc();
      modifiers := {};
      params := [];
      body := [];
      throws := [];
    }

    method Static()
      modifies this
      ensures modifiers == old(modifiers) + {Modifier.Static}
      ensures params == old(params) && body == old(body) && throws == old(throws)
    {
      modifiers := modifiers + {Modifier.Static};
    }

    method Final()
      modifies this
      ensures modifiers == old(modifiers) + {Modifier.Final}
      ensures params == old(params) && body == old(body) && throws == old(throws)
    {
      modifiers := modifiers + {Modifier.Final};
    }

    method Abstract()
      modifies this
      ensures modifiers == old(modifiers) + {Modifier.Abstract}
      ensures params == old(params) && body == old(body) && throws == old(throws)
    {
      modifiers := modifiers + {Modifier.Abstract};
    }

    method Synchronized()
      modifies this
      ensures modifiers == old(modifiers) + {Modifier.Synchronized}
      ensures params == old(params) && body == old(body) && throws == old(throws)
    {
      modifiers := modifiers + {Modifier.Synchronized};
    }

    /**
     * The fragment `build()` returns, from the state as it stands when the
     * fragment is built.
     */
    function Build(): (r: Fragment)
      reads this, javadoc, annotated, ParamsFootprint(params)
      ensures |r| == 14
      ensures r[0] == Pad && r[1] == Embed(javadoc.Build()) && r[2] == AnnotationsRef(annotated.annotations)
      ensures r[3] == Newline && r[4] == ScopeRef(scope) && r[5] == ModifiersRef(modifiers)
      ensures r[6] == TypeRef(returnType) && r[7] == Lit(" ") && r[8] == Lit(name) && r[9] == Lit("(")
      ensures r[10] == Joined(ParamFragments(params), ", ") && r[11] == Lit(")") && r[12] == ThrowsRef(throws)
      ensures r[13] == Block(NullChecks(params) + body)
    {
      var signature := RenderSignature(scope, modifiers, returnType, name, ParamFragments(params), throws);
      var checks := NullChecks(params);
      RenderMethod(javadoc.Build(), annotated.annotations, signature, checks, body)
    }
  }
}
