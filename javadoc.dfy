/**
 * The Javadoc builder: a description buffer and a list of ranked tags,
 * rendered as one documentation comment.
 */
module Javadocs {
  import opened CodeGen
  import opened Strings
  import Tags
  import Params

  const ParagraphSeparator: string := "<p>\n"

  /** The line between the description and the tags. */
  const TagSeparator: Token := Lit(" *\n")

  /** One description line of the comment. */
  function DescriptionLine(line: string): Token {
    Lit(" * " + line + "\n")
  }

  /** One tag line of the comment. */
  function TagLine(t: Tags.Tag): Token {
    Lit(" * @" + t.name + " " + t.value + "\n")
  }

  /** One description line per split line, in order. */
  function DescriptionLines(lines: seq<string>): (r: Fragment)
    ensures |r| == |lines|
    ensures forall i :: 0 <= i < |lines| ==> r[i] == DescriptionLine(lines[i])
  {
    if lines == [] then [] else [DescriptionLine(lines[0])] + DescriptionLines(lines[1..])
  }

  /** One tag line per tag, in order. */
  function TagLines(tags: seq<Tags.Tag>): (r: Fragment)
    ensures |r| == |tags|
    ensures forall i :: 0 <= i < |tags| ==> r[i] == TagLine(tags[i])
  {
    if tags == [] then [] else [TagLine(tags[0])] + TagLines(tags[1..])
  }

  /**
   * `Javadoc.build()`: nothing at all when there is no description and no
   * tag; otherwise a pad, the opening line, the description lines, the separator when
   * there are both, the tags in stable rank order and the closing line.
   */
  function Render(description: string, tags: seq<Tags.Tag>, params: seq<Params.Param>): (r: Fragment)
    ensures r == [] <==> IsBlank(description) && tags == [] && params == []
    ensures r != [] ==> |r| >= 3 && r[0] == Pad && r[1] == Lit("/**\n") && r[|r| - 1] == Lit(" */\n")
  {
    var haveTags := tags != [] || params != [];
    if IsBlank(description) && !haveTags then []
    else [Pad, Lit("/**\n")] + DescriptionPart(description, haveTags) + TagLines(Tags.Sorted(tags)) + [Lit(" */\n")]
  }

  /** The description lines, followed by the separator when tags come after them. */
  function DescriptionPart(description: string, haveTags: bool): Fragment {
    if IsBlank(description) then []
    else DescriptionLines(Split(description)) + (if haveTags then [TagSeparator] else [])
  }

  lemma NoLineIsTheSeparator(lines: seq<string>, tags: seq<Tags.Tag>)
    ensures TagSeparator !in DescriptionLines(lines)
    ensures TagSeparator !in TagLines(tags)
  {
    var d, t := DescriptionLines(lines), TagLines(tags);
    forall i | 0 <= i < |d| ensures d[i] != TagSeparator {
      assert |d[i].text| >= 4;
    }
    forall i | 0 <= i < |t| ensures t[i] != TagSeparator {
      assert |t[i].text| >= 5;
    }
  }

  /** The separator line appears exactly when there are both a description and tags. */
  lemma RenderSeparator(description: string, tags: seq<Tags.Tag>, params: seq<Params.Param>)
    requires Render(description, tags, params) != []
    ensures TagSeparator in Render(description, tags, params)
        <==> !IsBlank(description) && (tags != [] || params != [])
  {
    var r := Render(description, tags, params);
    NoLineIsTheSeparator(Split(description), Tags.Sorted(tags));
    var haveTags := tags != [] || params != [];
    var d, t := DescriptionPart(description, haveTags), TagLines(Tags.Sorted(tags));
    assert r == [Pad, Lit("/**\n")] + d + t + [Lit(" */\n")];
    assert Lit("/**\n") != TagSeparator && Lit(" */\n") != TagSeparator;
    assert TagSeparator in r <==> TagSeparator in d;
    if !IsBlank(description) && haveTags {
      assert d == DescriptionLines(Split(description)) + [TagSeparator];
      assert TagSeparator in d;
    } else {
      assert TagSeparator !in d;
    }
  }

  /**
   * A non-blank description is emitted line by line right after the opening line,
   * each `'\n'`-separated line as ` * line`, and nothing of it is lost.
   */
  lemma RenderDescription(description: string, tags: seq<Tags.Tag>, params: seq<Params.Param>)
    requires !IsBlank(description)
    ensures var r, lines := Render(description, tags, params), Split(description);
      && |r| >= 2 + |lines|
      && (forall i :: 0 <= i < |lines| ==> r[2 + i] == Lit(" * " + lines[i] + "\n"))
      && JoinLines(lines) == description
  {
    JoinSplit(description);
  }

  /** The tags are the last lines before the closing line, in stable rank order. */
  lemma RenderTags(description: string, tags: seq<Tags.Tag>, params: seq<Params.Param>)
    requires Render(description, tags, params) != []
    ensures var r, sorted := Render(description, tags, params), Tags.Sorted(tags);
      && |r| >= |tags| + 3
      && (forall i :: 0 <= i < |tags| ==> r[|r| - 1 - |tags| + i] == TagLine(sorted[i]))
      && Tags.SortedByOrder(sorted)
      && forall k :: Tags.WithOrder(sorted, k) == Tags.WithOrder(tags, k)
  {
    RenderTagLines(description, tags, params);
    var r := Render(description, tags, params);
    forall i | 0 <= i < |tags| ensures r[|r| - 1 - |tags| + i] == TagLine(Tags.Sorted(tags)[i]) {
      assert r[|r| - 1 - |tags| + i] == r[|r| - 1 - |tags|..|r| - 1][i];
    }
    forall k ensures Tags.WithOrder(Tags.Sorted(tags), k) == Tags.WithOrder(tags, k) {
      Tags.SortedStable(tags, k);
    }
  }

  /** Where `RenderTags` finds the tag lines. */
  lemma RenderTagLines(description: string, tags: seq<Tags.Tag>, params: seq<Params.Param>)
    requires Render(description, tags, params) != []
    ensures var r := Render(description, tags, params);
      && |r| >= |tags| + 3
      && r[|r| - 1 - |tags|..|r| - 1] == TagLines(Tags.Sorted(tags))
  {
    var r, lines := Render(description, tags, params), TagLines(Tags.Sorted(tags));
    var front := [Pad, Lit("/**\n")] + DescriptionPart(description, tags != [] || params != []);
    assert r == front + lines + [Lit(" */\n")];
    assert r[|front|..|front| + |lines|] == lines;
  }

  /** A one-line description with no tag is a three-line comment. */
  lemma RenderOneLine(description: string)
    requires !IsBlank(description) && '\n' !in description
    ensures Render(description, [], []) == [Pad, Lit("/**\n"), DescriptionLine(description), Lit(" */\n")]
  {
    SplitWithoutNewline(description);
    assert TagLines(Tags.Sorted([])) == [];
  }

  /** What `Javadoc.pad()` leaves in the description. */
  function PadText(d: string): (r: string)
    ensures IsBlank(d) ==> r == d
    ensures !IsBlank(d) ==> EndsWith(r, ParagraphSeparator)
    ensures |d| <= |r| <= |d| + 5 && r[..|d|] == d
  {
    if IsBlank(d) then d
    else
      var d1 := if EndsWith(d, "\n") then d else d + "\n";
      if EndsWith(d1, ParagraphSeparator) then d1 else d1 + ParagraphSeparator
  }

  /** A second `pad()` never changes the description. */
  lemma PadIdempotent(d: string)
    ensures PadText(PadText(d)) == PadText(d)
  {
    var p := PadText(d);
    if !IsBlank(d) {
      assert !IsBlank(p) by {
        var i :| 0 <= i < |d| && !IsWhitespace(d[i]);
        assert p[i] == p[..|d|][i];
      }
      assert EndsWith(p, "\n") by {
        assert p[|p| - 1] == p[|p| - |ParagraphSeparator|..][3];
      }
    }
  }

  /** One entry of `list`. */
  function ListItem(item: string): string {
    "  <li>" + item + "</li>\n"
  }

  /** The entries of `list` for the first `n` items, in iteration order. */
  function ListItemsUpTo(items: seq<string>, n: nat): string
    requires n <= |items|
  {
    if n == 0 then "" else ListItemsUpTo(items, n - 1) + ListItem(items[n - 1])
  }

  /** The entries of `list` for all the items. */
  function ListItems(items: seq<string>): string {
    ListItemsUpTo(items, |items|)
  }

  lemma {:induction false} ListItemsUpToConcat(a: seq<string>, b: seq<string>, k: nat)
    requires k <= |b|
    ensures ListItemsUpTo(a + b, |a| + k) == ListItems(a) + ListItemsUpTo(b, k)
  {
    if k == 0 {
      ListItemsUpToPrefix(a, b, |a|);
      assert ListItems(a) + ListItemsUpTo(b, 0) == ListItems(a) + "";
      assert ListItems(a) + "" == ListItems(a);
    } else {
      ListItemsUpToConcat(a, b, k - 1);
      assert (a + b)[|a| + k - 1] == b[k - 1];
      assert ListItemsUpTo(a + b, |a| + k) == ListItemsUpTo(a + b, |a| + k - 1) + ListItem(b[k - 1]);
      assert ListItemsUpTo(b, k) == ListItemsUpTo(b, k - 1) + ListItem(b[k - 1]);
    }
  }

  lemma {:induction false} ListItemsUpToPrefix(a: seq<string>, b: seq<string>, n: nat)
    requires n <= |a|
    ensures ListItemsUpTo(a + b, n) == ListItemsUpTo(a, n)
  {
    if n > 0 {
      ListItemsUpToPrefix(a, b, n - 1);
      assert (a + b)[n - 1] == a[n - 1];
      assert ListItemsUpTo(a + b, n) == ListItemsUpTo(a + b, n - 1) + ListItem((a + b)[n - 1]);
    }
  }

  /** Each item contributes its own entry, in iteration order. */
  lemma ListItemsConcat(a: seq<string>, b: seq<string>)
    ensures ListItems(a + b) == ListItems(a) + ListItems(b)
    ensures |a| == 1 ==> ListItems(a) == ListItem(a[0])
  {
    ListItemsUpToConcat(a, b, |b|);
    if |a| == 1 {
      assert ListItems(a) == ListItemsUpTo(a, 0) + ListItem(a[0]);
    }
  }

  /** The HTML list element `list` uses. */
  function ListTag(ordered: bool): string {
    if ordered then "ol" else "ul"
  }

  function OpenTag(tag: string): string {
    "<" + tag + ">\n"
  }

  function CloseTag(tag: string): string {
    "</" + tag + ">\n"
  }

  /** The whole markup that `list` appends. */
  function ListMarkup(items: seq<string>, ordered: bool): string {
    OpenTag(ListTag(ordered)) + ListItems(items) + CloseTag(ListTag(ordered))
  }

  /** `Javadoc`: the description buffer and the tag list. */
  class Javadoc {
    var description: string
    var tags: seq<Tags.Tag>
    /** Private and never assigned, so always empty. */
    const params: seq<Params.Param> := []

    constructor ()
      ensures description == "" && tags == []
    {
      description := "";
      tags := [];
    }

    /** `String.unaryPlus`: appends text to the description. */
    method Append(text: string)
      modifies this
      ensures description == old(description) + text
      ensures tags == old(tags)
    {
      description := description + text;
    }

    /**
     * Ends a non-blank description with a paragraph separator on a line of
     * its own; leaves a blank one alone.
     */
    method Pad()
      modifies this
      ensures description == PadText(old(description))
      ensures tags == old(tags)
    {
      if IsBlank(description) {
        return;
      }
      if !EndsWith(description, "\n") {
        Append("\n");
      }
      if !EndsWith(description, ParagraphSeparator) {
        Append(ParagraphSeparator);
      }
    }

    method Pre(text: string)
      modifies this
      ensures description == old(description) + "<pre>\n" + text + "\n</pre>\n"
      ensures tags == old(tags)
    {
      Append("<pre>\n" + text + "\n</pre>\n");
    }

    method Code(text: string)
      modifies this
      ensures description == old(description) + "<code>" + text + "</code>"
      ensures tags == old(tags)
    {
      Append("<code>" + text + "</code>");
    }

    /** Both `list` overloads: an iterable and a vararg array of items. */
    method List(items: seq<string>, ordered: bool := false)
      modifies this
      ensures description == old(description) + ListMarkup(items, ordered)
      ensures tags == old(tags)
    {
      var tag := ListTag(ordered);
      var open, close := OpenTag(tag), CloseTag(tag);
      var text := description + open;
      var i := 0;
      while i < |items|
        invariant 0 <= i <= |items|
        invariant text == old(description) + open + ListItemsUpTo(items, i)
      {
        text := text + ListItem(items[i]);
        i := i + 1;
      }
      description := text + close;
    }

    method Link(name: TypeName)
      modifies this
      ensures description == old(description) + "{@link " + name.fqcn + "}"
      ensures tags == old(tags)
    {
      Append("{@link " + name.fqcn + "}");
    }

    method Author(value: string)
      modifies this
      ensures tags == old(tags) + [Tags.Tag("author", value, Tags.AuthorOrder)]
      ensures description == old(description)
    {
      tags := tags + [Tags.Tag("author", value, Tags.AuthorOrder)];
    }

    method Version(value: string)
      modifies this
      ensures tags == old(tags) + [Tags.Tag("version", value, Tags.VersionOrder)]
      ensures description == old(description)
    {
      tags := tags + [Tags.Tag("version", value, Tags.VersionOrder)];
    }

    method Param(name: string, description: string)
      modifies this
      ensures tags == old(tags) + [Tags.Tag("param", name + " " + description, Tags.ParamOrder)]
      ensures this.description == old(this.description)
    {
      tags := tags + [Tags.Tag("param", name + " " + description, Tags.ParamOrder)];
    }

    method Returns(description: string)
      modifies this
      ensures tags == old(tags) + [Tags.Tag("return", description, Tags.ReturnOrder)]
      ensures this.description == old(this.description)
    {
      tags := tags + [Tags.Tag("return", description, Tags.ReturnOrder)];
    }

    method Throws(typ: string, description: string)
      modifies this
      ensures tags == old(tags) + [Tags.Tag("throws", typ + " " + description, Tags.ThrowsOrder)]
      ensures this.description == old(this.description)
    {
      tags := tags + [Tags.Tag("throws", typ + " " + description, Tags.ThrowsOrder)];
    }

    method See(value: string)
      modifies this
      ensures tags == old(tags) + [Tags.Tag("see", value, Tags.SeeOrder)]
      ensures description == old(description)
    {
      tags := tags + [Tags.Tag("see", value, Tags.SeeOrder)];
    }

    method Since(value: string)
      modifies this
      ensures tags == old(tags) + [Tags.Tag("since", value, Tags.SinceOrder)]
      ensures description == old(description)
    {
      tags := tags + [Tags.Tag("since", value, Tags.SinceOrder)];
    }

    method Deprecated(description: string)
      modifies this
      ensures tags == old(tags) + [Tags.Tag("deprecated", description, Tags.DeprecatedOrder)]
      ensures this.description == old(this.description)
    {
      tags := tags + [Tags.Tag("deprecated", description, Tags.DeprecatedOrder)];
    }

    /** A custom tag `@name value`, ranked after every standard tag. */
    method Tag(name: string, value: string)
      modifies this
      ensures tags == old(tags) + [Tags.Tag(name, value, Tags.CustomOrder)]
      ensures description == old(description)
    {
      tags := tags + [Tags.Tag(name, value, Tags.CustomOrder)];
    }

    /** Blank description and no tags: exactly the case in which `Build` emits nothing. */
    function IsEmpty(): (r: bool)
      reads this
      ensures r <==> IsBlank(description) && tags == []
      ensures r <==> Build() == []
    {
      IsBlank(description) && tags == []
    }

    /**
     * The comment: nothing exactly when the description is blank and there
     * are no tags; otherwise framed by a pad, the opening and the closing
     * line, with the separator exactly when a description and tags are both
     * present, and the tags last in stable rank order.
     */
    function Build(): (r: Fragment)
      reads this
      ensures r == [] <==> IsBlank(description) && tags == []
      ensures r != [] ==> |r| >= 3 && r[0] == Token.Pad && r[1] == Lit("/**\n") && r[|r| - 1] == Lit(" */\n")
      ensures r != [] ==> (TagSeparator in r <==> !IsBlank(description) && tags != [])
      ensures r != [] ==> |r| >= |tags| + 3 && r[|r| - 1 - |tags|..|r| - 1] == TagLines(Tags.Sorted(tags))
    {
      var r := Render(description, tags, params);
      if r == [] then r
      else
        RenderSeparator(description, tags, params);
        RenderTagLines(description, tags, params);
        r
    }
  }
}
