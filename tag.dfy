// HTML tag templates (lib/tag.js): `TAG(type)` is a template-literal tag
// that interleaves the literal's strings with its arguments and wraps the
// result in an opening and a closing tag.

module Tag {
  import opened Wrappers

  /**
   * The text an argument contributes: its `toString()`, or the empty string
   * when it is null or undefined (None) or missing.
   */
  function ArgText(args: seq<Option<string>>, i: nat): string
  {
    if i < |args| && args[i].Some? then args[i].value else ""
  }

  /** `strings.reduce((str, cur, i) => str + cur + argText(i), '')`, folded from the left. */
  function Content(strings: seq<string>, args: seq<Option<string>>): string
  {
    if |strings| == 0 then ""
    else
      var n := |strings| - 1;
      Content(strings[..n], args) + strings[n] + ArgText(args, n)
  }

  /** `TAG(type)(strings, ...args)`. */
  function Tag(tagType: string, strings: seq<string>, args: seq<Option<string>>): string
  {
    "<" + tagType + ">" + Content(strings, args) + "</" + tagType + ">"
  }

  /** Piece i of the content: string i followed by argument i. */
  function Piece(strings: seq<string>, args: seq<Option<string>>, i: nat): string
    requires i < |strings|
  {
    strings[i] + ArgText(args, i)
  }

  /** An independent reading of the content: the pieces concatenated from the front. */
  function Interleave(strings: seq<string>, args: seq<Option<string>>, from: nat): string
    requires from <= |strings|
    decreases |strings| - from
  {
    if from == |strings| then "" else Piece(strings, args, from) + Interleave(strings, args, from + 1)
  }

  /** The output starts with the opening tag, ends with the closing tag, and holds the content between. */
  lemma TagWraps(tagType: string, strings: seq<string>, args: seq<Option<string>>)
    ensures var out := Tag(tagType, strings, args);
      && |out| == 2 * |tagType| + 5 + |Content(strings, args)|
      && out[..|tagType| + 2] == "<" + tagType + ">"
      && out[|out| - |tagType| - 3..] == "</" + tagType + ">"
      && out[|tagType| + 2..|out| - |tagType| - 3] == Content(strings, args)
  {
    var out := Tag(tagType, strings, args);
    var open, body, close := "<" + tagType + ">", Content(strings, args), "</" + tagType + ">";
    assert out == open + body + close;
    assert (open + body + close)[..|open|] == open;
    assert (open + body + close)[|open| + |body|..] == close;
    assert (open + body + close)[|open|..|open| + |body|] == body;
  }

  /** Appending one more string adds its piece at the end. */
  lemma {:induction false} InterleaveSnoc(strings: seq<string>, args: seq<Option<string>>, from: nat)
    requires from < |strings|
    ensures Interleave(strings, args, from) ==
      Interleave(strings[..|strings| - 1], args, from) + Piece(strings, args, |strings| - 1)
    decreases |strings| - from
  {
    var n := |strings| - 1;
    if from < n {
      InterleaveSnoc(strings, args, from + 1);
      assert Piece(strings[..n], args, from) == Piece(strings, args, from);
    }
  }

  /** The left fold of the source and the front concatenation of the pieces agree. */
  lemma {:induction false} ContentIsInterleave(strings: seq<string>, args: seq<Option<string>>)
    ensures Content(strings, args) == Interleave(strings, args, 0)
    decreases |strings|
  {
    if |strings| > 0 {
      var n := |strings| - 1;
      ContentIsInterleave(strings[..n], args);
      InterleaveSnoc(strings, args, 0);
    }
  }

  /** Arguments past the last string are never read. */
  lemma {:induction false} ContentIgnoresExtraArgs(strings: seq<string>, args: seq<Option<string>>, extra: seq<Option<string>>)
    requires |args| >= |strings|
    ensures Content(strings, args + extra) == Content(strings, args)
    decreases |strings|
  {
    if |strings| > 0 {
      var n := |strings| - 1;
      ContentIgnoresExtraArgs(strings[..n], args, extra);
      assert (args + extra)[n] == args[n];
    }
  }

  /** With no arguments, or only null ones, the content is the strings joined. */
  lemma {:induction false} ContentWithoutArgs(strings: seq<string>, args: seq<Option<string>>)
    requires forall i :: 0 <= i < |args| ==> args[i].None?
    ensures Content(strings, args) == Join(strings)
    decreases |strings|
  {
    if |strings| > 0 {
      ContentWithoutArgs(strings[..|strings| - 1], args);
    }
  }

  function Join(strings: seq<string>): string
  {
    if |strings| == 0 then "" else Join(strings[..|strings| - 1]) + strings[|strings| - 1]
  }

  /** `` TAG('h2')`Hello ${name}!` `` with a name and with null. */
  lemma TagExamples()
    ensures Tag("h2", ["Hello ", "!"], [Some("World")]) == "<h2>Hello World!</h2>"
    ensures Tag("h2", ["Hello ", "!"], [None]) == "<h2>Hello !</h2>"
    ensures Tag("p", [], []) == "<p></p>"
  {
    var s := ["Hello ", "!"];
    assert s[..1] == ["Hello "];
    assert s[..1][..0] == [];
    assert Content(s, [Some("World")]) == "Hello " + "World" + "!" + "";
    assert Content(s, [None]) == "Hello " + "" + "!" + "";
  }
}
