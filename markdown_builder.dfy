/** `src/utils/markdownBuilder.ts`: a chainable builder that collects
    Markdown sections and joins them with line breaks. Every appending
    method returns the builder itself. */
module MarkdownBuilder {
  import opened Js

  /** `Math.max(1, Math.min(6, level))`. */
  function ClampLevel(level: int): (r: int)
    ensures 1 <= r <= 6
    ensures 1 <= level <= 6 ==> r == level
    ensures level < 1 ==> r == 1
    ensures level > 6 ==> r == 6
  {
    if level < 1 then 1 else if level > 6 then 6 else level
  }

  /** `'#'.repeat(n)`. */
  function Hashes(n: nat): (r: string)
    ensures |r| == n && forall i :: 0 <= i < n ==> r[i] == '#'
  {
    seq(n, i => '#')
  }

  /** `emoji ? emoji + ' ' : ''`. */
  function EmojiPrefix(emoji: Option<string>): (r: string)
    ensures emoji.Some? && emoji.value != "" ==> r == emoji.value + " "
    ensures emoji.None? || emoji.value == "" ==> r == ""
  {
    if emoji.Some? && emoji.value != "" then emoji.value + " " else ""
  }

  /** The section `title` pushes. */
  function TitleLine(text: string, level: int, emoji: Option<string>): string
  {
    Hashes(ClampLevel(level)) + " " + EmojiPrefix(emoji) + text + "\n"
  }

  /** The section `heading` pushes. */
  function HeadingLine(text: string, emoji: Option<string>): string
  {
    "## " + EmojiPrefix(emoji) + text + "\n"
  }

  /** A title line opens with as many `#` as the clamped level, then a
      space, then the emoji prefix and the text, and ends with a line
      break. */
  lemma TitleLineShape(text: string, level: int, emoji: Option<string>)
    ensures var line := TitleLine(text, level, emoji);
      var n := ClampLevel(level);
      |line| == n + 1 + |EmojiPrefix(emoji)| + |text| + 1 &&
      (forall i :: 0 <= i < n ==> line[i] == '#') && line[n] == ' ' &&
      line[n + 1..|line| - 1] == EmojiPrefix(emoji) + text && line[|line| - 1] == '\n'
  {
    var n := ClampLevel(level);
    var line := TitleLine(text, level, emoji);
    assert line == Hashes(n) + (" " + (EmojiPrefix(emoji) + text) + "\n");
    assert line[n + 1..|line| - 1] == EmojiPrefix(emoji) + text;
  }

  /** A heading is a level-2 title. */
  lemma HeadingIsLevelTwo(text: string, emoji: Option<string>)
    ensures HeadingLine(text, emoji) == TitleLine(text, 2, emoji)
  {
    assert Hashes(2) == "##";
  }

  /** The opening fence of a code block: `language || ''` after three
      backticks. */
  function Fence(language: Option<string>): string
  {
    "```" + OrEmpty(language)
  }

  /** `list`: one `- item` section per item. */
  function ListLines(items: seq<string>): (r: seq<string>)
    ensures |r| == |items| && forall i :: 0 <= i < |items| ==> r[i] == "- " + items[i]
  {
    seq(|items|, i requires 0 <= i < |items| => "- " + items[i])
  }

  /** `MarkdownBuilder.inlineCode`. */
  function InlineCode(code: string): (r: string)
    ensures |r| == |code| + 2 && r[0] == '`' && r[|r| - 1] == '`' && r[1..|r| - 1] == code
  {
    "`" + code + "`"
  }

  /** `MarkdownBuilder.bold`. */
  function Bold(text: string): (r: string)
    ensures |r| == |text| + 4 && r[..2] == "**" && r[|r| - 2..] == "**" && r[2..|r| - 2] == text
  {
    "**" + text + "**"
  }

  /** `MarkdownBuilder.italic`. */
  function Italic(text: string): (r: string)
    ensures |r| == |text| + 2 && r[0] == '_' && r[|r| - 1] == '_' && r[1..|r| - 1] == text
  {
    "_" + text + "_"
  }

  /** The sections joined with line breaks. */
  function Rendered(sections: seq<string>): string
  {
    Join(sections, "\n")
  }

  /** Appending a section appends a line: nothing to join with when the
      builder was empty, a line break before it otherwise. */
  lemma RenderedAppend(sections: seq<string>, s: string)
    ensures Rendered(sections + [s]) == if |sections| == 0 then s else Rendered(sections) + "\n" + s
  {
    JoinAppend(sections, s, "\n");
  }

  /** An empty builder renders as the empty string. */
  lemma RenderedEmpty()
    ensures Rendered([]) == ""
  {
  }

  /** A code block renders as fence, content and closing fence on their
      own lines. */
  lemma RenderedCodeBlock(sections: seq<string>, content: string, language: Option<string>)
    requires |sections| > 0
    ensures Rendered(sections + [Fence(language), content, "```"])
      == Rendered(sections) + "\n" + Fence(language) + "\n" + content + "\n" + "```"
  {
    var f := Fence(language);
    RenderedAppend(sections, f);
    RenderedAppend(sections + [f], content);
    RenderedAppend(sections + [f] + [content], "```");
    assert sections + [f] + [content] + ["```"] == sections + [f, content, "```"];
  }

  class Builder {
    var sections: seq<string>

    constructor ()
      ensures sections == []
    {
      sections := [];
    }

    /** `title`. */
    method Title(text: string, level: int, emoji: Option<string>) returns (self: Builder)
      modifies this
      ensures sections == old(sections) + [TitleLine(text, level, emoji)]
      ensures self == this
    {
      var prefix := Hashes(ClampLevel(level));
      sections := sections + [prefix + " " + EmojiPrefix(emoji) + text + "\n"];
      self := this;
    }

    /** `heading`. */
    method Heading(text: string, emoji: Option<string>) returns (self: Builder)
      modifies this
      ensures sections == old(sections) + [HeadingLine(text, emoji)]
      ensures self == this
    {
      sections := sections + ["## " + EmojiPrefix(emoji) + text + "\n"];
      self := this;
    }

    /** `codeBlock`: exactly three sections. */
    method CodeBlock(content: string, language: Option<string>) returns (self: Builder)
      modifies this
      ensures sections == old(sections) + [Fence(language), content, "```"]
      ensures self == this
    {
      var lang := OrEmpty(language);
      sections := sections + ["```" + lang];
      sections := sections + [content];
      sections := sections + ["```"];
      self := this;
    }

    /** `text`. */
    method Text(content: string) returns (self: Builder)
      modifies this
      ensures sections == old(sections) + [content]
      ensures self == this
    {
      sections := sections + [content];
      self := this;
    }

    /** `list`: the items in order, one section each. */
    method List(items: seq<string>) returns (self: Builder)
      modifies this
      ensures sections == old(sections) + ListLines(items)
      ensures self == this
    {
      var i := 0;
      while i < |items|
        invariant 0 <= i <= |items|
        invariant sections == old(sections) + ListLines(items[..i])
      {
        assert ListLines(items[..i + 1]) == ListLines(items[..i]) + ["- " + items[i]];
        sections := sections + ["- " + items[i]];
        i := i + 1;
      }
      assert items[..i] == items;
      self := this;
    }

    /** `listItem`. */
    method ListItem(item: string) returns (self: Builder)
      modifies this
      ensures sections == old(sections) + ["- " + item]
      ensures self == this
    {
      sections := sections + ["- " + item];
      self := this;
    }

    /** `separator`: an empty section, which renders as a blank line. */
    method Separator() returns (self: Builder)
      modifies this
      ensures sections == old(sections) + [""]
      ensures self == this
    {
      sections := sections + [""];
      self := this;
    }

    /** `if`: the callback, given as what it does to the sections, runs
        exactly when the condition holds. */
    method If(condition: bool, callback: seq<string> -> seq<string>) returns (self: Builder)
      modifies this
      ensures sections == if condition then callback(old(sections)) else old(sections)
      ensures self == this
    {
      if condition {
        sections := callback(sections);
      }
      self := this;
    }

    /** `build`: reads the sections and changes nothing. */
    method Build() returns (r: string)
      ensures r == Rendered(sections)
    {
      r := Join(sections, "\n");
    }
  }
}
