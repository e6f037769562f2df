/** The Notion-to-Markdown serialiser and page-property extractor of the blog backend.

    Notion's JSON objects are modelled as datatypes. A field of type `Option`
    stands for a key that may be missing, and the Python parser reads it with
    `.get(key, default)`. */
module NotionParser {
  import opened Wrappers
  import opened Text

  // ---------------------------------------------------------------------------
  // Rich text
  // ---------------------------------------------------------------------------

  /** The `annotations` object of a rich-text run; a missing flag is false. */
  datatype Annotations = Annotations(bold: bool, italic: bool, code: bool, strikethrough: bool)

  const NoAnnotations := Annotations(false, false, false, false)

  /** A rich-text run. `content` is `text.content`; `None` when `text` or
      `content` is missing. `href` is the run's link, if any. */
  datatype RichText = RichText(content: Option<string>, annotations: Annotations, href: Option<string>)

  /** `text_obj.get("text", {}).get("content", "")`. */
  function ContentOf(t: RichText): string {
    t.content.GetOr("")
  }

  /** `text_obj.get("href")` is truthy: present and not the empty string. */
  predicate HasLink(t: RichText) {
    t.href.Some? && t.href.value != ""
  }

  /** `mark + c + mark` when `on`, else `c` unchanged. */
  function Wrap(c: string, mark: string, on: bool): string {
    if on then mark + c + mark else c
  }

  /** One run in Markdown: bold innermost, then italic, code and strikethrough,
      with the link wrapped outermost. */
  function Decorated(t: RichText): string {
    var marked := Marked(t);
    if HasLink(t) then "[" + marked + "](" + t.href.value + ")" else marked
  }

  /** The content with its annotation marks, bold innermost and strikethrough outermost. */
  function Marked(t: RichText): string {
    var a := t.annotations;
    Wrap(Wrap(Wrap(Wrap(ContentOf(t), "**", a.bold), "*", a.italic), "`", a.code), "~~", a.strikethrough)
  }

  /** `mark` when `on`, else nothing. */
  function Mark(mark: string, on: bool): string {
    if on then mark else ""
  }

  /** The annotation marks before the content, strikethrough outermost. */
  function OpenMarks(a: Annotations): string {
    Mark("~~", a.strikethrough) + (Mark("`", a.code) + (Mark("*", a.italic) + Mark("**", a.bold)))
  }

  /** The annotation marks after the content, bold innermost. */
  function CloseMarks(a: Annotations): string {
    ((Mark("**", a.bold) + Mark("*", a.italic)) + Mark("`", a.code)) + Mark("~~", a.strikethrough)
  }

  /** The `](href)` that closes a link, or nothing for a run without one. */
  function LinkTail(t: RichText): string {
    if HasLink(t) then "](" + t.href.value + ")" else ""
  }

  /** What `Decorated` writes before the content, outermost mark first. */
  function Opening(t: RichText): string {
    Mark("[", HasLink(t)) + OpenMarks(t.annotations)
  }

  /** What `Decorated` writes after the content, innermost mark first. */
  function Closing(t: RichText): string {
    CloseMarks(t.annotations) + LinkTail(t)
  }

  /** Wrapping with `mark` puts the mark (or nothing, when off) on both sides. */
  lemma WrapAround(before: string, x: string, after: string, mark: string, on: bool)
    ensures Wrap(before + x + after, mark, on) == (Mark(mark, on) + before) + x + (after + Mark(mark, on))
  {
  }

  /** The annotation marks nest around the content, bold innermost. */
  lemma MarkedShape(t: RichText)
    ensures Marked(t) == OpenMarks(t.annotations) + ContentOf(t) + CloseMarks(t.annotations)
  {
    var a := t.annotations;
    var b, i, c := Mark("**", a.bold), Mark("*", a.italic), Mark("`", a.code);
    var x := ContentOf(t);
    WrapAround("", x, "", "**", a.bold);
    assert "" + x + "" == x;
    assert ("" + b) + x + ("" + b) == b + x + b;
    WrapAround(b, x, b, "*", a.italic);
    WrapAround(i + b, x, b + i, "`", a.code);
    WrapAround(c + (i + b), x, (b + i) + c, "~~", a.strikethrough);
  }

  /** Concatenation regrouped. */
  lemma Regroup(h: string, o: string, x: string, c: string, t: string)
    ensures h + (o + x + c) + t == (h + o) + x + (c + t)
  {
  }

  /** The link brackets go around the whole marked content. */
  lemma LinkAround(m: string, href: string, o: string, x: string, c: string)
    requires m == o + x + c
    ensures "[" + m + "](" + href + ")" == ("[" + o) + x + (c + ("](" + href + ")"))
  {
    assert "[" + m + "](" + href + ")" == "[" + m + ("](" + href + ")");
    Regroup("[", o, x, c, "](" + href + ")");
  }

  /** The decorations nest: the content sits between the opening marks, in the
      order link, strikethrough, code, italic, bold, and the closing marks in the
      reverse order. */
  lemma DecoratedShape(t: RichText)
    ensures Decorated(t) == Opening(t) + ContentOf(t) + Closing(t)
  {
    var o, x, c := OpenMarks(t.annotations), ContentOf(t), CloseMarks(t.annotations);
    MarkedShape(t);
    if HasLink(t) {
      LinkAround(Marked(t), t.href.value, o, x, c);
    } else {
      assert Opening(t) == o && Closing(t) == c;
    }
  }

  /** A run without annotations and without a link passes through unchanged. */
  lemma PlainRunUnchanged(t: RichText)
    requires t.annotations == NoAnnotations && !HasLink(t)
    ensures Decorated(t) == ContentOf(t)
  {
  }

  /** The decorated runs, in order. */
  function DecoratedRuns(runs: seq<RichText>): (parts: seq<string>)
    ensures |parts| == |runs|
    decreases |runs|
  {
    if |runs| == 0 then [] else DecoratedRuns(runs[..|runs| - 1]) + [Decorated(runs[|runs| - 1])]
  }

  /** What `extract_rich_text` returns: the decorated runs concatenated. */
  function RichTextMarkdown(runs: seq<RichText>): string {
    Join(DecoratedRuns(runs), "")
  }

  /** Decorating distributes over concatenation of run lists. */
  lemma {:induction false} DecoratedRunsConcat(a: seq<RichText>, b: seq<RichText>)
    ensures DecoratedRuns(a + b) == DecoratedRuns(a) + DecoratedRuns(b)
    decreases |b|
  {
    if |b| == 0 {
      assert a + b == a;
    } else {
      var b' := b[..|b| - 1];
      assert (a + b)[..|a + b| - 1] == a + b';
      DecoratedRunsConcat(a, b');
    }
  }

  /** The Markdown of a run list is the in-order concatenation of the Markdown of its parts. */
  lemma RichTextConcat(a: seq<RichText>, b: seq<RichText>)
    ensures RichTextMarkdown(a + b) == RichTextMarkdown(a) + RichTextMarkdown(b)
  {
    DecoratedRunsConcat(a, b);
    JoinEmptySeparator(DecoratedRuns(a), DecoratedRuns(b));
  }

  /** No runs give the empty string; one run gives its decorated text. */
  lemma RichTextEmptyAndSingle(t: RichText)
    ensures RichTextMarkdown([]) == ""
    ensures RichTextMarkdown([t]) == Decorated(t)
  {
    assert [t][..0] == [];
  }

  /** `extract_rich_text`: decorate each run in turn and join the parts with "". */
  method ExtractRichText(runs: seq<RichText>) returns (text: string)
    ensures text == RichTextMarkdown(runs)
  {
    var parts: seq<string> := [];
    for i := 0 to |runs|
      invariant parts == DecoratedRuns(runs[..i])
    {
      var run := runs[i];
      var content := if run.content.Some? then run.content.value else "";
      if run.annotations.bold {
        content := "**" + content + "**";
      }
      if run.annotations.italic {
        content := "*" + content + "*";
      }
      if run.annotations.code {
        content := "`" + content + "`";
      }
      if run.annotations.strikethrough {
        content := "~~" + content + "~~";
      }
      if run.href.Some? && run.href.value != "" {
        content := "[" + content + "](" + run.href.value + ")";
      }
      assert runs[..i + 1][..i] == runs[..i];
      parts := parts + [content];
    }
    assert runs[..|runs|] == runs;
    text := Join(parts, "");
  }

  // ---------------------------------------------------------------------------
  // Blocks
  // ---------------------------------------------------------------------------

  /** The level of a `heading_1`, `heading_2` or `heading_3` block. */
  type HeadingLevel = l: int | 1 <= l <= 3 witness 1

  /** Where an image block's picture lives, by its `type`. */
  datatype ImageSource = FileImage(fileUrl: string) | ExternalImage(externalUrl: string) | OtherImage

  /** A Notion block, by its `type`. `Other` is any type the serialiser does not know. */
  datatype Block =
    | Paragraph(richText: seq<RichText>)
    | Heading(level: HeadingLevel, richText: seq<RichText>)
    | BulletedListItem(richText: seq<RichText>)
    | NumberedListItem(richText: seq<RichText>)
    | Code(richText: seq<RichText>, language: Option<string>)
    | Image(source: ImageSource, caption: seq<RichText>)
    | Quote(richText: seq<RichText>)
    | Other

  /** The heading prefix `parse_blocks_to_markdown` writes for each level. */
  function HeadingPrefix(level: HeadingLevel): string {
    if level == 1 then "# " else if level == 2 then "## " else "### "
  }

  /** An image's URL: the file's or the external one, "" for any other type. */
  function ImageUrl(src: ImageSource): string {
    match src
    case FileImage(u) => u
    case ExternalImage(u) => u
    case OtherImage => ""
  }

  /** The Markdown line a block contributes, or `None` when it contributes nothing. */
  function BlockLine(b: Block): Option<string> {
    match b
    case Paragraph(rt) =>
      var text := RichTextMarkdown(rt);
      if IsBlank(text) then None else Some(text)
    case Heading(level, rt) => Some(HeadingPrefix(level) + RichTextMarkdown(rt))
    case BulletedListItem(rt) => Some("- " + RichTextMarkdown(rt))
    case NumberedListItem(rt) => Some("1. " + RichTextMarkdown(rt))
    case Code(rt, language) => Some("```" + language.GetOr("") + "\n" + RichTextMarkdown(rt) + "\n```")
    case Image(src, caption) => Some("![" + RichTextMarkdown(caption) + "](" + ImageUrl(src) + ")")
    case Quote(rt) => Some("> " + RichTextMarkdown(rt))
    case Other => None
  }

  /** The lines the blocks contribute, in block order. */
  function BlockLines(blocks: seq<Block>): (lines: seq<string>)
    ensures |lines| <= |blocks|
    decreases |blocks|
  {
    if |blocks| == 0 then []
    else
      var last := BlockLine(blocks[|blocks| - 1]);
      BlockLines(blocks[..|blocks| - 1]) + (if last.Some? then [last.value] else [])
  }

  /** What `parse_blocks_to_markdown` returns: the lines joined by a blank line. */
  function BlocksMarkdown(blocks: seq<Block>): string {
    Join(BlockLines(blocks), "\n\n")
  }

  /** A block contributes nothing exactly when it is of an unknown type or a
      paragraph whose text is blank. */
  lemma DroppedBlocks(b: Block)
    ensures BlockLine(b).None? <==> b.Other? || (b.Paragraph? && IsBlank(RichTextMarkdown(b.richText)))
  {
  }

  /** A heading line is `level` hash signs, a space and the heading text; it is
      written even when the text is empty. */
  lemma HeadingLine(level: HeadingLevel, rt: seq<RichText>)
    ensures BlockLine(Heading(level, rt)) == Some(seq(level, _ => '#') + " " + RichTextMarkdown(rt))
  {
    assert HeadingPrefix(level) == seq(level, _ => '#') + " ";
  }

  /** A code block is fenced: the code sits on its own lines between an opening
      fence carrying the language and a closing fence, and is kept verbatim. */
  lemma CodeBlockKeepsText(rt: seq<RichText>, language: Option<string>)
    ensures var line := BlockLine(Code(rt, language)).value;
      var open := 3 + |language.GetOr("")|;
      && |line| == open + |RichTextMarkdown(rt)| + 5
      && line[..3] == "```" && line[3..open] == language.GetOr("") && line[open] == '\n'
      && line[open + 1..|line| - 4] == RichTextMarkdown(rt)
      && line[|line| - 4..] == "\n```"
  {
    var lang, code := language.GetOr(""), RichTextMarkdown(rt);
    var line := "```" + lang + "\n" + code + "\n```";
    assert BlockLine(Code(rt, language)).value == line;
    var open := 3 + |lang|;
    assert line[..3] == "```";
    assert line[3..open] == lang;
    assert line[open + 1..|line| - 4] == code;
    assert line[|line| - 4..] == "\n```";
  }

  /** The block-to-line mapping distributes over concatenation of block lists. */
  lemma {:induction false} BlockLinesConcat(a: seq<Block>, b: seq<Block>)
    ensures BlockLines(a + b) == BlockLines(a) + BlockLines(b)
    decreases |b|
  {
    if |b| == 0 {
      assert a + b == a;
    } else {
      var b' := b[..|b| - 1];
      assert (a + b)[..|a + b| - 1] == a + b';
      BlockLinesConcat(a, b');
    }
  }

  /** The lines of one block. */
  lemma BlockLinesSingle(b: Block)
    ensures BlockLines([b]) == if BlockLine(b).Some? then [BlockLine(b).value] else []
  {
    assert [b][..0] == [];
  }

  /** No blocks give the empty document; one block gives its line, or "" when dropped. */
  lemma BlocksMarkdownEmptyAndSingle(b: Block)
    ensures BlocksMarkdown([]) == ""
    ensures BlocksMarkdown([b]) == BlockLine(b).GetOr("")
  {
    BlockLinesSingle(b);
  }

  /** Two documents with content are joined by exactly one blank line, in block order. */
  lemma BlocksMarkdownConcat(a: seq<Block>, b: seq<Block>)
    requires BlockLines(a) != [] && BlockLines(b) != []
    ensures BlocksMarkdown(a + b) == BlocksMarkdown(a) + "\n\n" + BlocksMarkdown(b)
  {
    BlockLinesConcat(a, b);
    JoinConcat(BlockLines(a), BlockLines(b), "\n\n");
  }

  /** A dropped block (unknown type or blank paragraph) leaves the document as if it were absent. */
  lemma DroppedBlockIgnored(a: seq<Block>, b: Block, c: seq<Block>)
    requires BlockLine(b).None?
    ensures BlocksMarkdown(a + [b] + c) == BlocksMarkdown(a + c)
  {
    BlockLinesConcat(a + [b], c);
    BlockLinesConcat(a, [b]);
    BlockLinesSingle(b);
    BlockLinesConcat(a, c);
    assert BlockLines(a + [b]) == BlockLines(a);
  }

  /** When no block is dropped, each block gives exactly one line, in block order. */
  lemma {:induction false} LinesOfKeptBlocks(blocks: seq<Block>)
    requires forall i :: 0 <= i < |blocks| ==> BlockLine(blocks[i]).Some?
    ensures |BlockLines(blocks)| == |blocks|
    ensures forall i :: 0 <= i < |blocks| ==> BlockLines(blocks)[i] == BlockLine(blocks[i]).value
    decreases |blocks|
  {
    if |blocks| > 0 {
      var init := blocks[..|blocks| - 1];
      LinesOfKeptBlocks(init);
      assert forall i :: 0 <= i < |init| ==> blocks[i] == init[i];
    }
  }

  /** Numbered items are not renumbered: every one of them is written as "1. " and its text. */
  lemma NumberedItemsAllOne(blocks: seq<Block>)
    requires forall i :: 0 <= i < |blocks| ==> blocks[i].NumberedListItem?
    ensures |BlockLines(blocks)| == |blocks|
    ensures forall i :: 0 <= i < |blocks| ==>
              BlockLines(blocks)[i] == "1. " + RichTextMarkdown(blocks[i].richText)
  {
    LinesOfKeptBlocks(blocks);
  }

  /** An image is written as `![caption](url)`; an empty caption list gives an empty
      caption, and an image of neither type an empty url. */
  lemma ImageLine(src: ImageSource, caption: seq<RichText>)
    ensures BlockLine(Image(src, caption)) == Some("![" + RichTextMarkdown(caption) + "](" + ImageUrl(src) + ")")
    ensures BlockLine(Image(src, [])) == Some("![](" + ImageUrl(src) + ")")
    ensures BlockLine(Image(OtherImage, caption)) == Some("![" + RichTextMarkdown(caption) + "]()")
  {
    var cap, url := RichTextMarkdown(caption), ImageUrl(src);
    assert RichTextMarkdown([]) == "";
    assert "![" + "" + "](" + url + ")" == "![](" + url + ")";
    assert "![" + cap + "](" + "" + ")" == "![" + cap + "]()";
  }

  /** `parse_blocks_to_markdown`: one line per block of a known type, except blank paragraphs, joined by "\n\n". */
  method ParseBlocksToMarkdown(blocks: seq<Block>) returns (markdown: string)
    ensures markdown == BlocksMarkdown(blocks)
  {
    var lines: seq<string> := [];
    for i := 0 to |blocks|
      invariant lines == BlockLines(blocks[..i])
    {
      assert blocks[..i + 1][..i] == blocks[..i];
      assert BlockLines(blocks[..i + 1]) == lines
        + (if BlockLine(blocks[i]).Some? then [BlockLine(blocks[i]).value] else []);
      match blocks[i]
      case Paragraph(rt) =>
        var text := ExtractRichText(rt);
        if !IsBlank(text) {
          lines := lines + [text];
        }
      case Heading(level, rt) =>
        var text := ExtractRichText(rt);
        if level == 1 {
          lines := lines + ["# " + text];
        } else if level == 2 {
          lines := lines + ["## " + text];
        } else {
          lines := lines + ["### " + text];
        }
      case BulletedListItem(rt) =>
        var text := ExtractRichText(rt);
        lines := lines + ["- " + text];
      case NumberedListItem(rt) =>
        var text := ExtractRichText(rt);
        lines := lines + ["1. " + text];
      case Code(rt, language) =>
        var codeText := ExtractRichText(rt);
        var lang := if language.Some? then language.value else "";
        lines := lines + ["```" + lang + "\n" + codeText + "\n```"];
      case Image(src, caption) =>
        var imageUrl := "";
        match src {
          case FileImage(u) => imageUrl := u;
          case ExternalImage(u) => imageUrl := u;
          case OtherImage =>
        }
        var captionText := "";
        if caption != [] {
          captionText := ExtractRichText(caption);
        }
        lines := lines + ["![" + captionText + "](" + imageUrl + ")"];
      case Quote(rt) =>
        var text := ExtractRichText(rt);
        lines := lines + ["> " + text];
      case Other =>
    }
    assert blocks[..|blocks|] == blocks;
    markdown := Join(lines, "\n\n");
  }

  // ---------------------------------------------------------------------------
  // Page properties
  // ---------------------------------------------------------------------------

  /** A `date` value; `start` is `None` when the key is missing. */
  datatype DateValue = DateValue(start: Option<string>)

  /** One entry of a `files` property. `kind` is its `type`; `fileUrl` and
      `externalUrl` are `file.url` and `external.url`, `None` when missing. */
  datatype FileRef = FileRef(kind: Option<string>, fileUrl: Option<string>, externalUrl: Option<string>)

  /** A page property object. Each field is one key a property of some Notion type
      carries; `None` is a missing key, or for `date` a null or empty date. */
  datatype Property = Property(
    title: Option<seq<RichText>>,
    richText: Option<seq<RichText>>,
    date: Option<DateValue>,
    checkbox: Option<bool>,
    files: Option<seq<FileRef>>)

  /** The `{}` the Python code substitutes for a missing property. */
  const EmptyProperty := Property(None, None, None, None, None)

  /** A page of the posts database: its id and its named properties. */
  datatype Page = Page(id: string, properties: map<string, Property>)

  /** The flattened record `parse_page_properties` returns. */
  datatype PageProps = PageProps(
    id: string, title: string, slug: string, date: string, excerpt: string, cover: string, published: bool)

  /** The `text.content` of the first run of a list, "" for an empty list. */
  function FirstContent(runs: seq<RichText>): string {
    if |runs| > 0 then ContentOf(runs[0]) else ""
  }

  /** `get_title_from_property`. */
  function GetTitleFromProperty(p: Property): string {
    FirstContent(p.title.GetOr([]))
  }

  /** `get_rich_text_from_property`. */
  function GetRichTextFromProperty(p: Property): string {
    FirstContent(p.richText.GetOr([]))
  }

  /** `get_date_from_property`. */
  function GetDateFromProperty(p: Property): string {
    match p.date
    case None => ""
    case Some(d) => d.start.GetOr("")
  }

  /** `get_checkbox_from_property`. */
  function GetCheckboxFromProperty(p: Property): bool {
    p.checkbox.GetOr(false)
  }

  /** `get_cover_from_property`. */
  function GetCoverFromProperty(p: Property): string {
    var files := p.files.GetOr([]);
    if |files| == 0 then ""
    else if files[0].kind == Some("file") then files[0].fileUrl.GetOr("")
    else if files[0].kind == Some("external") then files[0].externalUrl.GetOr("")
    else ""
  }

  /** `properties.get(name, {})`. */
  function PropertyOf(page: Page, name: string): Property {
    if name in page.properties then page.properties[name] else EmptyProperty
  }

  /** `parse_page_properties`. */
  function ParsePageProperties(page: Page): PageProps {
    PageProps(
      page.id,
      GetTitleFromProperty(PropertyOf(page, "Title")),
      GetRichTextFromProperty(PropertyOf(page, "Slug")),
      GetDateFromProperty(PropertyOf(page, "Date")),
      GetRichTextFromProperty(PropertyOf(page, "Excerpt")),
      GetCoverFromProperty(PropertyOf(page, "Cover")),
      GetCheckboxFromProperty(PropertyOf(page, "Published")))
  }

  /** Title and rich-text properties yield the plain content of their first run
      only: its annotations, its link and every later run are ignored. */
  lemma FirstRunOnly(p: Property, first: RichText, rest: seq<RichText>)
    ensures p.title == Some([first] + rest) ==> GetTitleFromProperty(p) == ContentOf(first)
    ensures p.richText == Some([first] + rest) ==> GetRichTextFromProperty(p) == ContentOf(first)
  {
  }

  /** A cover is read from the first file only, by its type. */
  lemma CoverFromFirstFile(p: Property, first: FileRef, rest: seq<FileRef>)
    requires p.files == Some([first] + rest)
    ensures first.kind == Some("file") ==> GetCoverFromProperty(p) == first.fileUrl.GetOr("")
    ensures first.kind == Some("external") ==> GetCoverFromProperty(p) == first.externalUrl.GetOr("")
    ensures first.kind != Some("file") && first.kind != Some("external") ==> GetCoverFromProperty(p) == ""
  {
  }

  /** Missing or empty lists, a missing or empty date and a missing checkbox give the defaults. */
  lemma PropertyDefaults(p: Property)
    ensures p.title.GetOr([]) == [] ==> GetTitleFromProperty(p) == ""
    ensures p.richText.GetOr([]) == [] ==> GetRichTextFromProperty(p) == ""
    ensures p.date.None? || p.date.value.start.None? ==> GetDateFromProperty(p) == ""
    ensures p.checkbox.None? ==> !GetCheckboxFromProperty(p)
    ensures p.files.GetOr([]) == [] ==> GetCoverFromProperty(p) == ""
  {
  }

  /** A page with no properties parses to its id and all defaults. */
  lemma PageWithoutProperties(page: Page)
    requires page.properties == map[]
    ensures ParsePageProperties(page) == PageProps(page.id, "", "", "", "", "", false)
  {
  }

  /** A run holding just `s`, as Notion writes a plain value. */
  function PlainRun(s: string): RichText {
    RichText(Some(s), NoAnnotations, None)
  }

  /** The page Notion would hold for a post with the given properties, the cover
      being an external image. */
  function PageFor(props: PageProps): Page {
    Page(props.id, map[
      "Title" := Property(Some([PlainRun(props.title)]), None, None, None, None),
      "Slug" := Property(None, Some([PlainRun(props.slug)]), None, None, None),
      "Date" := Property(None, None, Some(DateValue(Some(props.date))), None, None),
      "Excerpt" := Property(None, Some([PlainRun(props.excerpt)]), None, None, None),
      "Cover" := Property(None, None, None, None, Some([FileRef(Some("external"), None, Some(props.cover))])),
      "Published" := Property(None, None, None, Some(props.published), None)])
  }

  /** Parsing recovers every property a page was written with. */
  lemma ParsePageFor(props: PageProps)
    ensures ParsePageProperties(PageFor(props)) == props
  {
    var page := PageFor(props);
    assert PropertyOf(page, "Title") == page.properties["Title"];
    assert PropertyOf(page, "Slug") == page.properties["Slug"];
    assert PropertyOf(page, "Date") == page.properties["Date"];
    assert PropertyOf(page, "Excerpt") == page.properties["Excerpt"];
    assert PropertyOf(page, "Cover") == page.properties["Cover"];
    assert PropertyOf(page, "Published") == page.properties["Published"];
  }
}
