/** The Markdown document: a `## Diagram` section holding the diagram in a
    `mermaid` code fence, then, when the index list is not empty, a
    `## Indexes` section with one subsection per table that has indexes. The
    document ends with one newline. */
module Markdown {
  import opened Text
  import opened Types

  const DiagramHeading := "## Diagram"
  const MermaidFence := "```mermaid"
  const Fence := "```"
  const IndexesHeading := "## Indexes"

  // ---------------------------------------------------------------------
  // The text, as functions of the inputs

  /** `generateDiagramSection`: the heading, a blank line, and the diagram
      between an opening `mermaid` fence and a closing fence. */
  function DiagramSection(diagram: string): string
  {
    DiagramHeading + "\n\n" + MermaidFence + "\n" + diagram + "\n" + Fence
  }

  /** ``### `name` ``: the heading of a table's subsection. */
  function TableHeading(name: string): string
  {
    "### `" + name + "`"
  }

  /** ``- `index` ``: one index of a table. */
  function IndexLine(index: string): string
  {
    "- `" + index + "`"
  }

  /** The index lines of a table, in order. */
  function IndexLines(indexes: seq<string>): (r: seq<string>)
    ensures |r| == |indexes|
    ensures forall k :: 0 <= k < |indexes| ==> r[k] == IndexLine(indexes[k])
  {
    seq(|indexes|, k requires 0 <= k < |indexes| => IndexLine(indexes[k]))
  }

  /** The lines of a table's subsection: heading, an empty line, one line
      per index. */
  function SubSectionLines(table: TableIndexes): (lines: seq<string>)
    ensures |lines| == |table.indexes| + 2
    ensures lines[0] == "### `" + table.name + "`" && lines[1] == ""
    ensures forall k :: 0 <= k < |table.indexes| ==> lines[k + 2] == "- `" + table.indexes[k] + "`"
  {
    [TableHeading(table.name), ""] + IndexLines(table.indexes)
  }

  /** A table's subsection as text. */
  function SubSection(table: TableIndexes): string
  {
    Join(SubSectionLines(table), "\n")
  }

  /** The tables that have at least one index, in their input order. */
  function IndexedTables(tables: seq<TableIndexes>): seq<TableIndexes>
  {
    if |tables| == 0 then []
    else
      var last := tables[|tables| - 1];
      IndexedTables(tables[..|tables| - 1]) + (if |last.indexes| > 0 then [last] else [])
  }

  /** The subsections of a list of tables, in order. */
  function SubSections(tables: seq<TableIndexes>): (r: seq<string>)
    ensures |r| == |tables|
    ensures forall k :: 0 <= k < |tables| ==> r[k] == SubSection(tables[k])
  {
    seq(|tables|, k requires 0 <= k < |tables| => SubSection(tables[k]))
  }

  /** The indexes section: the heading, then the subsections of the tables
      that have indexes, separated by blank lines. */
  function IndexesSection(tables: seq<TableIndexes>): string
  {
    Join([IndexesHeading] + SubSections(IndexedTables(tables)), "\n\n")
  }

  /** The sections of the document: the diagram section, then the indexes
      section when the index list is not empty. */
  function MarkdownParts(diagram: string, indexes: seq<TableIndexes>): seq<string>
  {
    [DiagramSection(diagram)] + (if |indexes| > 0 then [IndexesSection(indexes)] else [])
  }

  /** The document: its sections separated by blank lines, and a newline. */
  function Markdown(diagram: string, indexes: seq<TableIndexes>): string
  {
    Join(MarkdownParts(diagram, indexes), "\n\n") + "\n"
  }

  // ---------------------------------------------------------------------
  // The generators

  /** `generateTableIndexesSubSection`: the heading and an empty line, one
      line pushed per index, joined by newlines. */
  method GenerateTableIndexesSubSection(table: TableIndexes) returns (text: string)
    ensures text == SubSection(table)
  {
    var markdown := [TableHeading(table.name), ""];
    for i := 0 to |table.indexes|
      invariant markdown == [TableHeading(table.name), ""] + IndexLines(table.indexes[..i])
    {
      IndexLinesSnoc(table.indexes, i);
      markdown := markdown + [IndexLine(table.indexes[i])];
    }
    assert table.indexes[..|table.indexes|] == table.indexes;
    text := Join(markdown, "\n");
  }

  /** One more index adds its line at the end. */
  lemma IndexLinesSnoc(indexes: seq<string>, i: nat)
    requires i < |indexes|
    ensures IndexLines(indexes[..i + 1]) == IndexLines(indexes[..i]) + [IndexLine(indexes[i])]
  {
  }

  /** `generateIndexesSection`: the heading, then a subsection pushed for each
      table that has indexes; the others are skipped. */
  method GenerateIndexesSection(tables: seq<TableIndexes>) returns (text: string)
    ensures text == IndexesSection(tables)
  {
    var markdown := [IndexesHeading];
    for i := 0 to |tables|
      invariant markdown == [IndexesHeading] + SubSections(IndexedTables(tables[..i]))
    {
      var table := tables[i];
      assert tables[..i + 1][..i] == tables[..i];
      if |table.indexes| > 0 {
        var sub := GenerateTableIndexesSubSection(table);
        SubSectionsSnoc(IndexedTables(tables[..i]), table);
        markdown := markdown + [sub];
      }
    }
    assert tables[..|tables|] == tables;
    text := Join(markdown, "\n\n");
  }

  /** `generateMarkdown`: the diagram section, the indexes section only when
      the index list is not empty, joined by a blank line, then a newline. */
  method GenerateMarkdown(diagram: string, indexes: seq<TableIndexes>) returns (markdown: string)
    ensures markdown == Markdown(diagram, indexes)
    ensures |indexes| == 0 ==> markdown == DiagramSection(diagram) + "\n"
  {
    var parts := [DiagramSection(diagram)];
    if |indexes| > 0 {
      var section := GenerateIndexesSection(indexes);
      parts := parts + [section];
    }
    assert parts == MarkdownParts(diagram, indexes);
    markdown := Join(parts, "\n\n") + "\n";
  }

  /** One more table with indexes adds its subsection at the end. */
  lemma SubSectionsSnoc(tables: seq<TableIndexes>, table: TableIndexes)
    ensures SubSections(tables + [table]) == SubSections(tables) + [SubSection(table)]
  {
  }

  // ---------------------------------------------------------------------
  // Which tables get a subsection

  /** A table gets a subsection exactly when it is in the input and has at
      least one index. */
  lemma {:induction false} IndexedTablesMembers(tables: seq<TableIndexes>, t: TableIndexes)
    ensures t in IndexedTables(tables) <==> t in tables && |t.indexes| > 0
  {
    if |tables| > 0 {
      var init := tables[..|tables| - 1];
      IndexedTablesMembers(init, t);
      assert tables == init + [tables[|tables| - 1]];
    }
  }

  /** The selection keeps input order: selecting from two lists one after
      the other is selecting from each and putting the results one after the
      other. */
  lemma {:induction false} IndexedTablesAppend(a: seq<TableIndexes>, b: seq<TableIndexes>)
    ensures IndexedTables(a + b) == IndexedTables(a) + IndexedTables(b)
  {
    if |b| > 0 {
      var init := b[..|b| - 1];
      assert (a + b)[..|a + b| - 1] == a + init;
      assert (a + b)[|a + b| - 1] == b[|b| - 1];
      IndexedTablesAppend(a, init);
    } else {
      assert a + b == a;
    }
  }

  /** A table alone is selected exactly when it has indexes. */
  lemma IndexedTablesSingle(t: TableIndexes)
    ensures IndexedTables([t]) == if |t.indexes| > 0 then [t] else []
  {
    assert [t][..0] == [];
  }

  /** Only tables without indexes: nothing is selected. */
  lemma {:induction false} IndexedTablesNone(tables: seq<TableIndexes>)
    requires forall k :: 0 <= k < |tables| ==> tables[k].indexes == []
    ensures IndexedTables(tables) == []
  {
    if |tables| > 0 {
      IndexedTablesNone(tables[..|tables| - 1]);
    }
  }

  // ---------------------------------------------------------------------
  // Layout of the document

  /** The document is the diagram section and a newline when the index list
      is empty, and otherwise the diagram section, a blank line, the indexes
      section and a newline. */
  lemma MarkdownLayout(diagram: string, indexes: seq<TableIndexes>)
    ensures |indexes| == 0 ==> Markdown(diagram, indexes) == DiagramSection(diagram) + "\n"
    ensures |indexes| > 0 ==>
      Markdown(diagram, indexes) == DiagramSection(diagram) + "\n\n" + IndexesSection(indexes) + "\n"
  {
    if |indexes| > 0 {
      JoinTwo(DiagramSection(diagram), IndexesSection(indexes), "\n\n");
    }
  }

  /** Every document starts with the diagram heading, a blank line, the
      opening fence, the diagram and the closing fence. */
  lemma MarkdownStartsWithDiagram(diagram: string, indexes: seq<TableIndexes>)
    ensures "## Diagram\n\n```mermaid\n" + diagram + "\n```" <= Markdown(diagram, indexes)
  {
    MarkdownLayout(diagram, indexes);
    var prefix := DiagramSection(diagram);
    assert prefix == "## Diagram\n\n```mermaid\n" + diagram + "\n```";
    if |indexes| > 0 {
      assert Markdown(diagram, indexes) == prefix + ("\n\n" + IndexesSection(indexes) + "\n");
    } else {
      assert Markdown(diagram, indexes) == prefix + "\n";
    }
  }

  /** A non-empty index list whose tables all have no index: the indexes
      heading still appears, with no subsection under it. */
  lemma HeadingOnly(diagram: string, indexes: seq<TableIndexes>)
    requires |indexes| > 0
    requires forall k :: 0 <= k < |indexes| ==> indexes[k].indexes == []
    ensures Markdown(diagram, indexes) == DiagramSection(diagram) + "\n\n" + IndexesHeading + "\n"
  {
    IndexedTablesNone(indexes);
    assert [IndexesHeading] + SubSections([]) == [IndexesHeading];
    MarkdownLayout(diagram, indexes);
  }

  /** A subsection of a table with indexes ends with its last index line. */
  lemma SubSectionEnd(table: TableIndexes)
    requires |table.indexes| > 0
    ensures var s := SubSection(table); |s| >= 1 && s[|s| - 1] == '`'
  {
    var lines := SubSectionLines(table);
    JoinLast(lines, "\n");
  }

  /** The indexes section never ends with a newline: it ends with the heading
      or with the last index line of the last subsection. */
  lemma IndexesSectionEnd(tables: seq<TableIndexes>)
    ensures var s := IndexesSection(tables); |s| >= 1 && s[|s| - 1] != '\n'
  {
    var kept := IndexedTables(tables);
    var parts := [IndexesHeading] + SubSections(kept);
    if |kept| > 0 {
      var last := kept[|kept| - 1];
      IndexedTablesMembers(tables, last);
      SubSectionEnd(last);
      assert parts[|parts| - 1] == SubSection(last);
    }
    JoinLast(parts, "\n\n");
  }

  /** The document ends with exactly one newline: its last character is a
      newline and the one before is not. */
  lemma SingleTrailingNewline(diagram: string, indexes: seq<TableIndexes>)
    ensures var m := Markdown(diagram, indexes);
      |m| >= 2 && m[|m| - 1] == '\n' && m[|m| - 2] != '\n'
  {
    MarkdownLayout(diagram, indexes);
    var body := if |indexes| > 0 then DiagramSection(diagram) + "\n\n" + IndexesSection(indexes)
                else DiagramSection(diagram);
    if |indexes| > 0 {
      IndexesSectionEnd(indexes);
      var s := IndexesSection(indexes);
      assert body[|body| - 1] == s[|s| - 1];
    }
    assert Markdown(diagram, indexes) == body + "\n";
  }

  // ---------------------------------------------------------------------
  // Lines

  predicate SingleLineTable(table: TableIndexes)
  {
    '\n' !in table.name && NoneContains(table.indexes, '\n')
  }

  predicate SingleLineTables(tables: seq<TableIndexes>)
  {
    forall k :: 0 <= k < |tables| ==> SingleLineTable(tables[k])
  }

  /** The diagram section line by line: heading, empty line, opening fence,
      the lines of the diagram, closing fence. */
  lemma DiagramSectionLines(diagram: string)
    ensures Lines(DiagramSection(diagram)) == [DiagramHeading, "", MermaidFence] + Lines(diagram) + [Fence]
  {
    FencedLines(DiagramHeading, MermaidFence, diagram, Fence);
  }

  /** A heading, a blank line and a fenced block, line by line. */
  lemma FencedLines(heading: string, open: string, body: string, close: string)
    requires '\n' !in heading && '\n' !in open && '\n' !in close
    ensures Lines(heading + "\n\n" + open + "\n" + body + "\n" + close)
      == [heading, "", open] + Lines(body) + [close]
  {
    var inner := body + "\n" + close;
    var fenced := open + "\n" + inner;
    LinesAround(body, close);
    OneLine(close);
    LinesAround(open, inner);
    OneLine(open);
    LinesAroundBlank(heading, fenced);
    OneLine(heading);
    var lead := heading + "\n\n" + open + "\n";
    Associate(lead + body, "\n", close);
    Associate(lead, body, "\n" + close);
    Associate(body, "\n", close);
    Associate(heading + "\n\n" + open, "\n", inner);
    Associate(heading + "\n\n", open, "\n" + inner);
    Associate(open, "\n", inner);
  }

  /** Concatenation regrouped. */
  lemma Associate(a: string, b: string, c: string)
    ensures a + b + c == a + (b + c)
  {
  }

  /** A subsection has `|indexes| + 2` lines: heading, empty line, and one
      line per index in order. */
  lemma SubSectionLinesOf(table: TableIndexes)
    requires SingleLineTable(table)
    ensures Lines(SubSection(table)) == SubSectionLines(table)
    ensures |Lines(SubSection(table))| == |table.indexes| + 2
  {
    var lines := SubSectionLines(table);
    forall k | 0 <= k < |lines| ensures '\n' !in lines[k] {
      if k >= 2 {
        assert '\n' !in table.indexes[k - 2];
      }
    }
    LinesOfJoin(lines);
  }

  /** The lines of each table's subsection, in order. */
  function SubSectionLineBlocks(tables: seq<TableIndexes>): (r: seq<seq<string>>)
    ensures |r| == |tables|
    ensures forall k :: 0 <= k < |tables| ==> r[k] == SubSectionLines(tables[k])
  {
    seq(|tables|, k requires 0 <= k < |tables| => SubSectionLines(tables[k]))
  }

  /** The indexes section line by line: the heading, then for each table with
      indexes, in input order, a blank line followed by its subsection;
      tables without indexes contribute nothing. */
  lemma IndexesSectionLines(tables: seq<TableIndexes>)
    requires SingleLineTables(tables)
    ensures Lines(IndexesSection(tables)) ==
      Paragraphs([[IndexesHeading]] + SubSectionLineBlocks(IndexedTables(tables)))
  {
    IndexedTablesSingleLine(tables);
    SelectedSectionLines(IndexedTables(tables));
  }

  /** The heading and the subsections of the given tables, joined by blank
      lines, line by line. */
  lemma SelectedSectionLines(kept: seq<TableIndexes>)
    requires SingleLineTables(kept)
    ensures Lines(Join([IndexesHeading] + SubSections(kept), "\n\n")) ==
      Paragraphs([[IndexesHeading]] + SubSectionLineBlocks(kept))
  {
    var subs := SubSections(kept);
    LinesOfJoinBlank([IndexesHeading] + subs);
    HeadingLine();
    SubSectionsLines(kept);
    LinesOfEachCons(IndexesHeading, subs);
  }

  /** The indexes heading is one line. */
  lemma HeadingLine()
    ensures Lines(IndexesHeading) == [IndexesHeading]
  {
    OneLine(IndexesHeading);
  }

  /** Selecting tables keeps every one of them single-line. */
  lemma {:induction false} IndexedTablesSingleLine(tables: seq<TableIndexes>)
    requires SingleLineTables(tables)
    ensures SingleLineTables(IndexedTables(tables))
  {
    if |tables| > 0 {
      IndexedTablesSingleLine(tables[..|tables| - 1]);
    }
  }

  /** The lines of single-line tables' subsections are their line lists. */
  lemma SubSectionsLines(tables: seq<TableIndexes>)
    requires SingleLineTables(tables)
    ensures LinesOfEach(SubSections(tables)) == SubSectionLineBlocks(tables)
  {
    forall k | 0 <= k < |tables| ensures Lines(SubSection(tables[k])) == SubSectionLines(tables[k]) {
      SubSectionLinesOf(tables[k]);
    }
  }

  /** The lines of a single-line text in front of others. */
  lemma LinesOfEachCons(first: string, rest: seq<string>)
    requires Lines(first) == [first]
    ensures LinesOfEach([first] + rest) == [[first]] + LinesOfEach(rest)
  {
  }

  // ---------------------------------------------------------------------
  // The documented cases
  //
  // As in the diagram's cases, long literal lines are built up one piece at a
  // time: the verifier does not evaluate a long concatenation of literals in
  // one step.

  /** The index list of the documented case with three tables. */
  predicate IsExampleTables(tables: seq<TableIndexes>)
  {
    tables == [TableIndexes("category", []), TableIndexes("post", ["post_pkey"]),
               TableIndexes("user", ["user_email_key", "user_pkey"])]
  }

  /** A table without indexes is skipped among tables with indexes, and the
      subsections follow in input order, each after a blank line, whatever
      the diagram. The text is fixed by its lines, since joining the lines of
      a text with newlines gives the text back. */
  lemma ThreeTablesExample(diagram: string, tables: seq<TableIndexes>)
    requires IsExampleTables(tables)
    ensures Lines(Markdown(diagram, tables))
      == ["## Diagram", "", "```mermaid"] + Lines(diagram) + ["```",
          "", "## Indexes", "", "### `post`", "", "- `post_pkey`",
          "", "### `user`", "", "- `user_email_key`", "- `user_pkey`", ""]
  {
    ExampleIndexesLines(tables);
    DiagramSectionLines(diagram);
    DocumentLines(diagram, tables);
  }

  /** The indexes section of the documented case, line by line. */
  lemma ExampleIndexesLines(tables: seq<TableIndexes>)
    requires IsExampleTables(tables)
    ensures Lines(IndexesSection(tables)) ==
      ["## Indexes", "", "### `post`", "", "- `post_pkey`",
       "", "### `user`", "", "- `user_email_key`", "- `user_pkey`"]
  {
    ExampleSelection(tables);
    ExampleSingleLine(tables);
    TwoSubSectionsLines(tables, tables[1], tables[2]);
    PostSubSection(tables[1]);
    UserSubSection(tables[2]);
  }

  /** An indexes section with exactly two selected tables, line by line. */
  lemma TwoSubSectionsLines(tables: seq<TableIndexes>, first: TableIndexes, second: TableIndexes)
    requires SingleLineTables(tables) && IndexedTables(tables) == [first, second]
    ensures Lines(IndexesSection(tables)) ==
      [IndexesHeading, ""] + SubSectionLines(first) + [""] + SubSectionLines(second)
  {
    IndexesSectionLines(tables);
    BlocksOfTwo(first, second);
    ParagraphsThree([IndexesHeading], SubSectionLines(first), SubSectionLines(second));
  }

  /** The blocks of the indexes section with two selected tables. */
  lemma BlocksOfTwo(first: TableIndexes, second: TableIndexes)
    ensures [[IndexesHeading]] + SubSectionLineBlocks([first, second])
         == [[IndexesHeading], SubSectionLines(first), SubSectionLines(second)]
  {
    var blocks := SubSectionLineBlocks([first, second]);
    assert blocks == [SubSectionLines(first), SubSectionLines(second)];
  }

  /** The tables of the documented case hold no newline. */
  lemma ExampleSingleLine(tables: seq<TableIndexes>)
    requires IsExampleTables(tables)
    ensures SingleLineTables(tables)
  {
    var user := tables[2];
    assert '\n' !in user.indexes[0] && '\n' !in user.indexes[1];
    assert SingleLineTable(tables[0]) && SingleLineTable(tables[1]) && SingleLineTable(user);
  }

  /** The subsection of `post` in the documented case. */
  lemma PostSubSection(table: TableIndexes)
    requires table == TableIndexes("post", ["post_pkey"])
    ensures SubSectionLines(table) == ["### `post`", "", "- `post_pkey`"]
  {
    assert TableHeading("post") == "### `post`";
    assert IndexLine("post_pkey") == "- `post_pkey`";
  }

  /** The subsection of `user` in the documented case. */
  lemma UserSubSection(table: TableIndexes)
    requires table == TableIndexes("user", ["user_email_key", "user_pkey"])
    ensures SubSectionLines(table) == ["### `user`", "", "- `user_email_key`", "- `user_pkey`"]
  {
    assert TableHeading("user") == "### `user`";
    assert IndexLine("user_email_key") == "- `user_email_key`";
    assert IndexLine("user_pkey") == "- `user_pkey`";
  }

  /** In the documented case the second and third tables are selected. */
  lemma ExampleSelection(tables: seq<TableIndexes>)
    requires IsExampleTables(tables)
    ensures IndexedTables(tables) == [tables[1], tables[2]]
  {
    var category := tables[0];
    var post := tables[1];
    var user := tables[2];
    assert tables == [category] + [post] + [user];
    IndexedTablesAppend([category] + [post], [user]);
    IndexedTablesAppend([category], [post]);
    IndexedTablesSingle(category);
    IndexedTablesSingle(post);
    IndexedTablesSingle(user);
  }

  /** With an empty index list the document is the diagram section alone,
      then the final newline. */
  lemma NoIndexesExample(diagram: string)
    ensures Lines(Markdown(diagram, []))
      == ["## Diagram", "", "```mermaid"] + Lines(diagram) + ["```", ""]
  {
    MarkdownLayout(diagram, []);
    LinesAround(DiagramSection(diagram), "");
    assert DiagramSection(diagram) + "\n" + "" == Markdown(diagram, []);
    DiagramSectionLines(diagram);
  }

  /** The lines of a document with indexes: the lines of the diagram
      section, an empty line, the lines of the indexes section, and the
      empty line after the final newline. */
  lemma DocumentLines(diagram: string, tables: seq<TableIndexes>)
    requires |tables| > 0
    ensures Lines(Markdown(diagram, tables)) ==
      Lines(DiagramSection(diagram)) + [""] + Lines(IndexesSection(tables)) + [""]
  {
    MarkdownLayout(diagram, tables);
    TwoSectionLines(DiagramSection(diagram), IndexesSection(tables));
  }

  /** Two sections separated by a blank line and followed by a newline. */
  lemma TwoSectionLines(first: string, second: string)
    ensures Lines(first + "\n\n" + second + "\n") == Lines(first) + [""] + Lines(second) + [""]
  {
    var body := first + "\n\n" + second;
    assert body + "\n" == body + "\n" + "";
    LinesAround(body, "");
    assert Lines("") == [""];
    LinesAroundBlank(first, second);
  }
}
