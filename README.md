# pg-mermaid text layer in Dafny

pg-mermaid reads the tables, columns, foreign keys and indexes of a PostgreSQL
schema and writes a Markdown file. That file holds a Mermaid `erDiagram` of
the schema and a list of the indexes of each table. This project models the
part of the CLI that turns catalog records into that text, and proves what
the text looks like:

- `types.dfy`: the records the catalog queries produce.
  - `Entity` is a table and its `Attribute`s. An attribute has a name, a
    type, a nullability comment and an optional PK/FK key role.
  - `Relationship` is a foreign key between two `Endpoint`s.
  - `TableIndexes` is a table and the names of its indexes.
- `mermaid.dfy`: the Mermaid serialiser.
  - `generateEntity`, `generateEntities` and `generateRelationships` are
    methods that push lines into a list in a loop and join it, as the source
    does. `generateDiagram` has no loop: it pushes each section only when its
    list is not empty.
  - Each method is proved equal to a function of its input.
  - Lemmas prove the line-by-line layout of those functions.
  - Readers `ParseAttributeLine` and `ParseEdgeLine` recover the records
    from attribute and edge lines.
- `markdown.dfy`: the Markdown assembler.
  - It writes the diagram section, then the indexes section; the indexes
    section appears only for a non-empty index list and skips tables without
    indexes.
  - The subsection and indexes-section generators loop like the diagram's;
    `generateMarkdown` has no loop and pushes the indexes section only for a
    non-empty list.
  - The document ends with exactly one newline.
- `command.dfy`: the value handler of the `--excluded-tables` option. A value
  holding a comma replaces the collected list by its pieces. Any other value
  is appended to the list.
- `text.dfy`: JavaScript `Array.prototype.join` and `String.prototype.split`
  with a one-character separator, the lines of a text, and the laws that
  relate them.
- `wrappers.dfy`: `Option`, for absent parameters and nullable fields.

Absent parameters (`entities = []`, `previousExcludedTables = []`) are
`Option` values that default to the empty list.

A text is compared line by line through `Lines(s) == Split(s, '\n')`.
`Join(Lines(s), "\n") == s` holds (`Text.JoinSplit`), so a statement about
`Lines` of a text fixes the text exactly.

## Model

| member | source | states |
|---|---|---|
| Types.CommentText | packages/cli/src/types.ts:6 | a nullability comment is written as exactly `not null` or `null` |
| Types.KeyText | packages/cli/src/types.ts:7 | a key role is written as exactly `PK` or `FK` |
| Types.ParseComment | packages/cli/src/types.ts:6 | the comment field accepts a string if and only if it is one of the two literals, and reads it back as the comment written that way |
| Types.ParseKey | packages/cli/src/types.ts:7 | the nullable key field accepts exactly null, `PK` and `FK`; null is the absent role, and an accepted role is written as the string read |
| Types.CommentRoundTrip | packages/cli/src/types.ts:6 | every comment is accepted back from its literal |
| Types.KeyRoundTrip | packages/cli/src/types.ts:7 | every key role, and the absent role, is accepted back from how it is written |
| Text.Split | packages/cli/src/command.ts:10 | a split has at least one piece |
| Text.Join | packages/cli/src/mermaid.ts:15 | `parts.join(sep)`: the parts in order with the separator between neighbours, the empty list giving the empty string; `Text.JoinSplit` and `Text.SplitJoin` relate it to `Text.Split` |
| Text.SplitPiecesFree | packages/cli/src/command.ts:10 | no piece of a split holds the separator |
| Text.SplitSeveral | packages/cli/src/command.ts:9-10 | a text holding the separator splits into two pieces or more |
| Text.JoinSplit | packages/cli/src/command.ts:10 | joining the pieces of a split with the separator gives the text back |
| Text.SplitJoin | packages/cli/src/mermaid.ts:15 | splitting parts joined by a separator that no part holds gives the parts back |
| Text.LinesOfJoin | packages/cli/src/mermaid.ts:15 | texts joined by `\n` have those texts as their lines when none holds a newline |
| Text.LinesOfJoinBlank | packages/cli/src/mermaid.ts:25 | texts joined by `\n\n` have the lines of each, with one empty line between neighbours |
| Text.JoinLast | packages/cli/src/markdown.ts:68 | a join ends with the last character of its last part |
| Mermaid.KeyMarker | packages/cli/src/mermaid.ts:9 | what stands between type and comment starts and ends with a space: ` PK `, ` FK ` or a single space |
| Mermaid.QuotedComment | packages/cli/src/mermaid.ts:9 | the comment is written between double quotes |
| Mermaid.AttributeLine | packages/cli/src/mermaid.ts:9 | eight spaces, the name, a space, the type, the key marker (` PK `, ` FK ` or one space), then the quoted comment; `Mermaid.AttributeLineRoundTrip` reads it back |
| Mermaid.EndpointText | packages/cli/src/mermaid.ts:33-37 | one side of a label: the table name, then its columns joined by `, ` between parentheses; `Mermaid.EndpointRoundTrip` reads it back |
| Mermaid.EdgeLabel | packages/cli/src/mermaid.ts:33-37 | the label text: the child side, ` -> `, then the parent side; `Mermaid.LabelRoundTrip` reads it back |
| Mermaid.EdgeLine | packages/cli/src/mermaid.ts:32-38 | four spaces, the parent table, the one-to-many cardinality marker, the child table, ` : `, then the label in double quotes; `Mermaid.EdgeLineRoundTrip` reads it back |
| Mermaid.EntityLines | packages/cli/src/mermaid.ts:3-15 | an entity block has two lines more than it has columns: `    name {`, one attribute line per column in order, then `    }` |
| Mermaid.GenerateEntity | packages/cli/src/mermaid.ts:3-16 | the loop pushes one attribute line per column between header and footer and joins them by `\n`; the result is `EntityBlock(entity)` |
| Mermaid.GenerateEntities | packages/cli/src/mermaid.ts:18-26 | the loop pushes the blocks in input order and joins them by `\n\n`; the result is `EntitiesText(entities)` |
| Mermaid.GenerateRelationships | packages/cli/src/mermaid.ts:28-42 | the loop pushes one edge line per relationship in input order and joins them by `\n`; the result is `RelationshipsText(relationships)` |
| Mermaid.GenerateDiagram | packages/cli/src/mermaid.ts:48-63 | absent lists count as empty and a section is added only for a non-empty list; the result is `Diagram`, and with no entities and no relationships it is exactly `erDiagram` |
| Mermaid.DiagramLayout | packages/cli/src/mermaid.ts:52-62 | in each of the four emptiness cases, the diagram is the header, then the entity section after a blank line if present, then the relationship section after a blank line if present |
| Mermaid.DiagramStartsWithHeader | packages/cli/src/mermaid.ts:52 | every diagram starts with `erDiagram` |
| Mermaid.AttributeLineSingle | packages/cli/src/mermaid.ts:9 | an attribute line holds no newline when the name and type hold none |
| Mermaid.EntityBlockLines | packages/cli/src/mermaid.ts:3-15 | the lines of an entity block are exactly its header, one line per column in order, and its footer, two more lines than columns; this holds when no name, type or column holds a newline |
| Mermaid.EmptyEntityLines | packages/cli/src/mermaid.ts:4-13 | an entity without columns is the two lines `    name {` and `    }` |
| Mermaid.EdgeLineSingle | packages/cli/src/mermaid.ts:32-38 | an edge line holds no newline when names and columns hold none |
| Mermaid.RelationshipsLines | packages/cli/src/mermaid.ts:41 | the relationship section has one line per relationship, in input order, with no blank line between them; this holds when no name, type or column holds a newline |
| Mermaid.EntitiesLines | packages/cli/src/mermaid.ts:18-25 | the entity section is the blocks' lines in input order, with one empty line between consecutive blocks; this holds when no name, type or column holds a newline |
| Mermaid.HeadAndEntitiesLines | packages/cli/src/mermaid.ts:52-55 | the header, an empty line, then the entity section's lines; this holds when no name, type or column holds a newline |
| Mermaid.EdgesAfterLines | packages/cli/src/mermaid.ts:58-62 | after a blank line the relationship section adds its edge lines; this holds when no name, type or column holds a newline |
| Mermaid.DiagramLines | packages/cli/src/mermaid.ts:48-63 | the diagram line by line in each of the four emptiness cases; with both sections, the edge lines follow the last entity block after one empty line; this holds when no name, type or column holds a newline |
| Mermaid.SplitKeyAfterMarker | packages/cli/src/mermaid.ts:9 | after the type, the key token is read back exactly when the column has a key role |
| Mermaid.QuotedCommentRoundTrip | packages/cli/src/mermaid.ts:9 | a quoted comment reads back as that comment |
| Mermaid.AttributeLineRoundTrip | packages/cli/src/mermaid.ts:9 | an attribute line reads back as its column (name, type, comment and key role) when name and type hold no space |
| Mermaid.ColumnsRoundTrip | packages/cli/src/mermaid.ts:35-37 | columns joined by `, ` read back as the same columns in the same order |
| Mermaid.ColumnListRoundTrip | packages/cli/src/mermaid.ts:35-37 | a column list joined by `, `, the empty list included, reads back as the same columns, and the joined text holds no `)` |
| Mermaid.EndpointRoundTrip | packages/cli/src/mermaid.ts:33-37 | `entity(c1, c2)` reads back as the endpoint's columns, leaving what follows it |
| Mermaid.LabelRoundTrip | packages/cli/src/mermaid.ts:33-37 | the quoted label `child(..) -> parent(..)"` reads back as the relationship |
| Mermaid.EdgeLineRoundTrip | packages/cli/src/mermaid.ts:32-38 | an edge line (parent, the one-to-many arrow, child, then the quoted label) reads back as its relationship |
| Mermaid.KeyedEntitiesExample | packages/cli/src/__tests__/mermaid.test.ts:5-55 | the documented tables `category`, `post` and `user` give exactly the expected diagram lines, with ` PK `/` FK ` markers and an empty block for `category` |
| Mermaid.RelationshipExample | packages/cli/src/__tests__/mermaid.test.ts:156-209 | the documented two tables and one foreign key give exactly the expected diagram lines |
| Markdown.SubSectionLines | packages/cli/src/markdown.ts:23-29 | a subsection has ``### `name` ``, an empty line, then one ``- `index` `` line per index in order |
| Markdown.DiagramSection | packages/cli/src/markdown.ts:7-17 | `## Diagram`, a blank line, the opening `mermaid` fence, the diagram, the closing fence, one newline between each; `Markdown.DiagramSectionLines` gives its lines |
| Markdown.IndexedTables | packages/cli/src/markdown.ts:40-41 | the tables whose index list is not empty, in input order; `Markdown.IndexedTablesMembers` and `Markdown.IndexedTablesAppend` characterise it |
| Markdown.GenerateTableIndexesSubSection | packages/cli/src/markdown.ts:19-30 | the loop pushes one index line per index after the heading and the empty line and joins them by `\n`; the result is `SubSection(table)` |
| Markdown.GenerateIndexesSection | packages/cli/src/markdown.ts:35-52 | the loop pushes a subsection only for tables with indexes, in input order, after the heading, and joins them by `\n\n`; the result is `IndexesSection(tables)` |
| Markdown.GenerateMarkdown | packages/cli/src/markdown.ts:58-69 | the indexes section is added only for a non-empty index list, and a newline follows the joined sections; with no indexes the result is the diagram section and `\n` |
| Markdown.IndexedTablesMembers | packages/cli/src/markdown.ts:40-41 | a table gets a subsection if and only if it is in the input and has at least one index |
| Markdown.IndexedTablesAppend | packages/cli/src/markdown.ts:40-49 | the selection keeps input order: selecting from two lists in a row is selecting from each, one result after the other |
| Markdown.IndexedTablesSingle | packages/cli/src/markdown.ts:41 | a single table is selected exactly when it has indexes |
| Markdown.IndexedTablesNone | packages/cli/src/markdown.ts:41 | tables without indexes yield no subsections |
| Markdown.MarkdownLayout | packages/cli/src/markdown.ts:62-68 | the document is the diagram section and `\n` without indexes, and otherwise the diagram section, `\n\n`, the indexes section and `\n` |
| Markdown.MarkdownStartsWithDiagram | packages/cli/src/markdown.ts:10-16 | every document starts with `## Diagram`, a blank line, the opening `mermaid` fence, the diagram and the closing fence |
| Markdown.HeadingOnly | packages/cli/src/markdown.ts:38-51 | a non-empty index list whose tables all have no index still writes the `## Indexes` heading, with nothing under it |
| Markdown.SubSectionEnd | packages/cli/src/markdown.ts:23-29 | a subsection of a table with indexes ends with a backtick |
| Markdown.IndexesSectionEnd | packages/cli/src/markdown.ts:38-51 | the indexes section never ends with a newline |
| Markdown.SingleTrailingNewline | packages/cli/src/markdown.ts:68 | the document ends with exactly one newline: its last character is `\n` and the one before is not |
| Markdown.DiagramSectionLines | packages/cli/src/markdown.ts:10-16 | the diagram section line by line: `## Diagram`, an empty line, the opening fence, the diagram's lines, the closing fence |
| Markdown.SubSectionLinesOf | packages/cli/src/markdown.ts:23-29 | the lines of a subsection are its heading, an empty line and its index lines, two more lines than indexes; this holds when no table or index name holds a newline |
| Markdown.IndexesSectionLines | packages/cli/src/markdown.ts:35-52 | the indexes section line by line: the heading, then for each table with indexes, in input order, an empty line and its subsection's lines; this holds when no table or index name holds a newline |
| Markdown.IndexedTablesSingleLine | packages/cli/src/markdown.ts:40-41 | the selected tables are among the input's, so they stay free of newlines |
| Markdown.DocumentLines | packages/cli/src/markdown.ts:62-68 | with indexes, the document's lines are the diagram section's, an empty line, the indexes section's and the empty line after the final newline |
| Markdown.ThreeTablesExample | packages/cli/src/__tests__/markdown.test.ts:5-33 | for the documented tables `category` (no index), `post` and `user`, the document lists only `post` and `user`, in that order, for any diagram |
| Markdown.NoIndexesExample | packages/cli/src/__tests__/markdown.test.ts:54-67 | with an empty index list the document is the diagram section and a newline, for any diagram |
| Command.HandleExcludedTable | packages/cli/src/command.ts:5-21 | the handler always returns a non-empty list |
| Command.DeprecationWarning | packages/cli/src/command.ts:9-16 | a warning is issued if and only if the value holds a comma |
| Command.ExcludedTables | packages/cli/src/command.ts:54-58 | passing every value after the flag through the handler gives a list exactly when at least one value was given |
| Command.CommaSeparated | packages/cli/src/command.ts:9-17 | a value with a comma gives its pieces, two or more and free of commas, which joined by `,` give the value back; the previous list is discarded |
| Command.Appended | packages/cli/src/command.ts:7-20 | any other value is appended to the previous list, which is kept unchanged and grows by one; with no previous list the result is the value alone |
| Command.SuggestionNamesSameTables | packages/cli/src/command.ts:12-16 | the space-separated list the warning suggests names the same tables, when no name holds a space |
| Command.PlainValues | packages/cli/src/command.ts:20 | values without commas are collected as given, in order |
| Command.LastCommaListWins | packages/cli/src/command.ts:9-20 | the last comma-separated value drops all earlier values; its pieces come first, followed by the plain values after it |
| Command.TwoCommaSeparated | packages/cli/src/command.ts:9-10 | `a,b` with comma-free `a` and `b` gives `[a, b]` |
| Command.CommaSeparatedExample | packages/cli/src/__tests__/command.test.ts:82-105 | `table1,table2` gives `["table1", "table2"]` |

## Left out

- `packages/cli/src/database.ts` is not part of this model. It holds the SQL
  queries and the connection. Filtering, ordering, grouping and type renaming
  happen inside PostgreSQL, so the model takes the records as given.
- Most of `packages/cli/src/command.ts` is not modelled: `createProgram` and
  `getOptions` are configuration of the commander and zod libraries.
  - `Command.ExcludedTables` models only the order in which commander hands
    the values after the flag to the handler. The first value gets no
    previous list.
- The printing of the deprecation warning by `console.warn` is output. Only
  the warning's text is modelled, by `Command.DeprecationWarning`.
- `packages/cli/src/index.ts` is not modelled: asynchronous orchestration,
  the database connection, writing the file and console output.
- `pg-mermaid.mjs`, a separate interactive script that shells out to `psql`,
  is not part of this model.
- The common-tags `source` template tag of `generateDiagramSection` is a
  foreign library. `Markdown.DiagramSection` is the concatenation it renders:
  the tag indents each line of the diagram to its own indentation, then
  strips that same indentation and trims the ends. The concatenation is what
  the expected outputs in `markdown.test.ts` show.
- The input validation zod performs on the records (`EntitySchema`,
  `RelationshipSchema`, `TableIndexesSchema`) is represented by the
  datatypes. `Types.ParseComment` and `Types.ParseKey` model only the two
  closed string unions.
- Mermaid.AttributeLineRoundTrip: the reading back holds only when column
  names and types hold no space. The program makes no promise of its own
  here, and a space would make the line ambiguous.
- Mermaid.EdgeLineRoundTrip: the reading back of edge lines holds only for
  table names without spaces and for non-empty column names without `,` or
  `)`, for the same reason.
- Command.SuggestionNamesSameTables: holds only for values without spaces.
  With spaces the suggested command would name other tables.
- The documented cases are stated on the lines of the output
  (`Mermaid.KeyedEntitiesExample`, `Mermaid.RelationshipExample`,
  `Markdown.ThreeTablesExample`, `Markdown.NoIndexesExample`). This pins
  down the text exactly, because `Text.JoinSplit` holds. The Markdown cases
  take the diagram as a parameter, because the tests pass it in as
  arbitrary text.
