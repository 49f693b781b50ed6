/** The Mermaid `erDiagram` writer: one block per entity, one edge line per
    foreign key. Each generator collects its lines in a local list and joins
    them; the functions below say what the joined text is, the methods build
    it the way the program does, and the lemmas say what the text looks like
    line by line and that its entity and edge lines can be read back. */
module Mermaid {
  import opened Wrappers
  import opened Text
  import opened Types

  /** Indentation of an entity header, its closing brace and an edge line. */
  const EntityIndent := "    "
  /** Indentation of an attribute line. */
  const AttributeIndent := "        "
  /** The line that closes an entity block. */
  const EntityFooter := "    }"
  /** The first line of every diagram. */
  const DiagramHeader := "erDiagram"
  /** The cardinality marker of every edge: parent exactly one, child zero or more. */
  const EdgeArrow := " ||--o{ "
  /** Between the child's name and the quoted edge label. */
  const LabelOpen := " : \""

  // ---------------------------------------------------------------------
  // The text, as functions of the records

  /** `        name type KEY "comment"`, or `        name type "comment"` when
      the column has no key role. */
  function AttributeLine(a: Attribute): string
  {
    AttributeIndent + a.name + " " + a.typeName + KeyMarker(a.key) + QuotedComment(a.comment)
  }

  /** What stands between the type and the comment: ` KEY ` or a single space. */
  function KeyMarker(key: Option<Key>): (m: string)
    ensures |m| >= 1 && m[0] == ' ' && m[|m| - 1] == ' '
  {
    match key
    case Some(k) => " " + KeyText(k) + " "
    case None => " "
  }

  /** The comment in double quotes. */
  function QuotedComment(c: Comment): (q: string)
    ensures |q| >= 2 && q[0] == '"' && q[|q| - 1] == '"'
  {
    "\"" + CommentText(c) + "\""
  }

  /** The line that opens the block of entity `name`. */
  function EntityHeader(name: string): string
  {
    EntityIndent + name + " {"
  }

  /** The attribute lines of a list of columns, in order. */
  function AttributeLines(attributes: seq<Attribute>): (r: seq<string>)
    ensures |r| == |attributes|
    ensures forall k :: 0 <= k < |attributes| ==> r[k] == AttributeLine(attributes[k])
  {
    seq(|attributes|, k requires 0 <= k < |attributes| => AttributeLine(attributes[k]))
  }

  /** The lines of one entity block: header, one line per column, footer. */
  function EntityLines(e: Entity): (lines: seq<string>)
    ensures |lines| == |e.attributes| + 2
    ensures lines[0] == EntityIndent + e.name + " {" && lines[|e.attributes| + 1] == EntityFooter
    ensures forall k :: 0 <= k < |e.attributes| ==> lines[k + 1] == AttributeLine(e.attributes[k])
  {
    [EntityHeader(e.name)] + AttributeLines(e.attributes) + [EntityFooter]
  }

  /** One entity block as text. */
  function EntityBlock(e: Entity): string
  {
    Join(EntityLines(e), "\n")
  }

  /** The blocks of a list of entities, in order. */
  function EntityBlocks(entities: seq<Entity>): (r: seq<string>)
    ensures |r| == |entities|
    ensures forall k :: 0 <= k < |entities| ==> r[k] == EntityBlock(entities[k])
  {
    seq(|entities|, k requires 0 <= k < |entities| => EntityBlock(entities[k]))
  }

  /** The entity section: the blocks separated by blank lines. */
  function EntitiesText(entities: seq<Entity>): string
  {
    Join(EntityBlocks(entities), "\n\n")
  }

  /** `entity(c1, c2)`: a side of a foreign key as the edge label writes it. */
  function EndpointText(p: Endpoint): string
  {
    p.entity + "(" + Join(p.attributes, ", ") + ")"
  }

  /** `    parent ||--o{ child : "child(c1, c2) -> parent(p1, p2)"`. */
  function EdgeLine(r: Relationship): string
  {
    EntityIndent + r.parent.entity + EdgeArrow + r.child.entity + LabelOpen + EdgeLabel(r) + "\""
  }

  /** `child(c1, c2) -> parent(p1, p2)`: the text of an edge's label. */
  function EdgeLabel(r: Relationship): string
  {
    EndpointText(r.child) + " -> " + EndpointText(r.parent)
  }

  /** The edge lines of a list of relationships, in order. */
  function EdgeLines(relationships: seq<Relationship>): (r: seq<string>)
    ensures |r| == |relationships|
    ensures forall k :: 0 <= k < |relationships| ==> r[k] == EdgeLine(relationships[k])
  {
    seq(|relationships|, k requires 0 <= k < |relationships| => EdgeLine(relationships[k]))
  }

  /** The relationship section: one edge per line, no blank lines. */
  function RelationshipsText(relationships: seq<Relationship>): string
  {
    Join(EdgeLines(relationships), "\n")
  }

  /** The parts of a diagram: the header, then each non-empty section. */
  function DiagramParts(entities: seq<Entity>, relationships: seq<Relationship>): seq<string>
  {
    [DiagramHeader]
      + (if |entities| > 0 then [EntitiesText(entities)] else [])
      + (if |relationships| > 0 then [RelationshipsText(relationships)] else [])
  }

  /** The whole diagram: its parts separated by blank lines. */
  function Diagram(entities: seq<Entity>, relationships: seq<Relationship>): string
  {
    Join(DiagramParts(entities, relationships), "\n\n")
  }

  // ---------------------------------------------------------------------
  // The generators

  /** `generateEntity`: the header, a line pushed per column, the footer. */
  method GenerateEntity(entity: Entity) returns (block: string)
    ensures block == EntityBlock(entity)
  {
    var mermaid := [EntityHeader(entity.name)];
    for i := 0 to |entity.attributes|
      invariant mermaid == [EntityHeader(entity.name)] + AttributeLines(entity.attributes[..i])
    {
      AttributeLinesSnoc(entity.attributes, i);
      mermaid := mermaid + [AttributeLine(entity.attributes[i])];
    }
    assert entity.attributes[..|entity.attributes|] == entity.attributes;
    mermaid := mermaid + [EntityFooter];
    block := Join(mermaid, "\n");
  }

  /** One more column adds its line at the end. */
  lemma AttributeLinesSnoc(attributes: seq<Attribute>, i: nat)
    requires i < |attributes|
    ensures AttributeLines(attributes[..i + 1]) == AttributeLines(attributes[..i]) + [AttributeLine(attributes[i])]
  {
  }

  /** `generateEntities`: a block pushed per entity, joined by blank lines. */
  method GenerateEntities(entities: seq<Entity>) returns (text: string)
    ensures text == EntitiesText(entities)
  {
    var mermaid: seq<string> := [];
    for i := 0 to |entities|
      invariant |mermaid| == i
      invariant forall k :: 0 <= k < i ==> mermaid[k] == EntityBlock(entities[k])
    {
      var block := GenerateEntity(entities[i]);
      mermaid := mermaid + [block];
    }
    assert mermaid == EntityBlocks(entities);
    text := Join(mermaid, "\n\n");
  }

  /** `generateRelationships`: an edge line pushed per relationship, joined
      by single newlines. */
  method GenerateRelationships(relationships: seq<Relationship>) returns (text: string)
    ensures text == RelationshipsText(relationships)
  {
    var mermaid: seq<string> := [];
    for i := 0 to |relationships|
      invariant |mermaid| == i
      invariant forall k :: 0 <= k < i ==> mermaid[k] == EdgeLine(relationships[k])
    {
      mermaid := mermaid + [EdgeLine(relationships[i])];
    }
    assert mermaid == EdgeLines(relationships);
    text := Join(mermaid, "\n");
  }

  /** `generateDiagram`: absent lists count as empty; a section is pushed only
      when its list is non-empty. */
  method GenerateDiagram(entities: Option<seq<Entity>>, relationships: Option<seq<Relationship>>)
    returns (diagram: string)
    ensures diagram == Diagram(entities.GetOr([]), relationships.GetOr([]))
    ensures entities.GetOr([]) == [] && relationships.GetOr([]) == [] ==> diagram == DiagramHeader
  {
    var es := entities.GetOr([]);
    var rs := relationships.GetOr([]);
    var parts := [DiagramHeader];
    if |es| > 0 {
      var text := GenerateEntities(es);
      parts := parts + [text];
    }
    if |rs| > 0 {
      var text := GenerateRelationships(rs);
      parts := parts + [text];
    }
    assert parts == DiagramParts(es, rs);
    diagram := Join(parts, "\n\n");
  }

  // ---------------------------------------------------------------------
  // Layout of the diagram

  /** The diagram is its header, then the entity section after a blank line
      when there are entities, then the relationship section after a blank
      line when there are relationships; with neither it is the header alone. */
  lemma DiagramLayout(entities: seq<Entity>, relationships: seq<Relationship>)
    ensures |entities| == 0 && |relationships| == 0 ==>
      Diagram(entities, relationships) == DiagramHeader
    ensures |entities| > 0 && |relationships| == 0 ==>
      Diagram(entities, relationships) == DiagramHeader + "\n\n" + EntitiesText(entities)
    ensures |entities| == 0 && |relationships| > 0 ==>
      Diagram(entities, relationships) == DiagramHeader + "\n\n" + RelationshipsText(relationships)
    ensures |entities| > 0 && |relationships| > 0 ==>
      Diagram(entities, relationships) ==
        DiagramHeader + "\n\n" + EntitiesText(entities) + "\n\n" + RelationshipsText(relationships)
  {
    var parts := DiagramParts(entities, relationships);
    var e, r := EntitiesText(entities), RelationshipsText(relationships);
    if |entities| > 0 && |relationships| > 0 {
      assert parts == [DiagramHeader, e, r];
      JoinThree(DiagramHeader, e, r, "\n\n");
    } else if |entities| > 0 {
      assert parts == [DiagramHeader, e];
      JoinTwo(DiagramHeader, e, "\n\n");
    } else if |relationships| > 0 {
      assert parts == [DiagramHeader, r];
      JoinTwo(DiagramHeader, r, "\n\n");
    }
  }

  /** Every diagram starts with its header. */
  lemma DiagramStartsWithHeader(entities: seq<Entity>, relationships: seq<Relationship>)
    ensures DiagramHeader <= Diagram(entities, relationships)
  {
    DiagramLayout(entities, relationships);
  }

  // ---------------------------------------------------------------------
  // Lines

  /** Names and types that hold no newline. */
  predicate SingleLineAttribute(a: Attribute)
  {
    '\n' !in a.name && '\n' !in a.typeName
  }

  predicate SingleLineEntity(e: Entity)
  {
    '\n' !in e.name && forall k :: 0 <= k < |e.attributes| ==> SingleLineAttribute(e.attributes[k])
  }

  predicate SingleLineEndpoint(p: Endpoint)
  {
    '\n' !in p.entity && NoneContains(p.attributes, '\n')
  }

  predicate SingleLineRelationship(r: Relationship)
  {
    SingleLineEndpoint(r.child) && SingleLineEndpoint(r.parent)
  }

  predicate SingleLineEntities(entities: seq<Entity>)
  {
    forall k :: 0 <= k < |entities| ==> SingleLineEntity(entities[k])
  }

  predicate SingleLineRelationships(relationships: seq<Relationship>)
  {
    forall k :: 0 <= k < |relationships| ==> SingleLineRelationship(relationships[k])
  }

  /** An attribute line is one line. */
  lemma AttributeLineSingle(a: Attribute)
    requires SingleLineAttribute(a)
    ensures '\n' !in AttributeLine(a)
  {
    assert '\n' !in CommentText(a.comment);
    if a.key.Some? { assert '\n' !in KeyText(a.key.value); }
  }

  /** No line of an entity block holds a newline. */
  lemma EntityLinesSingle(e: Entity)
    requires SingleLineEntity(e)
    ensures NoneContains(EntityLines(e), '\n')
  {
    var lines := EntityLines(e);
    var n := |e.attributes|;
    forall k | 0 <= k < |lines| ensures '\n' !in lines[k] {
      if 0 < k <= n {
        AttributeLineSingle(e.attributes[k - 1]);
      }
    }
  }

  /** An entity block has `|attributes| + 2` lines: the header, the attribute
      lines in column order, and the footer. */
  lemma EntityBlockLines(e: Entity)
    requires SingleLineEntity(e)
    ensures Lines(EntityBlock(e)) == EntityLines(e)
    ensures |Lines(EntityBlock(e))| == |e.attributes| + 2
  {
    EntityLinesSingle(e);
    LinesOfJoin(EntityLines(e));
  }

  /** An entity without columns is exactly two lines. */
  lemma EmptyEntityLines(name: string)
    requires '\n' !in name
    ensures Lines(EntityBlock(Entity(name, []))) == [EntityIndent + name + " {", EntityFooter]
  {
    EntityBlockLines(Entity(name, []));
  }

  /** An edge line is one line. */
  lemma EdgeLineSingle(r: Relationship)
    requires SingleLineRelationship(r)
    ensures '\n' !in EdgeLine(r)
  {
    JoinFree(r.child.attributes, ", ", '\n');
    JoinFree(r.parent.attributes, ", ", '\n');
  }

  /** The relationship section has one line per relationship, in input
      order, with no blank line between them. */
  lemma RelationshipsLines(relationships: seq<Relationship>)
    requires |relationships| >= 1
    requires SingleLineRelationships(relationships)
    ensures Lines(RelationshipsText(relationships)) == EdgeLines(relationships)
    ensures |Lines(RelationshipsText(relationships))| == |relationships|
  {
    var lines := EdgeLines(relationships);
    forall k | 0 <= k < |lines| ensures '\n' !in lines[k] {
      EdgeLineSingle(relationships[k]);
    }
    LinesOfJoin(lines);
  }

  /** The lines of each entity's block, in input order. */
  function EntityLineBlocks(entities: seq<Entity>): (r: seq<seq<string>>)
    ensures |r| == |entities|
    ensures forall k :: 0 <= k < |entities| ==> r[k] == EntityLines(entities[k])
  {
    seq(|entities|, k requires 0 <= k < |entities| => EntityLines(entities[k]))
  }

  /** The entity section is the entity blocks in input order, one blank line
      between consecutive blocks. */
  lemma EntitiesLines(entities: seq<Entity>)
    requires |entities| >= 1
    requires SingleLineEntities(entities)
    ensures Lines(EntitiesText(entities)) == Paragraphs(EntityLineBlocks(entities))
  {
    var blocks := EntityBlocks(entities);
    LinesOfJoinBlank(blocks);
    forall k | 0 <= k < |entities| ensures LinesOfEach(blocks)[k] == EntityLineBlocks(entities)[k] {
      EntityBlockLines(entities[k]);
    }
    assert LinesOfEach(blocks) == EntityLineBlocks(entities);
  }

  /** The header followed by the entity section after a blank line. */
  lemma HeadAndEntitiesLines(entities: seq<Entity>)
    requires |entities| >= 1 && SingleLineEntities(entities)
    ensures Lines(DiagramHeader + "\n\n" + EntitiesText(entities)) ==
      [DiagramHeader, ""] + Paragraphs(EntityLineBlocks(entities))
  {
    OneLine(DiagramHeader);
    EntitiesLines(entities);
    LinesAroundBlank(DiagramHeader, EntitiesText(entities));
  }

  /** Some text followed by the relationship section after a blank line. */
  lemma EdgesAfterLines(head: string, relationships: seq<Relationship>)
    requires |relationships| >= 1 && SingleLineRelationships(relationships)
    ensures Lines(head + "\n\n" + RelationshipsText(relationships)) ==
      Lines(head) + [""] + EdgeLines(relationships)
  {
    RelationshipsLines(relationships);
    LinesAroundBlank(head, RelationshipsText(relationships));
  }

  /** The diagram line by line: the header; then, when there are entities, a
      blank line and the entity blocks separated by blank lines; then, when
      there are relationships, a blank line and one edge line each. */
  lemma DiagramLines(entities: seq<Entity>, relationships: seq<Relationship>)
    requires SingleLineEntities(entities)
    requires SingleLineRelationships(relationships)
    ensures |entities| == 0 && |relationships| == 0 ==>
      Lines(Diagram(entities, relationships)) == [DiagramHeader]
    ensures |entities| > 0 && |relationships| == 0 ==>
      Lines(Diagram(entities, relationships)) ==
        [DiagramHeader, ""] + Paragraphs(EntityLineBlocks(entities))
    ensures |entities| == 0 && |relationships| > 0 ==>
      Lines(Diagram(entities, relationships)) ==
        [DiagramHeader, ""] + EdgeLines(relationships)
    ensures |entities| > 0 && |relationships| > 0 ==>
      Lines(Diagram(entities, relationships)) ==
        [DiagramHeader, ""] + Paragraphs(EntityLineBlocks(entities)) + [""] + EdgeLines(relationships)
  {
    DiagramLayout(entities, relationships);
    OneLine(DiagramHeader);
    if |entities| > 0 {
      HeadAndEntitiesLines(entities);
      if |relationships| > 0 {
        EdgesAfterLines(DiagramHeader + "\n\n" + EntitiesText(entities), relationships);
      }
    } else if |relationships| > 0 {
      EdgesAfterLines(DiagramHeader, relationships);
    }
  }

  // ---------------------------------------------------------------------
  // Reading lines back

  /** The key role and the rest of what follows the type on an attribute line. */
  function SplitKey(tail: string): (Option<Key>, string)
  {
    if "PK " <= tail then (Some(PK), tail[3..])
    else if "FK " <= tail then (Some(FK), tail[3..])
    else (None, tail)
  }

  /** A comment in double quotes. */
  function ParseQuotedComment(q: string): Option<Comment>
  {
    if |q| >= 2 && q[0] == '"' && q[|q| - 1] == '"' then ParseComment(q[1..|q| - 1])
    else None
  }

  /** Reads an attribute line back into its column. */
  function ParseAttributeLine(line: string): Option<Attribute>
  {
    if !(AttributeIndent <= line) then None
    else ParseAttributeFields(line[|AttributeIndent|..])
  }

  /** The name up to the first space, then the rest of the line. */
  function ParseAttributeFields(s: string): Option<Attribute>
  {
    var i := IndexOf(s, ' ');
    if i == |s| then None
    else ParseAfterName(s[..i], s[i + 1..])
  }

  /** The type up to the next space, then the key role and the comment. */
  function ParseAfterName(name: string, rest: string): Option<Attribute>
  {
    var j := IndexOf(rest, ' ');
    if j == |rest| then None
    else
      var (key, quoted) := SplitKey(rest[j + 1..]);
      match ParseQuotedComment(quoted)
      case None => None
      case Some(comment) => Some(Attribute(name, rest[..j], comment, key))
  }

  /** After the space that ends the type, the key token is recognised exactly
      when there is one. */
  lemma SplitKeyAfterMarker(key: Option<Key>, quoted: string)
    requires |quoted| >= 1 && quoted[0] == '"'
    ensures SplitKey(KeyMarker(key)[1..] + quoted) == (key, quoted)
  {
    match key {
      case None =>
        assert KeyMarker(key)[1..] + quoted == quoted;
      case Some(PK) =>
        assert KeyMarker(key)[1..] + quoted == "PK " + quoted;
        assert ("PK " + quoted)[3..] == quoted;
      case Some(FK) =>
        assert KeyMarker(key)[1..] + quoted == "FK " + quoted;
        assert ("FK " + quoted)[3..] == quoted;
        assert ("FK " + quoted)[0] == 'F';
    }
  }

  /** A quoted comment is read back as that comment. */
  lemma QuotedCommentRoundTrip(c: Comment)
    ensures ParseQuotedComment(QuotedComment(c)) == Some(c)
  {
    var q := QuotedComment(c);
    assert q[1..|q| - 1] == CommentText(c);
    CommentRoundTrip(c);
  }

  /** An attribute line determines its column when name and type hold no
      space: the key token appears exactly when the column has a key role. */
  lemma AttributeLineRoundTrip(a: Attribute)
    requires ' ' !in a.name && ' ' !in a.typeName
    ensures ParseAttributeLine(AttributeLine(a)) == Some(a)
  {
    var quoted := QuotedComment(a.comment);
    var marker := KeyMarker(a.key);
    assert AttributeLine(a) == AttributeIndent + (a.name + (" " + (a.typeName + (marker + quoted))));
    SplitKeyAfterMarker(a.key, quoted);
    QuotedCommentRoundTrip(a.comment);
    ParseAttributeLineOf(a.name, a.typeName, marker, quoted, a.key, a.comment);
  }

  /** The reading of an attribute line, step by step over its pieces. */
  lemma ParseAttributeLineOf(name: string, typeName: string, marker: string, quoted: string,
                             key: Option<Key>, comment: Comment)
    requires ' ' !in name && ' ' !in typeName
    requires |marker| >= 1 && marker[0] == ' '
    requires SplitKey(marker[1..] + quoted) == (key, quoted)
    requires ParseQuotedComment(quoted) == Some(comment)
    ensures ParseAttributeLine(AttributeIndent + (name + (" " + (typeName + (marker + quoted)))))
         == Some(Attribute(name, typeName, comment, key))
  {
    var s := name + (" " + (typeName + (marker + quoted)));
    DropPrefix(AttributeIndent, s);
    NameField(name, typeName + (marker + quoted));
    TypeField(name, typeName, marker, quoted, key, comment);
  }

  /** The name ends at the first space. */
  lemma NameField(name: string, rest: string)
    requires ' ' !in name
    ensures ParseAttributeFields(name + (" " + rest)) == ParseAfterName(name, rest)
  {
    TakeWord(name, ' ', " " + rest);
    assert (" " + rest)[1..] == rest;
  }

  /** The type ends at the next space; the key role and comment follow. */
  lemma TypeField(name: string, typeName: string, marker: string, quoted: string,
                  key: Option<Key>, comment: Comment)
    requires ' ' !in typeName
    requires |marker| >= 1 && marker[0] == ' '
    requires SplitKey(marker[1..] + quoted) == (key, quoted)
    requires ParseQuotedComment(quoted) == Some(comment)
    ensures ParseAfterName(name, typeName + (marker + quoted)) == Some(Attribute(name, typeName, comment, key))
  {
    TakeWord(typeName, ' ', marker + quoted);
    assert (marker + quoted)[1..] == marker[1..] + quoted;
  }

  /** Removing a prefix leaves what followed it. */
  lemma DropPrefix(p: string, s: string)
    ensures p <= p + s && (p + s)[|p|..] == s
  {
  }

  /** A word free of `c` followed by `c`: the first `c` ends the word. */
  lemma TakeWord(w: string, c: char, rest: string)
    requires c !in w
    requires |rest| >= 1 && rest[0] == c
    ensures IndexOf(w + rest, c) == |w|
    ensures (w + rest)[..|w|] == w && (w + rest)[|w|..] == rest && (w + rest)[|w| + 1..] == rest[1..]
  {
    IndexOfAfter(w, c, rest);
  }

  /** A column list `c1, c2, ...` with at least one column. */
  function ParseColumns(s: string): Option<seq<string>>
    decreases |s|
  {
    var i := IndexOf(s, ',');
    if i == |s| then Some([s])
    else if !(", " <= s[i..]) then None
    else
      match ParseColumns(s[i + 2..])
      case None => None
      case Some(rest) => Some([s[..i]] + rest)
  }

  /** A column list, possibly empty. */
  function ParseColumnList(s: string): Option<seq<string>>
  {
    if s == "" then Some([]) else ParseColumns(s)
  }

  /** `entity(c1, c2)` for a known entity, followed by `rest`: the columns and
      the rest. */
  function ParseEndpoint(s: string, entity: string): Option<(seq<string>, string)>
  {
    if !(entity + "(" <= s) then None
    else
      var t := s[|entity| + 1..];
      var k := IndexOf(t, ')');
      if k == |t| then None
      else
        match ParseColumnList(t[..k])
        case None => None
        case Some(columns) => Some((columns, t[k + 1..]))
  }

  /** The quoted label `child(c1, c2) -> parent(p1, p2)"` of an edge between
      known tables. */
  function ParseLabel(s: string, child: string, parent: string): Option<Relationship>
  {
    match ParseEndpoint(s, child)
    case None => None
    case Some((childColumns, rest)) =>
      if !(" -> " <= rest) then None
      else
        match ParseEndpoint(rest[4..], parent)
        case None => None
        case Some((parentColumns, close)) =>
          if close != "\"" then None
          else Some(Relationship(Endpoint(child, childColumns), Endpoint(parent, parentColumns)))
  }

  /** Reads an edge line back into its relationship. */
  function ParseEdgeLine(line: string): Option<Relationship>
  {
    if !(EntityIndent <= line) then None
    else
      var s0 := line[|EntityIndent|..];
      var i := IndexOf(s0, ' ');
      var s1 := s0[i..];
      if !(EdgeArrow <= s1) then None
      else
        var s2 := s1[|EdgeArrow|..];
        var j := IndexOf(s2, ' ');
        var s3 := s2[j..];
        if !(LabelOpen <= s3) then None
        else ParseLabel(s3[|LabelOpen|..], s2[..j], s0[..i])
  }

  /** A column name the edge label can carry unambiguously. */
  predicate PlainColumn(c: string)
  {
    c != "" && ',' !in c && ')' !in c
  }

  /** A side of a foreign key whose name and columns the edge label carries
      unambiguously. */
  predicate PlainEndpoint(p: Endpoint)
  {
    ' ' !in p.entity && forall k :: 0 <= k < |p.attributes| ==> PlainColumn(p.attributes[k])
  }

  /** Columns joined by `, ` are read back as the same columns. */
  lemma {:induction false} ColumnsRoundTrip(columns: seq<string>)
    requires |columns| >= 1
    requires forall k :: 0 <= k < |columns| ==> PlainColumn(columns[k])
    ensures ParseColumns(Join(columns, ", ")) == Some(columns)
  {
    if |columns| == 1 {
      assert Join(columns, ", ") == columns[0];
      ParseOneColumn(columns[0]);
      assert columns == [columns[0]];
    } else {
      var tail := Join(columns[1..], ", ");
      assert Join(columns, ", ") == columns[0] + (", " + tail);
      ColumnsRoundTrip(columns[1..]);
      ParseColumnsCons(columns[0], tail, columns[1..]);
      assert columns == [columns[0]] + columns[1..];
    }
  }

  /** A column list without a comma is one column. */
  lemma ParseOneColumn(column: string)
    requires ',' !in column
    ensures ParseColumns(column) == Some([column])
  {
    IndexOfAfter(column, ',', "");
    assert column + "" == column;
  }

  /** A first column, then `, ` and further columns. */
  lemma ParseColumnsCons(first: string, tail: string, rest: seq<string>)
    requires ',' !in first
    requires ParseColumns(tail) == Some(rest)
    ensures ParseColumns(first + (", " + tail)) == Some([first] + rest)
  {
    TakeWord(first, ',', ", " + tail);
    assert (first + (", " + tail))[|first|..][..2] == ", ";
    assert (first + (", " + tail))[|first| + 2..] == tail;
  }

  /** An endpoint as the edge label writes it is read back, with what follows
      it left over. */
  lemma EndpointRoundTrip(p: Endpoint, rest: string)
    requires PlainEndpoint(p)
    ensures ParseEndpoint(EndpointText(p) + rest, p.entity) == Some((p.attributes, rest))
  {
    var list := Join(p.attributes, ", ");
    assert EndpointText(p) + rest == p.entity + "(" + (list + (")" + rest));
    ColumnListRoundTrip(p.attributes);
    EndpointOf(p.entity, list, rest);
  }

  /** `entity(list)` followed by `rest`, for a list without `)`. */
  lemma EndpointOf(entity: string, list: string, rest: string)
    requires ')' !in list
    ensures ParseEndpoint(entity + "(" + (list + (")" + rest)), entity) ==
      match ParseColumnList(list)
      case None => None
      case Some(columns) => Some((columns, rest))
  {
    var s := entity + "(" + (list + (")" + rest));
    var t := s[|entity| + 1..];
    assert t == list + (")" + rest);
    IndexOfAfter(list, ')', ")" + rest);
    assert t[..|list|] == list;
    assert t[|list| + 1..] == rest;
  }

  /** Plain columns joined by `, ` are read back, the empty list included,
      and the joined text holds no `)`. */
  lemma ColumnListRoundTrip(columns: seq<string>)
    requires forall k :: 0 <= k < |columns| ==> PlainColumn(columns[k])
    ensures ParseColumnList(Join(columns, ", ")) == Some(columns)
    ensures ')' !in Join(columns, ", ")
  {
    forall k | 0 <= k < |columns| ensures ')' !in columns[k] { }
    JoinFree(columns, ", ", ')');
    if |columns| > 0 {
      ColumnsRoundTrip(columns);
      assert Join(columns, ", ") != "" by {
        JoinLast(columns, ", ");
      }
    }
  }

  /** The label of an edge, with its closing quote, is read back into the
      relationship it was written from. */
  lemma LabelRoundTrip(r: Relationship)
    requires PlainEndpoint(r.child) && PlainEndpoint(r.parent)
    ensures ParseLabel(EdgeLabel(r) + "\"", r.child.entity, r.parent.entity) == Some(r)
  {
    var tail := EndpointText(r.parent) + "\"";
    var rest := " -> " + tail;
    assert EdgeLabel(r) + "\"" == EndpointText(r.child) + rest;
    EndpointRoundTrip(r.child, rest);
    assert rest[4..] == tail;
    EndpointRoundTrip(r.parent, "\"");
  }

  /** The reading of an edge line up to its label, step by step over its
      pieces. */
  lemma ParseEdgeLineOf(parent: string, child: string, quotedLabel: string)
    requires ' ' !in parent && ' ' !in child
    ensures ParseEdgeLine(EntityIndent + (parent + (EdgeArrow + (child + (LabelOpen + quotedLabel)))))
         == ParseLabel(quotedLabel, child, parent)
  {
    var s2 := child + (LabelOpen + quotedLabel);
    var s0 := parent + (EdgeArrow + s2);
    DropPrefix(EntityIndent, s0);
    TakeWord(parent, ' ', EdgeArrow + s2);
    DropPrefix(EdgeArrow, s2);
    TakeWord(child, ' ', LabelOpen + quotedLabel);
    DropPrefix(LabelOpen, quotedLabel);
  }

  /** An edge line determines its relationship when table names hold no space
      and the columns are plain. */
  lemma EdgeLineRoundTrip(r: Relationship)
    requires PlainEndpoint(r.child) && PlainEndpoint(r.parent)
    ensures ParseEdgeLine(EdgeLine(r)) == Some(r)
  {
    var p, c := r.parent.entity, r.child.entity;
    var quotedLabel := EdgeLabel(r) + "\"";
    assert EdgeLine(r) == EntityIndent + (p + (EdgeArrow + (c + (LabelOpen + quotedLabel))));
    ParseEdgeLineOf(p, c, quotedLabel);
    LabelRoundTrip(r);
  }

  // ---------------------------------------------------------------------
  // The documented cases
  //
  // The expected lines are literal strings. The verifier does not evaluate a
  // concatenation of literals into one literal in a single step once the
  // text grows past a few dozen characters, so each expected line is built
  // up one piece at a time, each assert adding one piece to the text before.

  /** The two tables of the documented case with a relationship: `post` and
      `user`, each with a nullable `id` of type `uuid` and no key role. */
  predicate IsExampleEntities(entities: seq<Entity>)
  {
    entities == [Entity("post", [Attribute("id", "uuid", Null, None)]),
                 Entity("user", [Attribute("id", "uuid", Null, None)])]
  }

  /** The foreign key `post(author_id) -> user(id)`. */
  predicate IsExampleRelationships(relationships: seq<Relationship>)
  {
    relationships == [Relationship(Endpoint("post", ["author_id"]), Endpoint("user", ["id"]))]
  }

  /** Two tables and one foreign key: the header, the two blocks separated by
      a blank line, a blank line and the edge from parent to child. */
  lemma RelationshipExample(entities: seq<Entity>, relationships: seq<Relationship>)
    requires IsExampleEntities(entities) && IsExampleRelationships(relationships)
    ensures Lines(Diagram(entities, relationships)) ==
      ["erDiagram", "", "    post {", "        id uuid \"null\"", "    }",
       "", "    user {", "        id uuid \"null\"", "    }",
       "", "    user ||--o{ post : \"post(author_id) -> user(id)\""]
  {
    ExampleBlocks(entities);
    ExampleEdgeLine(relationships);
    ExampleSingleLine(entities, relationships);
    var edges := EdgeLines(relationships);
    assert edges == [edges[0]];
    DiagramLines(entities, relationships);
  }

  /** The records of the documented case hold no newline. */
  lemma ExampleSingleLine(entities: seq<Entity>, relationships: seq<Relationship>)
    requires IsExampleEntities(entities) && IsExampleRelationships(relationships)
    ensures SingleLineEntities(entities) && SingleLineRelationships(relationships)
  {
    assert SingleLineEntity(entities[0]) && SingleLineEntity(entities[1]);
    assert SingleLineRelationship(relationships[0]);
  }

  /** The entity section of the documented case, line by line. */
  lemma ExampleBlocks(entities: seq<Entity>)
    requires IsExampleEntities(entities)
    ensures Paragraphs(EntityLineBlocks(entities)) ==
      ["    post {", "        id uuid \"null\"", "    }",
       "", "    user {", "        id uuid \"null\"", "    }"]
  {
    ExampleEntityLines(entities);
    var blocks := EntityLineBlocks(entities);
    assert blocks == [blocks[0], blocks[1]];
    assert blocks[1..] == [blocks[1]];
    assert Paragraphs(blocks) == blocks[0] + [""] + blocks[1];
  }

  /** The lines of the two blocks of the documented case. */
  lemma ExampleEntityLines(entities: seq<Entity>)
    requires IsExampleEntities(entities)
    ensures EntityLines(entities[0]) == ["    post {", "        id uuid \"null\"", "    }"]
    ensures EntityLines(entities[1]) == ["    user {", "        id uuid \"null\"", "    }"]
  {
    NullableLine(entities[0].attributes[0]);
    NullableLine(entities[1].attributes[0]);
    assert EntityIndent + "post" + " {" == "    post {";
    assert EntityIndent + "user" + " {" == "    user {";
  }

  /** `id uuid "null"`. */
  lemma NullableLine(a: Attribute)
    requires a == Attribute("id", "uuid", Null, None)
    ensures AttributeLine(a) == "        id uuid \"null\""
  {
    assert QuotedComment(a.comment) == "\"null\"";
    assert AttributeIndent + "id" == "        id";
    assert "        id" + " " == "        id ";
    assert "        id " + "uuid" == "        id uuid";
    assert "        id uuid" + " " == "        id uuid ";
    assert "        id uuid " + "\"null\"" == "        id uuid \"null\"";
  }

  /** The label of the edge of the documented case. */
  lemma ExampleLabel(r: Relationship)
    requires r == Relationship(Endpoint("post", ["author_id"]), Endpoint("user", ["id"]))
    ensures EdgeLabel(r) == "post(author_id) -> user(id)"
  {
    assert Join(["author_id"], ", ") == "author_id";
    assert Join(["id"], ", ") == "id";
    assert EndpointText(r.child) == "post(author_id)";
    assert EndpointText(r.parent) == "user(id)";
    assert "post(author_id)" + " -> " == "post(author_id) -> ";
    assert "post(author_id) -> " + "user(id)" == "post(author_id) -> user(id)";
  }

  /** The edge line of the documented case. */
  lemma ExampleEdgeLine(relationships: seq<Relationship>)
    requires IsExampleRelationships(relationships)
    ensures EdgeLines(relationships)[0] == "    user ||--o{ post : \"post(author_id) -> user(id)\""
  {
    ExampleLabel(relationships[0]);
    ExampleEdgeHead();
    ExampleEdgeText();
  }

  /** The whole text of the edge line of the documented case. */
  lemma ExampleEdgeText()
    ensures "    user ||--o{ post : \"" + "post(author_id) -> user(id)" + "\""
         == "    user ||--o{ post : \"post(author_id) -> user(id)\""
  {
    assert "    user ||--o{ post : \"" + "post(author_id) -> user(id)"
        == "    user ||--o{ post : \"post(author_id) -> user(id)";
  }

  /** The edge line of the documented case up to its label. */
  lemma ExampleEdgeHead()
    ensures EntityIndent + "user" + EdgeArrow + "post" + LabelOpen == "    user ||--o{ post : \""
  {
    assert EntityIndent + "user" == "    user";
    assert "    user" + EdgeArrow == "    user ||--o{ ";
    assert "    user ||--o{ " + "post" == "    user ||--o{ post";
    assert "    user ||--o{ post" + LabelOpen == "    user ||--o{ post : \"";
  }

  /** The three tables of the documented case with key roles: `category`
      without columns, `post` with a primary and a foreign key column,
      `user` with a column without key role. */
  predicate IsKeyedEntities(entities: seq<Entity>)
  {
    entities == [Entity("category", []),
                 Entity("post", [Attribute("id", "uuid", NotNull, Some(PK)),
                                 Attribute("author_id", "uuid", Null, Some(FK))]),
                 Entity("user", [Attribute("id", "uuid", Null, None)])]
  }

  /** Tables without relationships: a table without columns is its header and
      footer alone, and the key role stands between the type and the comment. */
  lemma KeyedEntitiesExample(entities: seq<Entity>)
    requires IsKeyedEntities(entities)
    ensures Lines(Diagram(entities, [])) ==
      ["erDiagram", "", "    category {", "    }",
       "", "    post {", "        id uuid PK \"not null\"", "        author_id uuid FK \"null\"", "    }",
       "", "    user {", "        id uuid \"null\"", "    }"]
  {
    KeyedBlocks(entities);
    KeyedSingleLine(entities);
    DiagramLines(entities, []);
  }

  /** The tables of the documented case with key roles hold no newline. */
  lemma KeyedSingleLine(entities: seq<Entity>)
    requires IsKeyedEntities(entities)
    ensures SingleLineEntities(entities) && SingleLineRelationships([])
  {
    assert SingleLineEntity(entities[0]) && SingleLineEntity(entities[1]) && SingleLineEntity(entities[2]);
  }

  /** The entity section of the documented case with key roles, line by
      line. */
  lemma KeyedBlocks(entities: seq<Entity>)
    requires IsKeyedEntities(entities)
    ensures Paragraphs(EntityLineBlocks(entities)) ==
      ["    category {", "    }",
       "", "    post {", "        id uuid PK \"not null\"", "        author_id uuid FK \"null\"", "    }",
       "", "    user {", "        id uuid \"null\"", "    }"]
  {
    KeyedEntityLines(entities);
    var blocks := EntityLineBlocks(entities);
    assert blocks == [blocks[0], blocks[1], blocks[2]];
    ParagraphsThree(blocks[0], blocks[1], blocks[2]);
  }

  /** The lines of the three blocks of the documented case with key roles. */
  lemma KeyedEntityLines(entities: seq<Entity>)
    requires IsKeyedEntities(entities)
    ensures EntityLines(entities[0]) == ["    category {", "    }"]
    ensures EntityLines(entities[1]) ==
      ["    post {", "        id uuid PK \"not null\"", "        author_id uuid FK \"null\"", "    }"]
    ensures EntityLines(entities[2]) == ["    user {", "        id uuid \"null\"", "    }"]
  {
    assert EntityIndent + "category" + " {" == "    category {";
    assert EntityIndent + "post" + " {" == "    post {";
    assert EntityIndent + "user" + " {" == "    user {";
    PrimaryKeyLine(entities[1].attributes[0]);
    ForeignKeyLine(entities[1].attributes[1]);
    NullableLine(entities[2].attributes[0]);
  }

  /** `id uuid PK "not null"`. */
  lemma PrimaryKeyLine(a: Attribute)
    requires a == Attribute("id", "uuid", NotNull, Some(PK))
    ensures AttributeLine(a) == "        id uuid PK \"not null\""
  {
    assert KeyMarker(a.key) == " PK ";
    assert QuotedComment(a.comment) == "\"not null\"";
    assert AttributeIndent + "id" == "        id";
    assert "        id" + " " == "        id ";
    assert "        id " + "uuid" == "        id uuid";
    assert "        id uuid" + " PK " == "        id uuid PK ";
    assert "        id uuid PK " + "\"not null\"" == "        id uuid PK \"not null\"";
  }

  /** `author_id uuid FK "null"`. */
  lemma ForeignKeyLine(a: Attribute)
    requires a == Attribute("author_id", "uuid", Null, Some(FK))
    ensures AttributeLine(a) == "        author_id uuid FK \"null\""
  {
    assert KeyMarker(a.key) == " FK ";
    assert QuotedComment(a.comment) == "\"null\"";
    assert AttributeIndent + "author_id" == "        author_id";
    assert "        author_id" + " " == "        author_id ";
    assert "        author_id " + "uuid" == "        author_id uuid";
    assert "        author_id uuid" + " FK " == "        author_id uuid FK ";
    assert "        author_id uuid FK " + "\"null\"" == "        author_id uuid FK \"null\"";
  }
}
