/** The three record shapes the catalog queries produce and the generators
    consume, with the two closed string unions of an attribute: its
    nullability comment and its key role. */
module Types {
  import opened Wrappers

  /** Nullability of a column, written `'not null'` or `'null'`. */
  datatype Comment = NotNull | Null

  /** Key role of a column: primary or foreign; no role is `None`. */
  datatype Key = PK | FK

  /** One column of an entity. `typeName` is the column's type string. */
  datatype Attribute = Attribute(name: string, typeName: string, comment: Comment, key: Option<Key>)

  /** A table: its name and its columns in order. */
  datatype Entity = Entity(name: string, attributes: seq<Attribute>)

  /** One side of a foreign key: a table and its columns in order. */
  datatype Endpoint = Endpoint(entity: string, attributes: seq<string>)

  /** A foreign-key edge from the child (referencing) table to the parent
      (referenced) table, possibly over several columns. */
  datatype Relationship = Relationship(child: Endpoint, parent: Endpoint)

  /** A table and the names of its indexes in order. */
  datatype TableIndexes = TableIndexes(name: string, indexes: seq<string>)

  /** The literal a comment is written as; it is one of exactly two strings. */
  function CommentText(c: Comment): (s: string)
    ensures s == "not null" || s == "null"
  {
    match c
    case NotNull => "not null"
    case Null => "null"
  }

  /** The literal a key role is written as; it is one of exactly two strings. */
  function KeyText(k: Key): (s: string)
    ensures s == "PK" || s == "FK"
  {
    match k
    case PK => "PK"
    case FK => "FK"
  }

  /** Validation of the comment field: only the two literals are accepted. */
  function ParseComment(s: string): (r: Option<Comment>)
    ensures r.Some? <==> (s == "not null" || s == "null")
    ensures r.Some? ==> CommentText(r.value) == s
  {
    if s == "not null" then Some(NotNull)
    else if s == "null" then Some(Null)
    else None
  }

  /** Validation of the nullable key field: `null` (here `None`), `'PK'` and
      `'FK'` are accepted; the outer `None` means the value is rejected. */
  function ParseKey(k: Option<string>): (r: Option<Option<Key>>)
    ensures r.Some? <==> (k == None || k == Some("PK") || k == Some("FK"))
    ensures r == Some(None) <==> k == None
    ensures forall key :: r == Some(Some(key)) ==> k == Some(KeyText(key))
  {
    match k
    case None => Some(None)
    case Some(s) =>
      if s == "PK" then Some(Some(PK))
      else if s == "FK" then Some(Some(FK))
      else None
  }

  /** Every comment is accepted back from its literal, and no two comments
      share a literal. */
  lemma CommentRoundTrip(c: Comment)
    ensures ParseComment(CommentText(c)) == Some(c)
  {
  }

  /** Every key role, and the absent role, is accepted back from what it is
      written as. */
  lemma KeyRoundTrip(k: Option<Key>)
    ensures ParseKey(match k case None => None case Some(key) => Some(KeyText(key))) == Some(k)
  {
  }
}
