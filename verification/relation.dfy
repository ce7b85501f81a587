/** `Relation` (plant_uml.rb): a foreign-key edge between two tables. */
module Relations {
  import opened Base
  import opened Text

  /** The table holding the foreign key and the table it references. */
  datatype Relation = Relation(from: string, to: string)

  /** The many-to-one arrow of every edge line. */
  const Arrow: string := " --|{ "

  /** `Relation#to_plantuml`: the referenced table, the arrow, the referencing table. */
  function RelationLine(r: Relation): (line: string)
    ensures |line| == |r.to| + |Arrow| + |r.from|
    ensures line[..|r.to|] == r.to
    ensures line[|r.to|..|r.to| + |Arrow|] == Arrow
    ensures line[|r.to| + |Arrow|..] == r.from
  {
    r.to + Arrow + r.from
  }

  /** Reads a relation back from its edge line. */
  function ParseRelationLine(line: string): (r: Option<Relation>)
    ensures r.Some? ==> RelationLine(r.value) == line
  {
    var k := FirstSpace(line);
    if k + |Arrow| <= |line| && line[k..k + |Arrow|] == Arrow then
      assert line == line[..k] + Arrow + line[k + |Arrow|..];
      Some(Relation(line[k + |Arrow|..], line[..k]))
    else
      None
  }

  /** The edge line determines the relation when the referenced name has no space. */
  lemma RelationLineRoundTrip(r: Relation)
    requires NoSpace(r.to)
    ensures ParseRelationLine(RelationLine(r)) == Some(r)
  {
    var line := RelationLine(r);
    assert line == r.to + " " + ("--|{ " + r.from);
    FirstSpaceAfterWord(r.to, "--|{ " + r.from);
  }

  /** The edge line depends on the two names only, and tells them apart. */
  lemma RelationLineInjective(a: Relation, b: Relation)
    requires NoSpace(a.to) && NoSpace(b.to)
    ensures RelationLine(a) == RelationLine(b) <==> a == b
  {
    if RelationLine(a) == RelationLine(b) {
      RelationLineRoundTrip(a);
      RelationLineRoundTrip(b);
    }
  }
}
