/** `Column` (plant_uml.rb): one attribute of a table and its one-line rendering. */
module Columns {
  import opened Base
  import opened Text

  /** A column's name, its declared type, and whether it has been flagged
      as a foreign key. Ruby symbols are modelled as plain strings. */
  datatype Column = Column(name: string, colType: string, foreignKey: bool)

  /** The marker that starts the line of a foreign-key column. */
  const Marker: char := '*'

  /** What separates a column's name from its type on its line. */
  const Separator: string := " : "

  /** `Column.new(name, type)`: a fresh column is never a foreign key. */
  function NewColumn(name: string, colType: string): (c: Column)
    ensures c.name == name && c.colType == colType
    ensures !c.foreignKey
  {
    Column(name, colType, false)
  }

  /** `Column#to_plantuml`: the optional marker, the name, the separator, the type. */
  function ColumnLine(c: Column): (line: string)
    ensures |line| == (if c.foreignKey then 1 else 0) + |c.name| + |Separator| + |c.colType|
    ensures c.foreignKey ==> line[0] == Marker
    ensures line[(if c.foreignKey then 1 else 0)..|line| - |c.colType| - |Separator|] == c.name
    ensures line[|line| - |c.colType| - |Separator|..] == Separator + c.colType
  {
    (if c.foreignKey then [Marker] else []) + c.name + Separator + c.colType
  }

  /** A name that reads back unambiguously from a column line: no space,
      and no leading marker. Every Ruby identifier qualifies. */
  predicate PlainName(s: string)
  {
    NoSpace(s) && (|s| == 0 || s[0] != Marker)
  }

  /** Reads a column back from its rendered line. */
  function ParseColumnLine(line: string): (r: Option<Column>)
    ensures r.Some? ==> ColumnLine(r.value) == line
  {
    var flagged := |line| > 0 && line[0] == Marker;
    var body := if flagged then line[1..] else line;
    var k := FirstSpace(body);
    if k + |Separator| <= |body| && body[k..k + |Separator|] == Separator then
      assert body == body[..k] + Separator + body[k + |Separator|..];
      Some(Column(body[..k], body[k + |Separator|..], flagged))
    else
      None
  }

  /** The line of a column with a plain name determines the column. */
  lemma ColumnLineRoundTrip(c: Column)
    requires PlainName(c.name)
    ensures ParseColumnLine(ColumnLine(c)) == Some(c)
  {
    var line := ColumnLine(c);
    var body := c.name + Separator + c.colType;
    if c.foreignKey {
      assert line[1..] == body;
    } else if |c.name| > 0 {
      assert line[0] == c.name[0];
    } else {
      assert line[0] == ' ';
    }
    var flagged := |line| > 0 && line[0] == Marker;
    assert flagged == c.foreignKey;
    assert (if flagged then line[1..] else line) == body;
    assert body == c.name + " " + (": " + c.colType);
    FirstSpaceAfterWord(c.name, ": " + c.colType);
    assert body[..|c.name|] == c.name;
    assert body[|c.name|..|c.name| + |Separator|] == Separator;
    assert body[|c.name| + |Separator|..] == c.colType;
  }

  /** For a plain name, the line starts with the marker exactly when the
      column is a foreign key. */
  lemma MarkerIffForeignKey(c: Column)
    requires PlainName(c.name)
    ensures ColumnLine(c)[0] == Marker <==> c.foreignKey
  {
  }

}
