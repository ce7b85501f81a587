/** `Table` (plant_uml.rb): an ordered list of columns built by open-ended
    directives, foreign-key flagging by column name, and the entity block. */
module Tables {
  import opened Base
  import opened Text
  import opened Columns

  /** A table and its columns in declaration order. The synthetic `id`
      primary key is rendered but never stored. */
  datatype Table = Table(name: string, columns: seq<Column>)

  /** One call `t.<name>(<column>, ...)` inside a `create_table` block: Ruby's
      `method_missing` dispatch made explicit. Only the first argument, the
      column name, matters; the rest are ignored by the source. */
  datatype Directive = Directive(name: string, column: string)

  /** The only directive name that does not introduce a column. */
  const IndexDirective: string := "index"

  /** Two column lists that agree on everything but the foreign-key flags. */
  predicate SameShape(a: seq<Column>, b: seq<Column>)
  {
    |a| == |b| && forall i :: 0 <= i < |a| ==> a[i].name == b[i].name && a[i].colType == b[i].colType
  }

  /** `Table#method_missing`: `index` is ignored; any other directive name is
      taken as a column type and appends exactly one fresh column. */
  function ApplyDirective(t: Table, d: Directive): (r: Table)
    ensures r.name == t.name
    ensures d.name == IndexDirective ==> r == t
    ensures d.name != IndexDirective ==>
      && |r.columns| == |t.columns| + 1
      && r.columns[..|t.columns|] == t.columns
      && r.columns[|t.columns|] == NewColumn(d.column, d.name)
  {
    if d.name == IndexDirective then t
    else t.(columns := t.columns + [NewColumn(d.column, d.name)])
  }

  /** `Table.new(name)` followed by the directives of a `create_table` block, in order. */
  function BuildTable(name: string, body: seq<Directive>): (t: Table)
    ensures t.name == name
    ensures |t.columns| <= |body|
    decreases |body|
  {
    if |body| == 0 then Table(name, [])
    else ApplyDirective(BuildTable(name, body[..|body| - 1]), body[|body| - 1])
  }

  /** Reference definition: the columns a block declares, one per non-`index`
      directive, in order, none of them flagged. */
  function DeclaredColumns(body: seq<Directive>): seq<Column>
    decreases |body|
  {
    if |body| == 0 then []
    else if body[0].name == IndexDirective then DeclaredColumns(body[1..])
    else [NewColumn(body[0].column, body[0].name)] + DeclaredColumns(body[1..])
  }

  lemma {:induction false} DeclaredColumnsAppend(a: seq<Directive>, b: seq<Directive>)
    ensures DeclaredColumns(a + b) == DeclaredColumns(a) + DeclaredColumns(b)
    decreases |a|
  {
    if |a| == 0 {
      assert a + b == b;
    } else {
      assert (a + b)[1..] == a[1..] + b;
      DeclaredColumnsAppend(a[1..], b);
    }
  }

  /** Building a table yields exactly the declared columns: directive order
      is kept, `index` contributes nothing, and no column is a foreign key. */
  lemma {:induction false} BuildTableColumns(name: string, body: seq<Directive>)
    ensures BuildTable(name, body) == Table(name, DeclaredColumns(body))
    decreases |body|
  {
    if |body| > 0 {
      var init := body[..|body| - 1];
      var last := body[|body| - 1];
      assert body == init + [last];
      BuildTableColumns(name, init);
      DeclaredColumnsAppend(init, [last]);
      assert [last][1..] == [];
    }
  }

  /** No column of a freshly built table is a foreign key. */
  lemma BuildTableUnflagged(name: string, body: seq<Directive>)
    ensures forall i :: 0 <= i < |BuildTable(name, body).columns| ==> !BuildTable(name, body).columns[i].foreignKey
  {
  }

  /** The column names, in declaration order. */
  function ColumnNames(cols: seq<Column>): (names: seq<string>)
    ensures |names| == |cols|
    ensures forall i :: 0 <= i < |cols| ==> names[i] == cols[i].name
  {
    seq(|cols|, i requires 0 <= i < |cols| => cols[i].name)
  }

  /** `i` is the first position of a column named `n`. */
  predicate FirstNamed(cols: seq<Column>, n: string, i: int)
  {
    FirstAt(ColumnNames(cols), n, i)
  }

  /** Ruby's `columns.detect { |c| c.name == n }`, as a position. */
  function FindColumn(cols: seq<Column>, n: string): (r: Option<nat>)
    ensures r.None? ==> forall i :: 0 <= i < |cols| ==> cols[i].name != n
    ensures r.Some? ==> FirstNamed(cols, n, r.value) && cols[r.value].name == n
  {
    var r := IndexOf(ColumnNames(cols), n);
    assert forall i :: 0 <= i < |cols| ==> ColumnNames(cols)[i] in ColumnNames(cols);
    r
  }

  /** The lookup reads names only, so flags never change where it lands. */
  lemma FindColumnShape(a: seq<Column>, b: seq<Column>, n: string)
    requires SameShape(a, b)
    ensures FindColumn(a, n) == FindColumn(b, n)
  {
  }

  /** The table after `Table#add_foreign_key` and whether a column was found. */
  datatype Flagging = Flagging(table: Table, found: bool)

  /** `Table#add_foreign_key`: flag the first column named `n`; report
      whether there was one. */
  function AddForeignKey(t: Table, n: string): (r: Flagging)
    ensures r.found <==> exists i :: 0 <= i < |t.columns| && t.columns[i].name == n
    ensures !r.found ==> r.table == t
    ensures r.table.name == t.name
    ensures SameShape(t.columns, r.table.columns)
    ensures r.found ==> exists i ::
      && FirstNamed(t.columns, n, i)
      && r.table.columns[i].foreignKey
      && (forall j :: 0 <= j < |t.columns| && j != i ==> r.table.columns[j] == t.columns[j])
  {
    match FindColumn(t.columns, n)
    case None => Flagging(t, false)
    case Some(i) =>
      Flagging(t.(columns := t.columns[i := t.columns[i].(foreignKey := true)]), true)
  }

  /** Flagging the same column twice is the same as flagging it once. */
  lemma AddForeignKeyIdempotent(t: Table, n: string)
    ensures AddForeignKey(AddForeignKey(t, n).table, n) == AddForeignKey(t, n)
  {
  }

  /** The column lines of a table, in declaration order. */
  function ColumnLines(cols: seq<Column>): seq<string>
  {
    seq(|cols|, i requires 0 <= i < |cols| => ColumnLine(cols[i]))
  }

  function EntityHeader(t: Table): string
  {
    "entity \"" + t.name + "\" as " + t.name + " {"
  }

  const IdLine: string := "  id : integer <<generated>>"
  const RuleLine: string := "  --"
  const CloseLine: string := "}"

  /** `Table#to_plantuml`, written as the heredoc is: the header, the
      generated id, the rule, the column lines joined by an indented
      newline, the closing brace. */
  function TableBlock(t: Table): (block: string)
    ensures block == Unlines(TableLines(t))
  {
    var h := EntityHeader(t) + "\n" + IdLine + "\n" + RuleLine + "\n";
    var m := "  " + Join(ColumnLines(t.columns), "\n  ") + "\n";
    var c := CloseLine + "\n";
    var head := [EntityHeader(t), IdLine, RuleLine];
    var body := ColumnSection(t.columns);
    UnlinesAppend(head + body, [CloseLine]);
    UnlinesAppend(head, body);
    UnlinesThree(EntityHeader(t), IdLine, RuleLine);
    ColumnSectionText(t.columns);
    assert Unlines([CloseLine]) == c;
    assert Unlines(TableLines(t)) == h + m + c;
    h + m + c
  }

  /** The indented column lines; a table without columns keeps the
      indentation of the empty interpolation line. */
  function ColumnSection(cols: seq<Column>): seq<string>
  {
    if |cols| == 0 then ["  "] else Indent(ColumnLines(cols))
  }

  lemma ColumnSectionText(cols: seq<Column>)
    ensures "  " + Join(ColumnLines(cols), "\n  ") + "\n" == Unlines(ColumnSection(cols))
  {
    if |cols| == 0 {
      assert Unlines(["  "]) == "  " + "\n";
    } else {
      JoinIndented(ColumnLines(cols));
    }
  }

  /** Reference definition of the entity block, line by line. */
  function TableLines(t: Table): seq<string>
  {
    [EntityHeader(t), IdLine, RuleLine] + ColumnSection(t.columns) + [CloseLine]
  }

  /** The entity block has the header, the id line and the rule, then one
      line per column in declaration order, then the closing brace. */
  lemma TableLinesShape(t: Table)
    ensures |TableLines(t)| == 4 + (if |t.columns| == 0 then 1 else |t.columns|)
    ensures TableLines(t)[0] == EntityHeader(t) && TableLines(t)[1] == IdLine && TableLines(t)[2] == RuleLine
    ensures TableLines(t)[|TableLines(t)| - 1] == CloseLine
    ensures forall i :: 0 <= i < |t.columns| ==> TableLines(t)[3 + i] == "  " + ColumnLine(t.columns[i])
  {
  }

}
