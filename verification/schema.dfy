/** `ActiveRecord::Schema` (plant_uml.rb): the aggregate of tables and
    relations, built by a sequence of declarations. */
module ActiveRecordSchema {
  import opened Base
  import opened Columns
  import opened Tables
  import opened Relations

  /** The tables and relations in the order they were declared. */
  datatype Schema = Schema(tables: seq<Table>, relations: seq<Relation>)

  /** The instance before any declaration: both lists empty. */
  const Empty: Schema := Schema([], [])

  /** One statement of a schema definition, as `instance_eval` dispatches it.
      `Unknown` stands for a call that reaches `method_missing`: its `name`
      is any declaration name other than `create_table` and `add_foreign_key`. */
  datatype Declaration =
    | CreateTable(name: string, body: seq<Directive>)
    | AddForeignKey(from: string, to: string, column: Option<string>)
    | Unknown(name: string, args: seq<string>)

  /** The two `WARN:` lines the source prints; neither stops the run. */
  datatype Warning =
    | UnresolvedForeignKey(from: string, to: string, column: Option<string>)
    | MissingDefinition(name: string, args: seq<string>)

  /** What aborts the run: a foreign key from a table never declared, where
      the source calls `add_foreign_key` on `nil`. */
  datatype Error = UndeclaredTable(name: string)

  /** The schema after one declaration and the warning it printed, if any. */
  datatype Step = Step(schema: Schema, warning: Option<Warning>)

  /** `create_table`: build the table from its block, then append it. */
  function CreateTableStep(s: Schema, name: string, body: seq<Directive>): (r: Schema)
    ensures |r.tables| == |s.tables| + 1
    ensures r.tables[..|s.tables|] == s.tables
    ensures r.tables[|s.tables|] == Table(name, DeclaredColumns(body))
    ensures r.relations == s.relations
  {
    BuildTableColumns(name, body);
    s.(tables := s.tables + [BuildTable(name, body)])
  }

  /** The column a foreign key flags: the explicit `column:` option when
      given, otherwise `to` with its last character dropped, plus `_id`. */
  function JoinColumn(to: string, column: Option<string>): (c: string)
    ensures column.Some? ==> c == column.value
    ensures column.None? ==> |c| == (if |to| == 0 then 0 else |to| - 1) + 3
    ensures column.None? ==> c[|c| - 3..] == "_id"
    ensures column.None? && |to| > 0 ==> c[..|to| - 1] == to[..|to| - 1]
  {
    match column
    case Some(c) => c
    case None => (if |to| == 0 then "" else to[..|to| - 1]) + "_id"
  }

  /** The naming convention on a plural table name: `users` gives `user_id`. */
  lemma JoinColumnOfPlural(singular: string)
    ensures JoinColumn(singular + "s", None) == singular + "_id"
  {
  }

  /** The table names, in declaration order. */
  function TableNames(tables: seq<Table>): (names: seq<string>)
    ensures |names| == |tables|
    ensures forall i :: 0 <= i < |tables| ==> names[i] == tables[i].name
  {
    seq(|tables|, i requires 0 <= i < |tables| => tables[i].name)
  }

  /** `i` is the first position of a table named `n`. */
  predicate FirstTableNamed(tables: seq<Table>, n: string, i: int)
  {
    FirstAt(TableNames(tables), n, i)
  }

  /** Ruby's `tables.detect { |t| t.name == n }`, as a position. */
  function FindTable(tables: seq<Table>, n: string): (r: Option<nat>)
    ensures r.None? ==> forall i :: 0 <= i < |tables| ==> tables[i].name != n
    ensures r.Some? ==> FirstTableNamed(tables, n, r.value) && tables[r.value].name == n
  {
    var r := IndexOf(TableNames(tables), n);
    assert forall i :: 0 <= i < |tables| ==> TableNames(tables)[i] in TableNames(tables);
    r
  }

  /** `add_foreign_key`: append the relation, then flag the join column on
      the first table named `from`, warning when it has no such column. */
  function AddForeignKeyStep(s: Schema, from: string, to: string, column: Option<string>): (r: Result<Step, Error>)
    ensures r.Err? <==> forall i :: 0 <= i < |s.tables| ==> s.tables[i].name != from
    ensures r.Err? ==> r.error == UndeclaredTable(from)
    ensures r.Ok? ==> r.value.schema.relations == s.relations + [Relation(from, to)]
    ensures r.Ok? ==> |r.value.schema.tables| == |s.tables|
    ensures r.Ok? ==> exists k ::
      && FirstTableNamed(s.tables, from, k)
      && (forall j :: 0 <= j < |s.tables| && j != k ==> r.value.schema.tables[j] == s.tables[j])
      && r.value.schema.tables[k] == Tables.AddForeignKey(s.tables[k], JoinColumn(to, column)).table
      && (r.value.warning.None? <==> Tables.AddForeignKey(s.tables[k], JoinColumn(to, column)).found)
    ensures r.Ok? && r.value.warning.Some? ==> r.value.warning.value == UnresolvedForeignKey(from, to, column)
  {
    var relations := s.relations + [Relation(from, to)];
    match FindTable(s.tables, from)
    case None => Err(UndeclaredTable(from))
    case Some(k) =>
      var flagging := Tables.AddForeignKey(s.tables[k], JoinColumn(to, column));
      var tables := s.tables[k := flagging.table];
      Ok(Step(Schema(tables, relations),
              if flagging.found then None else Some(UnresolvedForeignKey(from, to, column))))
  }

  /** `method_missing`: an unknown declaration only warns. */
  function UnknownStep(s: Schema, name: string, args: seq<string>): (r: Step)
    ensures r.schema == s
    ensures r.warning == Some(MissingDefinition(name, args))
  {
    Step(s, Some(MissingDefinition(name, args)))
  }

  /** One declaration against the current schema. */
  function Declare(s: Schema, d: Declaration): (r: Result<Step, Error>)
    ensures d.CreateTable? ==> r.Ok? && r.value.warning.None?
    ensures d.Unknown? ==> r.Ok? && r.value.schema == s
  {
    match d
    case CreateTable(name, body) => Ok(Step(CreateTableStep(s, name, body), None))
    case AddForeignKey(from, to, column) => AddForeignKeyStep(s, from, to, column)
    case Unknown(name, args) => Ok(UnknownStep(s, name, args))
  }

  /** The schema after a whole definition and the warnings printed on the way. */
  datatype Build = Build(schema: Schema, warnings: seq<Warning>)

  /** A run cut short by an error, with the warnings already printed before
      the source raised. */
  datatype Abort = Abort(error: Error, warnings: seq<Warning>)

  /** One more declaration after a run: an earlier abort stands, otherwise
      the declaration is applied and its warning, if any, is logged. */
  function Extend(prev: Result<Build, Abort>, d: Declaration): (next: Result<Build, Abort>)
    ensures prev.Err? ==> next == prev
    ensures prev.Ok? && Declare(prev.value.schema, d).Err? ==>
      next == Err(Abort(Declare(prev.value.schema, d).error, prev.value.warnings))
    ensures next.Ok? <==> prev.Ok? && Declare(prev.value.schema, d).Ok?
    ensures next.Ok? ==> next.value.schema == Declare(prev.value.schema, d).value.schema
    ensures next.Ok? ==>
      && prev.value.warnings <= next.value.warnings
      && |next.value.warnings| <= |prev.value.warnings| + 1
    ensures next.Ok? && Declare(prev.value.schema, d).value.warning.None? ==>
      next.value.warnings == prev.value.warnings
    ensures next.Ok? && Declare(prev.value.schema, d).value.warning.Some? ==>
      next.value.warnings == prev.value.warnings + [Declare(prev.value.schema, d).value.warning.value]
  {
    match prev
    case Err(e) => Err(e)
    case Ok(b) =>
      match Declare(b.schema, d)
      case Err(e) => Err(Abort(e, b.warnings))
      case Ok(step) =>
        Ok(Build(step.schema, b.warnings + (if step.warning.Some? then [step.warning.value] else [])))
  }

  /** Runs the declarations in order from the empty schema; the first error
      ends the run, and each declaration logs at most one warning. The
      declaration that aborts logs none. */
  function Run(ds: seq<Declaration>): (r: Result<Build, Abort>)
    ensures r.Ok? ==> |r.value.warnings| <= |ds|
    ensures r.Err? ==> |r.error.warnings| < |ds|
    decreases |ds|
  {
    if |ds| == 0 then Ok(Build(Empty, []))
    else Extend(Run(ds[..|ds| - 1]), ds[|ds| - 1])
  }

  lemma RunSnoc(ds: seq<Declaration>, d: Declaration)
    ensures Run(ds + [d]) == Extend(Run(ds), d)
  {
  }

  /** Names of the tables created by a definition, in declaration order. */
  function CreatedNames(ds: seq<Declaration>): seq<string>
    decreases |ds|
  {
    if |ds| == 0 then []
    else CreatedNames(ds[..|ds| - 1]) + (if ds[|ds| - 1].CreateTable? then [ds[|ds| - 1].name] else [])
  }

  /** Relations declared by a definition, in declaration order. */
  function DeclaredRelations(ds: seq<Declaration>): seq<Relation>
    decreases |ds|
  {
    if |ds| == 0 then []
    else
      var d := ds[|ds| - 1];
      DeclaredRelations(ds[..|ds| - 1]) + (if d.AddForeignKey? then [Relation(d.from, d.to)] else [])
  }

  /** Every foreign key names a table created by an earlier declaration. */
  predicate ForeignKeysDeclared(ds: seq<Declaration>)
  {
    forall i :: 0 <= i < |ds| && ds[i].AddForeignKey? ==> ds[i].from in CreatedNames(ds[..i])
  }

  /** The `Missing definition` warnings of a definition's unknown
      declarations, in declaration order. */
  function UnknownWarnings(ds: seq<Declaration>): seq<Warning>
    decreases |ds|
  {
    if |ds| == 0 then []
    else
      var d := ds[|ds| - 1];
      UnknownWarnings(ds[..|ds| - 1]) + (if d.Unknown? then [MissingDefinition(d.name, d.args)] else [])
  }

  /** The definition declares no foreign key. */
  predicate NoForeignKeys(ds: seq<Declaration>)
  {
    forall i :: 0 <= i < |ds| ==> !ds[i].AddForeignKey?
  }

  /** Without foreign keys a run never aborts, and its log is exactly one
      `Missing definition` warning per unknown declaration, in order:
      `create_table` prints nothing. */
  lemma {:induction false} RunWithoutForeignKeys(ds: seq<Declaration>)
    requires NoForeignKeys(ds)
    ensures Run(ds).Ok?
    ensures Run(ds).value.warnings == UnknownWarnings(ds)
    decreases |ds|
  {
    if |ds| > 0 {
      RunWithoutForeignKeys(ds[..|ds| - 1]);
    }
  }

  /** A successful run holds one table per `create_table` and one relation
      per `add_foreign_key`, each in declaration order, duplicates included. */
  lemma {:induction false} RunShape(ds: seq<Declaration>)
    requires Run(ds).Ok?
    ensures TableNames(Run(ds).value.schema.tables) == CreatedNames(ds)
    ensures Run(ds).value.schema.relations == DeclaredRelations(ds)
    decreases |ds|
  {
    if |ds| > 0 {
      var init := ds[..|ds| - 1];
      RunShape(init);
      var b := Run(init).value;
      var d := ds[|ds| - 1];
      var s' := Declare(b.schema, d).value.schema;
      if d.AddForeignKey? {
        assert TableNames(s'.tables) == TableNames(b.schema.tables);
      } else if d.CreateTable? {
        assert TableNames(s'.tables) == TableNames(b.schema.tables) + [d.name];
      }
    }
  }

  /** A run aborts exactly when some foreign key names a table that no
      earlier declaration created. */
  lemma {:induction false} RunSucceedsIff(ds: seq<Declaration>)
    ensures Run(ds).Ok? <==> ForeignKeysDeclared(ds)
    decreases |ds|
  {
    if |ds| > 0 {
      var init := ds[..|ds| - 1];
      var d := ds[|ds| - 1];
      RunSucceedsIff(init);
      assert forall i :: 0 <= i < |init| ==> ds[..i] == init[..i] && ds[i] == init[i];
      assert ds[..|ds| - 1] == init;
      if Run(init).Ok? {
        RunShape(init);
        var tables := Run(init).value.schema.tables;
        if d.AddForeignKey? {
          assert d.from in CreatedNames(init) <==> exists i :: 0 <= i < |tables| && tables[i].name == d.from by {
            if d.from in CreatedNames(init) {
              var i :| 0 <= i < |TableNames(tables)| && TableNames(tables)[i] == d.from;
              assert tables[i].name == d.from;
            } else {
              forall i | 0 <= i < |tables|
                ensures tables[i].name != d.from
              {
                assert TableNames(tables)[i] == tables[i].name;
              }
            }
          }
        }
      }
    }
  }

  /** Two `create_table` declarations give the two built tables, in order, and no warning. */
  lemma RunTwoTables(n1: string, b1: seq<Directive>, n2: string, b2: seq<Directive>)
    ensures Run([CreateTable(n1, b1), CreateTable(n2, b2)])
      == Ok(Build(Schema([Table(n1, DeclaredColumns(b1)), Table(n2, DeclaredColumns(b2))], []), []))
  {
    var d1, d2 := CreateTable(n1, b1), CreateTable(n2, b2);
    var t1, t2 := Table(n1, DeclaredColumns(b1)), Table(n2, DeclaredColumns(b2));
    var none: seq<Warning> := [];
    assert none + none == none;
    RunSnoc([], d1);
    assert [] + [d1] == [d1];
    var s1 := CreateTableStep(Empty, n1, b1);
    assert s1 == Schema([t1], []);
    assert Run([d1]) == Ok(Build(s1, none));
    RunSnoc([d1], d2);
    assert [d1] + [d2] == [d1, d2];
    var s2 := CreateTableStep(s1, n2, b2);
    assert s2 == Schema([t1, t2], []);
  }

  /** A definition with two tables and a foreign key from `posts` to
      `users`: the relation is recorded, and since `posts` declares no
      `user_id` column the run warns and flags nothing. */
  lemma UsersPostsExample()
    ensures Run([
      CreateTable("users", [Directive("string", "name"), Directive("integer", "age")]),
      CreateTable("posts", [Directive("string", "title"), Directive("index", "title")]),
      AddForeignKey("posts", "users", None)])
      == Ok(Build(
        Schema(
          [Table("users", [Column("name", "string", false), Column("age", "integer", false)]),
           Table("posts", [Column("title", "string", false)])],
          [Relation("posts", "users")]),
        [UnresolvedForeignKey("posts", "users", None)]))
  {
    var d1 := CreateTable("users", [Directive("string", "name"), Directive("integer", "age")]);
    var d2 := CreateTable("posts", [Directive("string", "title"), Directive("index", "title")]);
    var d3 := AddForeignKey("posts", "users", None);
    UsersPostsIndexPrefix();
    RunSnoc([d1, d2], d3);
    assert [d1, d2] + [d3] == [d1, d2, d3];
    MissingUserIdStep();
    var none: seq<Warning> := [];
    var w := UnresolvedForeignKey("posts", "users", None);
    assert none + [w] == [w];
  }

  lemma UsersPostsIndexPrefix()
    ensures Run([
      CreateTable("users", [Directive("string", "name"), Directive("integer", "age")]),
      CreateTable("posts", [Directive("string", "title"), Directive("index", "title")])])
      == Ok(Build(
        Schema([Table("users", [Column("name", "string", false), Column("age", "integer", false)]),
                Table("posts", [Column("title", "string", false)])], []),
        []))
  {
    var usersBody := [Directive("string", "name"), Directive("integer", "age")];
    var postsBody := [Directive("string", "title"), Directive("index", "title")];
    assert DeclaredColumns(usersBody[1..]) == [Column("age", "integer", false)];
    assert DeclaredColumns(usersBody) == [Column("name", "string", false), Column("age", "integer", false)];
    assert DeclaredColumns(postsBody[1..]) == [];
    assert DeclaredColumns(postsBody) == [Column("title", "string", false)];
    RunTwoTables("users", usersBody, "posts", postsBody);
  }

  lemma MissingUserIdStep()
    ensures Declare(
      Schema([Table("users", [Column("name", "string", false), Column("age", "integer", false)]),
              Table("posts", [Column("title", "string", false)])], []),
      AddForeignKey("posts", "users", None))
      == Ok(Step(
        Schema([Table("users", [Column("name", "string", false), Column("age", "integer", false)]),
                Table("posts", [Column("title", "string", false)])],
               [Relation("posts", "users")]),
        Some(UnresolvedForeignKey("posts", "users", None))))
  {
    var users := Table("users", [Column("name", "string", false), Column("age", "integer", false)]);
    var posts := Table("posts", [Column("title", "string", false)]);
    var s2 := Schema([users, posts], []);
    JoinColumnOfPlural("user");
    assert "user" + "s" == "users";
    assert "user" + "_id" == "user_id";
    assert JoinColumn("users", None) == "user_id";
    assert s2.relations + [Relation("posts", "users")] == [Relation("posts", "users")];
    assert FirstTableNamed(s2.tables, "posts", 1);
    IndexOfFirst(TableNames(s2.tables), "posts", 1);
    assert Tables.AddForeignKey(posts, "user_id") == Flagging(posts, false);
    assert s2.tables[1 := posts] == s2.tables;
  }


  /** The same definition with a `user_id` column on `posts`: that column,
      and only it, becomes a foreign key, and nothing is warned. */
  lemma UsersPostsFlaggedExample()
    ensures Run([
      CreateTable("users", [Directive("string", "name")]),
      CreateTable("posts", [Directive("string", "title"), Directive("integer", "user_id")]),
      AddForeignKey("posts", "users", None)])
      == Ok(Build(
        Schema(
          [Table("users", [Column("name", "string", false)]),
           Table("posts", [Column("title", "string", false), Column("user_id", "integer", true)])],
          [Relation("posts", "users")]),
        []))
  {
    var d1 := CreateTable("users", [Directive("string", "name")]);
    var d2 := CreateTable("posts", [Directive("string", "title"), Directive("integer", "user_id")]);
    var d3 := AddForeignKey("posts", "users", None);
    UsersPostsPrefix();
    RunSnoc([d1, d2], d3);
    assert [d1, d2] + [d3] == [d1, d2, d3];
    FlagUserIdStep();
    var none: seq<Warning> := [];
    assert none + none == none;
  }

  lemma UsersPostsPrefix()
    ensures Run([
      CreateTable("users", [Directive("string", "name")]),
      CreateTable("posts", [Directive("string", "title"), Directive("integer", "user_id")])])
      == Ok(Build(
        Schema([Table("users", [Column("name", "string", false)]),
                Table("posts", [Column("title", "string", false), Column("user_id", "integer", false)])], []),
        []))
  {
    var postsBody := [Directive("string", "title"), Directive("integer", "user_id")];
    assert DeclaredColumns(postsBody[1..]) == [Column("user_id", "integer", false)];
    assert DeclaredColumns(postsBody) == [Column("title", "string", false), Column("user_id", "integer", false)];
    assert DeclaredColumns([Directive("string", "name")]) == [Column("name", "string", false)];
    RunTwoTables("users", [Directive("string", "name")], "posts", postsBody);
  }

  lemma FlagUserIdStep()
    ensures Declare(
      Schema([Table("users", [Column("name", "string", false)]),
              Table("posts", [Column("title", "string", false), Column("user_id", "integer", false)])], []),
      AddForeignKey("posts", "users", None))
      == Ok(Step(
        Schema([Table("users", [Column("name", "string", false)]),
                Table("posts", [Column("title", "string", false), Column("user_id", "integer", true)])],
               [Relation("posts", "users")]),
        None))
  {
    var users := Table("users", [Column("name", "string", false)]);
    var posts := Table("posts", [Column("title", "string", false), Column("user_id", "integer", false)]);
    var flagged := Table("posts", [Column("title", "string", false), Column("user_id", "integer", true)]);
    var s2 := Schema([users, posts], []);
    JoinColumnOfPlural("user");
    assert "user" + "s" == "users";
    assert "user" + "_id" == "user_id";
    assert JoinColumn("users", None) == "user_id";
    assert FirstTableNamed(s2.tables, "posts", 1);
    IndexOfFirst(TableNames(s2.tables), "posts", 1);
    assert FirstNamed(posts.columns, "user_id", 1);
    IndexOfFirst(ColumnNames(posts.columns), "user_id", 1);
    assert posts.columns[1 := posts.columns[1].(foreignKey := true)] == flagged.columns;
    assert Tables.AddForeignKey(posts, "user_id") == Flagging(flagged, true);
    assert s2.tables[1 := flagged] == [users, flagged];
    assert s2.relations + [Relation("posts", "users")] == [Relation("posts", "users")];
  }

  /** A foreign key from a table that was never created aborts the run. */
  lemma UndeclaredTableExample()
    ensures Run([CreateTable("users", []), AddForeignKey("posts", "users", None)])
      == Err(Abort(UndeclaredTable("posts"), []))
  {
  }

  /** The warning of an earlier unknown declaration is already printed
      when a later foreign key aborts the run, and the abort keeps it. */
  lemma WarningBeforeAbortExample()
    ensures Run([Unknown("enable_extension", ["plpgsql"]), AddForeignKey("posts", "users", None)])
      == Err(Abort(UndeclaredTable("posts"), [MissingDefinition("enable_extension", ["plpgsql"])]))
  {
    var d1 := Unknown("enable_extension", ["plpgsql"]);
    var d2 := AddForeignKey("posts", "users", None);
    var none: seq<Warning> := [];
    assert none + [MissingDefinition("enable_extension", ["plpgsql"])] == [MissingDefinition("enable_extension", ["plpgsql"])];
    assert Run([d1]) == Ok(Build(Empty, [MissingDefinition("enable_extension", ["plpgsql"])]));
    RunSnoc([d1], d2);
    assert [d1] + [d2] == [d1, d2];
  }
}
