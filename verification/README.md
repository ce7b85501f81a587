# plantuml_generator core in Dafny

This project models `plant_uml.rb`, a small translator. It reads the
declarations of an ActiveRecord `schema.rb` (`create_table` blocks with
typed column directives, and `add_foreign_key` statements) and prints a
PlantUML entity-relationship diagram.

The model follows the four classes of the source:

- `Columns` models `Column`: a name, a type and a foreign-key flag that starts out false. Each column renders to one line.
- `Tables` models `Table`:
  - the open-ended `method_missing` directives, written as an explicit `Directive(name, column)` step;
  - flagging a column as a foreign key by name;
  - the `entity` block.
- `Relations` models `Relation`, an edge between two table names.
- `ActiveRecordSchema` models `ActiveRecord::Schema`:
  - `create_table`, `add_foreign_key` and `method_missing`, each as a pure step on an immutable `Schema` value;
  - `Run`, which applies a sequence of declarations from the empty schema and collects the printed warnings.
- `Diagram` models `Schema#to_plantuml`, the whole document.
- `Text` holds string helpers: `Array#join`, a line view of text, and paragraphs of lines.
- `Base` holds `Option`, `Result` and the first-occurrence search `IndexOf` that models Ruby's `detect`.

Every renderer is written the way the source's heredoc builds its text.
Each one also has an independent line-by-line reference (`TableLines`,
`DocumentLines`), and the renderer's contract states that the two agree. Lines rendered from
columns and relations also read back into the values they came from.

A foreign key from a table that was never declared makes the source call
`add_foreign_key` on `nil` (plant_uml.rb:87-90). That aborts the run. The
model returns `Err(Abort(UndeclaredTable(from), warnings))` instead and stops `Run`;
`warnings` holds the lines already printed before the raise. The
other two anomalies only print a `WARN:` line. The model returns them as
`Warning` values, and `Run` collects them in order.

## Model

| member | source | states |
|---|---|---|
| Columns.NewColumn | plant_uml.rb:6-10 | A new column keeps the given name and type and is never a foreign key. |
| Columns.ColumnLine | plant_uml.rb:12-14 | The line's length is the name plus the type plus the separator, plus one for the marker. A foreign-key line starts with `*`. The name follows the optional `*` directly, and the line ends with ` : ` followed by the type. |
| Columns.ColumnLineRoundTrip | plant_uml.rb:12-14 | A column line parses back to exactly the column it came from, when the name has no space and no leading `*`. |
| Columns.MarkerIffForeignKey | plant_uml.rb:13 | For such a name, the line starts with `*` exactly when the foreign-key flag is set. |
| Tables.ApplyDirective | plant_uml.rb:30-38 | An `index` directive leaves the table unchanged. Any other directive appends exactly one unflagged column at the end: its type is the directive name and its name is the first argument. Earlier columns and the table name are untouched. |
| Tables.BuildTable | plant_uml.rb:20-38 | A built table keeps its name and has at most one column per directive. |
| Tables.BuildTableColumns | plant_uml.rb:30-38 | A `create_table` block yields exactly the columns of its non-`index` directives, in directive order. |
| Tables.BuildTableUnflagged | plant_uml.rb:9 | No column of a freshly built table is a foreign key. |
| Tables.FindColumn | plant_uml.rb:26 | The lookup finds the first column with the given name, or reports that there is none. |
| Tables.FindColumnShape | plant_uml.rb:26 | The lookup depends only on column names, so setting flags never changes what it finds. |
| Tables.AddForeignKey | plant_uml.rb:25-28 | Returns true exactly when some column has the name. Then the first such column is flagged, and every other column, every name, every type and the order are unchanged. Otherwise it returns false and the table is unchanged. |
| Tables.AddForeignKeyIdempotent | plant_uml.rb:25-28 | Flagging the same name twice gives the same table and the same answer as flagging it once. |
| Tables.TableLinesShape | plant_uml.rb:40-48 | An entity block has the `entity "<name>" as <name> {` header, the `id : integer <<generated>>` line, `--`, one indented line per column in declaration order, then `}`. |
| Tables.TableBlock | plant_uml.rb:40-48 | The heredoc text of a table equals those reference lines, each ended by a newline, including the blank indented line of a table with no columns. |
| Relations.RelationLine | plant_uml.rb:59-61 | An edge line is the referenced table name, then ` --|{ `, then the referencing table name. |
| Relations.RelationLineRoundTrip | plant_uml.rb:59-61 | An edge line parses back to its relation when the referenced name has no space. |
| Relations.RelationLineInjective | plant_uml.rb:59-61 | When neither referenced name contains a space, two relations render to the same edge line exactly when they are the same relation. |
| ActiveRecordSchema.CreateTableStep | plant_uml.rb:78-82 | Appends exactly one table, the built table, at the end of `tables`. There is no de-duplication of names. Earlier tables and `relations` are unchanged. |
| ActiveRecordSchema.JoinColumn | plant_uml.rb:88 | Returns the explicit `column:` option when given. Otherwise it returns `to` minus its last character, followed by `_id`. |
| ActiveRecordSchema.JoinColumnOfPlural | plant_uml.rb:88 | On a plural name ending in `s` the default is the singular plus `_id`, e.g. `users` gives `user_id`. |
| ActiveRecordSchema.FindTable | plant_uml.rb:87 | The lookup finds the first table with the given name, or reports that there is none. |
| ActiveRecordSchema.AddForeignKeyStep | plant_uml.rb:84-92 | Fails exactly when no table is named `from`. Otherwise it appends exactly one `Relation(from, to)`. It keeps the number and order of tables. Only the first table named `from` may change, and only as `Table#add_foreign_key` of the join column changes it. It warns exactly when that column was not found. |
| ActiveRecordSchema.UnknownStep | plant_uml.rb:94-96 | An unknown declaration leaves tables and relations unchanged and yields a warning naming the declaration. |
| ActiveRecordSchema.Declare | plant_uml.rb:74-96 | `create_table` never fails or warns. An unknown declaration never fails and never changes the schema. |
| ActiveRecordSchema.RunShape | plant_uml.rb:78-92 | After a successful run there is one table per `create_table` and one relation per `add_foreign_key`, each in declaration order. |
| ActiveRecordSchema.Extend | plant_uml.rb:74-96 | Once a declaration has raised, later ones change nothing. A declaration that raises aborts with its error and keeps the warnings printed so far. Otherwise the next declaration succeeds exactly when its step does, the schema becomes that step's schema, and the warning log gains exactly that step's own warning at the end when the step warns, and stays as it was otherwise. |
| ActiveRecordSchema.Run | plant_uml.rb:74-96 | A successful run logs no more warnings than there are declarations; an aborted run logs fewer, since the aborting declaration prints nothing. |
| ActiveRecordSchema.RunWithoutForeignKeys | plant_uml.rb:74-96 | A definition without foreign keys never aborts, and its log is exactly one `Missing definition` warning per unknown declaration, in declaration order; `create_table` logs nothing. |
| ActiveRecordSchema.RunSucceedsIff | plant_uml.rb:84-92 | A run succeeds exactly when every foreign key names a table that an earlier declaration created. |
| ActiveRecordSchema.RunTwoTables | plant_uml.rb:78-82 | Two `create_table` declarations give the two built tables in order, no relation and no warning. |
| ActiveRecordSchema.UsersPostsExample | plant_uml.rb:84-92 | Example: `users` and `posts` tables, then a foreign key from `posts` to `users`, where `posts` has no `user_id` column. The relation is recorded, no column is flagged, and exactly one warning is logged. |
| ActiveRecordSchema.UsersPostsFlaggedExample | plant_uml.rb:84-92 | Example: the same definition where `posts` has a `user_id` column. That column alone becomes a foreign key and no warning is logged. |
| ActiveRecordSchema.UndeclaredTableExample | plant_uml.rb:87-90 | Example: a foreign key from an undeclared table aborts the run. |
| ActiveRecordSchema.WarningBeforeAbortExample | plant_uml.rb:90-95 | Example: `enable_extension` prints its `Missing definition` warning, and a later foreign key from an undeclared table aborts the run with that warning still in the log. |
| Diagram.TableSectionText | plant_uml.rb:105 | The table interpolation line holds every table's lines in table order, each block followed by one blank line. With no tables it is one empty line. |
| Diagram.RelationSectionText | plant_uml.rb:107 | The relation interpolation line holds one edge line per relation in relation order. With no relations it is one empty line. |
| Diagram.Render | plant_uml.rb:98-111 | The document equals its reference lines: the preamble, all table blocks in table order, then a blank line, all edges in relation order, a blank line and `@enduml`. |
| Diagram.TableBlockInOrder | plant_uml.rb:105 | Table `i`'s block comes after the blocks of all earlier tables and before those of all later ones. |
| Diagram.RelationsLast | plant_uml.rb:107-109 | For every schema, the edge lines are the last lines before the closing blank line and `@enduml`, in relation order; with no relations only those two lines remain. |
| Diagram.RenderFrame | plant_uml.rb:99-110 | Every document starts with the `@startuml`, `hide circle`, `skinparam linetype ortho` preamble and ends with a blank line and `@enduml`. |
| Diagram.EmptyRender | plant_uml.rb:98-111 | An empty schema renders to the preamble, four empty lines and `@enduml`. |

## Left out

- The command-line entry point and its usage message (plant_uml.rb:122-127): argument handling and printing to standard output.
- `Schema.define`, `load` and `instance_eval` of the schema file (plant_uml.rb:70-76, 125). These evaluate foreign Ruby code. `Run` takes the sequence of declarations that evaluation would issue.
- The `Singleton` instance and its private constructor (plant_uml.rb:66, 113-118). `Run` starts from the value `Empty`, with both lists empty.
- Printing warnings with `puts` (plant_uml.rb:91, 95). Each warning is returned as a `Warning` value instead.
- `to_sym` conversions: names are plain strings. Symbols and strings with the same text compare equal after `to_sym`, which is what the string model does.
- The ignored parameters `info`, `opts` and the remaining directive arguments. Only the first argument of a column directive reaches the model.
- Directive names that collide with real `Table` methods such as `name` or `columns`: the Ruby methods would run instead of `method_missing`.
- A column directive with no argument, where `nil.to_sym` raises.
- A `create_table` block that itself calls schema methods or raises.
- ActiveRecordSchema.AddForeignKeyStep: when it fails, the source has already appended the relation to the singleton before raising. The model drops that relation, because the raise ends the run and nothing renders it; the warnings printed before the raise are kept in the `Abort` value.
- ActiveRecordSchema.AddForeignKeyStep: options of `add_foreign_key` other than `column:` (such as `on_delete:`) are not carried. The source ignores them except that its warning prints the whole options hash (plant_uml.rb:91); `UnresolvedForeignKey` records only `from`, `to` and the `column:` value.
- A column directive whose first argument is not a string or symbol, such as `t.timestamps null: false` whose first argument is a hash. `Column.new` calls `to_sym` on it and raises (plant_uml.rb:7, 36); `Directive` holds only a string column name, so this failure is not represented.
- Calling the renderer twice yields the same text. Dafny functions are deterministic, so this needs no lemma.

## Behaviour worth noting

These facts about `plant_uml.rb` follow from its code and are what the model states.

- A column is a foreign key only when `add_foreign_key` flags it. No name suffix such as `_id` or `_type` makes it one.
- Edge lines never carry a join-column label. They are exactly `<to> --|{ <from>`.
- `add_foreign_key` always records the relation and, in the same call, tries to flag the join column.
- The default join column drops the last character of `to`, whatever it is, not only a trailing `s`. So `people` gives `peopl_id`.
- An explicit `column:` option is used even when it is the empty string, which Ruby treats as true.
- Duplicate table names are neither warned about nor removed, and foreign keys find the first table of that name.
- A foreign key from an undeclared table aborts the run instead of warning.
