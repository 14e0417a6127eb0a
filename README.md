# FluentMigrator's SQLite generator, modelled in Dafny

FluentMigrator describes schema changes as migration expressions. Examples are
creating a table, adding a column, creating an index and inserting rows. A
generator turns each expression into SQL text for one database. This project
models the SQLite generator:

- its type map, a registry from generic column types (`DbType`) to SQLite type
  names. `SetupTypeMaps` fills it, and `GetTypeMap` ignores size and precision;
- the column renderer `GenerateDDLForColumn`. It appends the name, the type,
  `NOT NULL`, `DEFAULT`, `IDENTITY` and `PRIMARY KEY` in a fixed order. Then it
  rewrites every ` IDENTITY PRIMARY KEY` to ` PRIMARY KEY AUTOINCREMENT`;
- one `Generate` overload per expression kind, including the INSERT builder
  with its comma lists and the CREATE INDEX builder.

Files:

- `model.dfy` (module `Model`): the expression kinds, the column, index,
  foreign key and row definitions, and the `Result` of generating a statement.
  A thrown `NotImplementedException` is `Err(NotImplemented)`. A type with no
  registry entry is `Err(UnsupportedType(t))`. A malformed format template is
  `Err(FormatError)`. The foreign-key overloads succeed with an empty
  statement, which is a different outcome from a failure.
- `text.dfy` (module `Text`): the string operations the generator uses.
  - `StringBuilder.Replace` is a left-to-right, non-overlapping replace-all
    that never rescans replaced text.
  - `TrimEnd(',')` strips every trailing comma.
  - The comma lists are built as "item, comma" for each item, then trimmed.
- `format.dfy` (module `Formatting`): `string.Format` and `FormatExpression`
  as positional substitution. `{0}` to `{9}` are replaced by the arguments, and
  `{{` and `}}` are escapes. Any other brace makes the template malformed.
- `generator.dfy` (module `Sqlite`): the class `SqliteGenerator`.
  - Its `typeMaps` field is the registry that `SetupTypeMaps` fills in place.
  - Its StringBuilder code is written as methods with loops.
  - Each method is proved equal to a specification function.
- `properties.dfy` (module `SqliteProperties`): lemmas about the generated
  text.

## Model

| member | source | states |
|---|---|---|
| Sqlite.SqliteGenerator.SetTypeMap | src/FluentMigrator/IMigrationGenerator.cs:27 | registering a template for a type overwrites that one entry and leaves the rest of the registry as it was |
| Sqlite.SqliteGenerator.SetupTypeMaps | src/FluentMigrator.Runner/Generators/SqliteGenerator.cs:40-66 | the registry afterwards is the old registry updated with the 23 entries, in source order |
| Sqlite.SqliteGenerator.constructor | src/FluentMigrator.Runner/Generators/SqliteGenerator.cs:40-66 | after setup, the registry holds exactly SQLite's family table (`Valid`): an entry for every type the family table names, with that type name, and nothing else |
| Sqlite.SqliteTypeMapsAgree | src/FluentMigrator.Runner/Generators/SqliteGenerator.cs:40-66 | the 23 registered entries agree with the family table, key for key, in both directions |
| Sqlite.SqliteGenerator.GetTypeMap | src/FluentMigrator.Runner/Generators/SqliteGenerator.cs:68-71 | with the registry set up, the lookup is SQLite's table whatever the size and precision; a failure always names the requested type |
| SqliteProperties.SqliteTypeFamilies | src/FluentMigrator.Runner/Generators/SqliteGenerator.cs:40-71 | the result equals the size-0, precision-0 lookup; the integer kinds and Boolean give INTEGER, the numerics NUMERIC, the strings TEXT, the dates DATETIME, Guid UNIQUEIDENTIFIER and Binary BLOB; the lookup fails exactly for Object, Xml, DateTime2 and DateTimeOffset |
| Sqlite.SqliteGenerator.TypeFragment | src/FluentMigrator.Runner/Generators/SqliteGenerator.cs:80-94 | an identity column gets INTEGER whatever its declared type; otherwise the mapped Type when there is one, else the CustomType verbatim; a failure is only ever an unsupported type |
| Sqlite.SqliteGenerator.ColumnDdl | src/FluentMigrator.Runner/Generators/SqliteGenerator.cs:73-121 | the column renders exactly when its type fragment does; a failure is the type fragment's unsupported type |
| Sqlite.SqliteGenerator.GenerateDDLForColumn | src/FluentMigrator.Runner/Generators/SqliteGenerator.cs:73-121 | the appended segments, after the rewrite, are the column DDL: name, space, fragment, NOT NULL iff not nullable, DEFAULT and the literal iff there is a default, IDENTITY iff identity, PRIMARY KEY iff key, then every IDENTITY PRIMARY KEY rewritten |
| Text.ReplaceAllAbsent | src/FluentMigrator.Runner/Generators/SqliteGenerator.cs:118 | text with no occurrence of the pattern is left unchanged by the replace-all |
| Text.ReplaceAllAppend | src/FluentMigrator.Runner/Generators/SqliteGenerator.cs:118 | for a border-free pattern, appending a prefix of the pattern leaves the rewrite of the text before it alone; the tail is copied, or replaced when it is the whole pattern |
| Text.ReplaceAllSplit | src/FluentMigrator.Runner/Generators/SqliteGenerator.cs:118 | for a border-free pattern, an occurrence splits the rewrite: the text before, the replacement, then the rewrite of the text after |
| Text.ReplaceAllPieceFirst | src/FluentMigrator.Runner/Generators/SqliteGenerator.cs:118 | a leading piece in which no occurrence of the pattern can start is copied unchanged, and the rewrite goes on after it |
| Text.ReplaceAllBeforePiece | src/FluentMigrator.Runner/Generators/SqliteGenerator.cs:118 | text followed by a piece that no occurrence of the pattern can reach into from the left is rewritten separately from that piece |
| Text.ReplaceAllAround | src/FluentMigrator.Runner/Generators/SqliteGenerator.cs:118 | a piece the pattern can neither start in nor reach into survives the rewrite unchanged, between the rewrites of the text before and after it |
| SqliteProperties.IdentityPrimaryKeyBorderFree | src/FluentMigrator.Runner/Generators/SqliteGenerator.cs:118 | no proper prefix of " IDENTITY PRIMARY KEY" is also a suffix of it, so its occurrences never overlap |
| SqliteProperties.IdentityPrimaryKeyIsAutoincrement | src/FluentMigrator.Runner/Generators/SqliteGenerator.cs:107-118 | an identity primary key column renders as the rewritten head with INTEGER, followed by " PRIMARY KEY AUTOINCREMENT", and so ends with it |
| SqliteProperties.IdentityWithoutKeyKeepsIdentity | src/FluentMigrator.Runner/Generators/SqliteGenerator.cs:107-118 | an identity column that is not a key renders as the rewritten head followed by " IDENTITY", and so ends with it |
| SqliteProperties.CustomIdentityTypeFuses | src/FluentMigrator.Runner/Generators/SqliteGenerator.cs:86-118 | a nullable, default-free, non-identity key column whose CustomType ends in " IDENTITY" also renders and ends with " PRIMARY KEY AUTOINCREMENT" |
| SqliteProperties.RewriteTouchesOnlyThePattern | src/FluentMigrator.Runner/Generators/SqliteGenerator.cs:77-118 | when the raw column text holds no " IDENTITY PRIMARY KEY", the result is exactly the raw text |
| SqliteProperties.NotNullIsolated | src/FluentMigrator.Runner/Generators/SqliteGenerator.cs:96-118 | " NOT NULL" and " IDENTITY PRIMARY KEY" cannot overlap in either order |
| SqliteProperties.NotNullSurvives | src/FluentMigrator.Runner/Generators/SqliteGenerator.cs:73-120 | a column that is not nullable and has a type keeps " NOT NULL" in its final text, whatever its name and other clauses |
| SqliteProperties.RewriteCanLeavePattern | src/FluentMigrator.Runner/Generators/SqliteGenerator.cs:118 | the rewrite is a single pass: the column named "x IDENTITY IDENTITY PRIMARY KEY" renders as "x IDENTITY PRIMARY KEY AUTOINCREMENT INTEGER", which still contains the pattern |
| SqliteProperties.PatternNamedColumnDdl | src/FluentMigrator.Runner/Generators/SqliteGenerator.cs:77-118 | that column's raw text is rewritten at its one occurrence only |
| Sqlite.SqliteGenerator.Statement | src/FluentMigrator.Runner/Generators/SqliteGenerator.cs:123-241 | the schema create and delete (lines 123-131), column rename (154-157) and index delete (238-241) kinds, and only those, fail with NotImplemented; the foreign key kinds (204-213) succeed with the empty statement |
| Sqlite.SqliteGenerator.Generate | src/FluentMigrator/IMigrationGenerator.cs:31-43 | dispatching on the expression kind, including the StringBuilder-based overloads, yields each kind's statement |
| Sqlite.SqliteGenerator.CreateTableStatement | src/FluentMigrator.Runner/Generators/SqliteGenerator.cs:133-136 | CREATE TABLE, the bare table name, then the base column list in parentheses |
| Sqlite.SqliteGenerator.RenameTableStatement | src/FluentMigrator.Runner/Generators/SqliteGenerator.cs:138-141 | ALTER TABLE old RENAME TO new, with both names bare, for any names |
| Sqlite.SqliteGenerator.DeleteTableStatement | src/FluentMigrator.Runner/Generators/SqliteGenerator.cs:143-146 | DROP TABLE and the bare name, for any name |
| Sqlite.SqliteGenerator.CreateColumnStatement | src/FluentMigrator.Runner/Generators/SqliteGenerator.cs:148-152 | ALTER TABLE with the table name in brackets, ADD COLUMN, then the column DDL; an unsupported column type is passed on as the failure |
| Sqlite.SqliteGenerator.GenerateCreateColumn | src/FluentMigrator.Runner/Generators/SqliteGenerator.cs:148-152 | rendering the column and substituting it gives that statement |
| Sqlite.SqliteGenerator.GenerateInsertData | src/FluentMigrator.Runner/Generators/SqliteGenerator.cs:159-177 | the nested loops give one INSERT per row in row order; each pairs the row's names and literals by position |
| Sqlite.InsertFormatted | src/FluentMigrator.Runner/Generators/SqliteGenerator.cs:174 | the INSERT template substitutes the bracketed table name and both lists verbatim, whatever they contain |
| SqliteProperties.InsertSqlAppend | src/FluentMigrator.Runner/Generators/SqliteGenerator.cs:159-177 | the text for two batches of rows is the first batch's text followed by the second's |
| SqliteProperties.InsertSqlRows | src/FluentMigrator.Runner/Generators/SqliteGenerator.cs:159-177 | no rows give the empty string; one row gives exactly its statement |
| SqliteProperties.InsertStatementJoined | src/FluentMigrator.Runner/Generators/SqliteGenerator.cs:172-174 | when the last name and the last literal are non-empty and do not end in a comma, the statement holds the plain comma joins |
| Sqlite.SqliteGenerator.GetColumnList | src/FluentMigrator.Runner/Generators/SqliteGenerator.cs:179-187 | the loop's result is the trimmed comma list of the names |
| Sqlite.SqliteGenerator.GetDataList | src/FluentMigrator.Runner/Generators/SqliteGenerator.cs:189-197 | the loop's result is the trimmed comma list of the values' literals |
| Text.TrimEnd | src/FluentMigrator.Runner/Generators/SqliteGenerator.cs:186 | the result is a prefix that does not end in the character, and everything removed was that character |
| Text.CommaListEmpty | src/FluentMigrator.Runner/Generators/SqliteGenerator.cs:179-197 | an empty list gives the empty string |
| Text.CommaListIsJoin | src/FluentMigrator.Runner/Generators/SqliteGenerator.cs:179-197 | a non-empty comma list is the trimmed comma join, and it equals the plain join exactly when that join does not end in a comma |
| Text.CommaListPlainJoin | src/FluentMigrator.Runner/Generators/SqliteGenerator.cs:179-197 | a non-empty last item that does not end in a comma gives the plain comma join |
| Text.CommaListTrimsTrailingCommas | src/FluentMigrator.Runner/Generators/SqliteGenerator.cs:186 | ["a", ""] gives "a" while its join is "a,"; ["a", "b,"] gives "a,b" while its join is "a,b," |
| Sqlite.SqliteGenerator.DeleteColumnStatement | src/FluentMigrator.Runner/Generators/SqliteGenerator.cs:199-202 | ALTER TABLE table DROP COLUMN column, with both names bare |
| Sqlite.SqliteGenerator.GenerateCreateIndex | src/FluentMigrator.Runner/Generators/SqliteGenerator.cs:215-236 | the loop with its first flag puts commas only between names, and the result is the template that is then formatted |
| Sqlite.SqliteGenerator.CreateIndexStatement | src/FluentMigrator.Runner/Generators/SqliteGenerator.cs:215-236 | with brace-free column names: CREATE, UNIQUE iff unique, INDEX IF NOT EXISTS name ON table, then the names in order, comma-separated, in parentheses; any failure is a malformed template |
| Sqlite.CreateIndexFormatted | src/FluentMigrator.Runner/Generators/SqliteGenerator.cs:235 | substituting the index and table names into a template with brace-free column names puts them in place and leaves the rest unchanged |
| SqliteProperties.CreateUniqueIndexExample | src/FluentMigrator.Runner/Generators/SqliteGenerator.cs:215-236 | a unique index IX_User_Email on User(Email) gives "CREATE UNIQUE INDEX IF NOT EXISTS IX_User_Email ON User (Email)" |
| SqliteProperties.CreateIndexWithoutColumns | src/FluentMigrator.Runner/Generators/SqliteGenerator.cs:215-236 | an index with no columns succeeds, with an empty "()" column list |
| SqliteProperties.CreateIndexPlaceholderColumn | src/FluentMigrator.Runner/Generators/SqliteGenerator.cs:231-235 | the column names go into the template, so a column named "{0}" comes out as the index name |
| SqliteProperties.CreateIndexBraceColumnFails | src/FluentMigrator.Runner/Generators/SqliteGenerator.cs:231-235 | a column named "{" makes the template malformed, and generation fails |
| Formatting.Format | src/FluentMigrator.Runner/Generators/SqliteGenerator.cs:235 | a brace-free template is returned unchanged; the only failure is a malformed template |
| Formatting.FormatConcat | src/FluentMigrator.Runner/Generators/SqliteGenerator.cs:235 | formatting distributes over concatenation once the first part is well formed |

## Left out

- The base class helpers are not part of this model. `GetConstantValue` (the
  literal text of a value) and `GetColumnDDL` (the column list of CREATE TABLE)
  are function-valued fields given to the constructor. Values are an opaque
  type.
- `FormatExpression` is taken to be `string.Format`, because its body is not
  part of this model.
- The base type registry is a map holding the unbounded default per type.
  Size-bounded entries (`SetTypeMap` with a maximum size) and the `$size` and
  `$precision` placeholders of base templates are not modelled. SQLite never
  registers them, and its `GetTypeMap` always asks for size 0 and precision 0.
- Sqlite.SqliteGenerator.GetTypeMap: a type with no registry entry is
  `Err(UnsupportedType)`. The base class's exception type is not modelled.
- Formatting.Format: alignment and format strings (`{0,5}`, `{0:x}`), padded
  indices (`{0 }`) and indices of two or more digits (`{00}`, `{10}`) are
  treated as malformed, where `string.Format` may accept them. The generator's
  own templates use none of them. They can reach `Format` only through index
  column names, which CreateIndex writes into its template.
- Sqlite.SqliteGenerator.CreateIndexStatement: the resulting text is stated
  only for brace-free column names. Two lemmas show what a brace does instead:
  a placeholder is substituted, and a stray brace fails.
- Sqlite.SqliteGenerator.CreateTableStatement: `GetConstantValue` and
  `GetColumnDDL` are assumed never to fail. So in this model CreateTable,
  InsertData and a column's DEFAULT clause never fail, although the base
  class can throw for a column type with no registry entry or a value it
  cannot write.
- Sqlite.SqliteGenerator.InsertStatement: never fails, for the same reason.
- Culture settings of `string.Format` and the .NET exception types are left
  out. A throw is an `Err` result.
- The index column `Direction` is carried, but the generator never writes it.
- A null `CustomType` is the empty string, because appending null appends
  nothing.
- The unused capacity constants (`AnsiStringCapacity` and the rest) are left
  out, because nothing reads them.
- `src/FluentMigrator/Builders/Delete/DeleteExpressionRoot.cs` is builder glue
  with no generation logic. It is not part of this model.
- Execution, connections, logging and transactions belong to the runner and
  are not part of this model.

## Notes on the code

These are facts about `src/FluentMigrator.Runner/Generators/SqliteGenerator.cs`
that the lemmas named in parentheses state.

- An index with an empty column list yields `... ()` and does not fail
  (`CreateIndexWithoutColumns`).
- The rewritten column text can still contain ` IDENTITY PRIMARY KEY`, because
  the rewrite at line 118 is a single left-to-right pass
  (`RewriteCanLeavePattern`).
- The rewrite at line 118 runs over the whole column text, the column name
  included. A column name holding the pattern is rewritten too, so the text
  need not begin with `<name> ` (`PatternNamedColumnDdl`). A ` NOT NULL`
  clause always survives the rewrite (`NotNullSurvives`).
- Byte, SByte, Int16, Int32, Int64, UInt16, UInt32, UInt64 and Boolean map to
  INTEGER (SqliteGenerator.cs:43-50,64).
- The comma list of GetColumnList and GetDataList equals the plain comma join
  exactly when that join does not end in a comma (`CommaListIsJoin`). Otherwise
  every trailing comma is trimmed, so an empty last item after a non-empty
  join disappears with its comma (`CommaListTrimsTrailingCommas`).
