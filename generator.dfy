/** The SQLite generator: its type map, the column DDL renderer, and one
    statement per migration expression kind. */
module Sqlite {
  import opened Model
  import opened Text
  import opened Formatting

  /** The keyword sequence the column renderer rewrites, and its rewrite. */
  const IdentityPrimaryKey := " IDENTITY PRIMARY KEY"
  const PrimaryKeyAutoincrement := " PRIMARY KEY AUTOINCREMENT"

  const CreateTableFormat := "CREATE TABLE {0} ({1})"
  const RenameTableFormat := "ALTER TABLE {0} RENAME TO {1}"
  const DropTableFormat := "DROP TABLE {0}"
  const AddColumnFormat := "ALTER TABLE [{0}] ADD COLUMN {1}"
  const InsertFormat := "INSERT INTO [{0}] ({1}) VALUES ({2});"
  const DropColumnFormat := "ALTER TABLE {0} DROP COLUMN {1}"
  const IndexHeadFormat := " INDEX IF NOT EXISTS {0} ON {1} ("

  predicate IsIntegerKind(t: DbType)
  {
    t.Byte? || t.SByte? || t.Int16? || t.Int32? || t.Int64?
    || t.UInt16? || t.UInt32? || t.UInt64?
  }

  predicate IsNumericKind(t: DbType)
  {
    t.Currency? || t.Decimal? || t.Double? || t.Single? || t.VarNumeric?
  }

  predicate IsStringKind(t: DbType)
  {
    t.AnsiString? || t.String? || t.AnsiStringFixedLength? || t.StringFixedLength?
  }

  predicate IsDateKind(t: DbType)
  {
    t.Date? || t.DateTime? || t.Time?
  }

  /** SQLite's type for each generic type, by family; None for the types
      SQLite has no entry for. */
  function SqliteTemplate(t: DbType): Option<string>
  {
    if IsIntegerKind(t) || t.Boolean? then Some("INTEGER")
    else if IsNumericKind(t) then Some("NUMERIC")
    else if IsStringKind(t) then Some("TEXT")
    else if IsDateKind(t) then Some("DATETIME")
    else if t.Guid? then Some("UNIQUEIDENTIFIER")
    else if t.Binary? then Some("BLOB")
    else None
  }

  /** The entries SetupTypeMaps registers. */
  const SqliteTypeMaps: map<DbType, string> := map[
    Binary := "BLOB", Byte := "INTEGER", Int16 := "INTEGER", Int32 := "INTEGER",
    Int64 := "INTEGER", SByte := "INTEGER", UInt16 := "INTEGER", UInt32 := "INTEGER",
    UInt64 := "INTEGER", Currency := "NUMERIC", Decimal := "NUMERIC", Double := "NUMERIC",
    Single := "NUMERIC", VarNumeric := "NUMERIC", AnsiString := "TEXT", String := "TEXT",
    AnsiStringFixedLength := "TEXT", StringFixedLength := "TEXT", Date := "DATETIME",
    DateTime := "DATETIME", Time := "DATETIME", Boolean := "INTEGER", Guid := "UNIQUEIDENTIFIER"]

  /** The registered entries are exactly the family table. */
  lemma SqliteTypeMapsAgree(t: DbType)
    ensures t in SqliteTypeMaps <==> SqliteTemplate(t).Some?
    ensures t in SqliteTypeMaps ==> SqliteTypeMaps[t] == SqliteTemplate(t).value
  {
    if IsIntegerKind(t) || t.Boolean? {
      IntegerEntries(t);
    } else if IsNumericKind(t) {
      NumericEntries(t);
    } else if IsStringKind(t) {
      StringEntries(t);
    } else if IsDateKind(t) {
      DateEntries(t);
    } else if t.Guid? || t.Binary? {
    } else {
      MissingEntries(t);
    }
  }

  lemma IntegerEntries(t: DbType)
    requires IsIntegerKind(t) || t.Boolean?
    ensures t in SqliteTypeMaps && SqliteTypeMaps[t] == "INTEGER"
  {
    match t
    case Byte =>
    case SByte =>
    case Int16 =>
    case Int32 =>
    case Int64 =>
    case UInt16 =>
    case UInt32 =>
    case UInt64 =>
    case Boolean =>
    case _ =>
  }

  lemma NumericEntries(t: DbType)
    requires IsNumericKind(t)
    ensures t in SqliteTypeMaps && SqliteTypeMaps[t] == "NUMERIC"
  {
    match t
    case Currency =>
    case Decimal =>
    case Double =>
    case Single =>
    case VarNumeric =>
    case _ =>
  }

  lemma StringEntries(t: DbType)
    requires IsStringKind(t)
    ensures t in SqliteTypeMaps && SqliteTypeMaps[t] == "TEXT"
  {
    match t
    case AnsiString =>
    case String =>
    case AnsiStringFixedLength =>
    case StringFixedLength =>
    case _ =>
  }

  lemma DateEntries(t: DbType)
    requires IsDateKind(t)
    ensures t in SqliteTypeMaps && SqliteTypeMaps[t] == "DATETIME"
  {
    match t
    case Date =>
    case DateTime =>
    case Time =>
    case _ =>
  }

  lemma MissingEntries(t: DbType)
    requires t.Object? || t.Xml? || t.DateTime2? || t.DateTimeOffset?
    ensures t !in SqliteTypeMaps
  {
    match t
    case Object =>
    case Xml =>
    case DateTime2 =>
    case DateTimeOffset =>
    case _ =>
  }

  /** The outcome of looking `t` up in SQLite's table. */
  function SqliteLookup(t: DbType): Result<string>
  {
    match SqliteTemplate(t)
    case Some(s) => Ok(s)
    case None => Err(UnsupportedType(t))
  }

  /** The names of an index's columns, in index order. */
  function IndexColumnNames(columns: seq<IndexColumnDefinition>): seq<string>
  {
    seq(|columns|, k requires 0 <= k < |columns| => columns[k].name)
  }

  /** The format template CreateIndex builds before substituting the index
      and table names: the column names are written into it as they are. */
  function IndexTemplate(index: IndexDefinition): string
  {
    "CREATE" + (if index.isUnique then " UNIQUE" else "") + IndexHeadFormat
    + Join(IndexColumnNames(index.columns), ",") + ")"
  }

  /** The column names of a row, in its enumeration order. */
  function RowColumns(row: InsertionRow): seq<string>
  {
    seq(|row|, k requires 0 <= k < |row| => row[k].column)
  }

  /** The values of a row, in its enumeration order. */
  function RowValues(row: InsertionRow): seq<Value>
  {
    seq(|row|, k requires 0 <= k < |row| => row[k].value)
  }

  /* The *Shape lemmas below only help the solver: each splits a template
     into its literal pieces and placeholders and says the pieces hold no
     braces, so that the Formatting lemmas apply. They state nothing about
     the generator beyond its constants. */

  lemma CreateTableShape()
    ensures CreateTableFormat == "CREATE TABLE " + "{0}" + " (" + "{1}" + ")"
    ensures NoBraces("CREATE TABLE ") && NoBraces(" (") && NoBraces(")")
  {
  }

  lemma RenameTableShape()
    ensures RenameTableFormat == "ALTER TABLE " + "{0}" + " RENAME TO " + "{1}"
    ensures NoBraces("ALTER TABLE ") && NoBraces(" RENAME TO ")
  {
  }

  lemma DropTableShape()
    ensures DropTableFormat == "DROP TABLE " + "{0}"
    ensures NoBraces("DROP TABLE ")
  {
  }

  lemma DropColumnShape()
    ensures DropColumnFormat == "ALTER TABLE " + "{0}" + " DROP COLUMN " + "{1}"
    ensures NoBraces("ALTER TABLE ") && NoBraces(" DROP COLUMN ")
  {
  }

  lemma AddColumnShape()
    ensures AddColumnFormat == "ALTER TABLE [" + "{0}" + "] ADD COLUMN " + "{1}"
    ensures NoBraces("ALTER TABLE [") && NoBraces("] ADD COLUMN ")
  {
  }

  lemma InsertShape()
    ensures InsertFormat == "INSERT INTO [" + "{0}" + "] (" + "{1}" + ") VALUES (" + "{2}" + ");"
    ensures NoBraces("INSERT INTO [") && NoBraces("] (") && NoBraces(") VALUES (") && NoBraces(");")
  {
  }

  /** The INSERT template never fails and puts its three arguments in place. */
  lemma InsertFormatted(tableName: string, columns: string, data: string)
    ensures Format(InsertFormat, [tableName, columns, data])
            == Ok("INSERT INTO [" + tableName + "] (" + columns + ") VALUES (" + data + ");")
  {
    InsertShape();
    FormatThree("INSERT INTO [", "] (", ") VALUES (", ");", tableName, columns, data);
  }

  lemma IndexHeadShape(unique: bool)
    ensures "CREATE" + (if unique then " UNIQUE" else "") + IndexHeadFormat
            == ("CREATE" + (if unique then " UNIQUE" else "") + " INDEX IF NOT EXISTS ") + "{0}" + " ON " + "{1}" + " ("
    ensures NoBraces("CREATE" + (if unique then " UNIQUE" else "") + " INDEX IF NOT EXISTS ")
    ensures NoBraces(" ON ") && NoBraces(" (")
  {
  }

  /** GeneratorBase's state as SQLite fills it, with the helpers of the base
      class that are not part of this model supplied as parameters. */
  class SqliteGenerator {
    /** The registry of unbounded default type templates. */
    var typeMaps: map<DbType, string>
    /** GeneratorBase.GetConstantValue: a value's SQL literal text. */
    const constantValue: Value -> string
    /** GeneratorBase.GetColumnDDL: the column list of a CREATE TABLE. */
    const columnDdl: (string, seq<ColumnDefinition>) -> string

    /** The registry holds exactly SQLite's table. */
    ghost predicate Valid()
      reads this
    {
      forall t :: (t in typeMaps <==> SqliteTemplate(t).Some?)
                  && (t in typeMaps ==> typeMaps[t] == SqliteTemplate(t).value)
    }

    constructor (constantValue: Value -> string, columnDdl: (string, seq<ColumnDefinition>) -> string)
      ensures Valid()
      ensures this.constantValue == constantValue && this.columnDdl == columnDdl
    {
      this.constantValue := constantValue;
      this.columnDdl := columnDdl;
      typeMaps := map[];
      new;
      SetupTypeMaps();
      forall t ensures (t in typeMaps <==> SqliteTemplate(t).Some?)
                       && (t in typeMaps ==> typeMaps[t] == SqliteTemplate(t).value) {
        SqliteTypeMapsAgree(t);
      }
    }

    /** Register `template` as the unbounded default for `t`. */
    method SetTypeMap(t: DbType, template: string)
      modifies this
      ensures typeMaps == old(typeMaps)[t := template]
    {
      typeMaps := typeMaps[t := template];
    }

    /** Fill the registry with SQLite's table; other entries are untouched. */
    method SetupTypeMaps()
      modifies this
      ensures typeMaps == old(typeMaps)[Binary := "BLOB"][Byte := "INTEGER"][Int16 := "INTEGER"]
                [Int32 := "INTEGER"][Int64 := "INTEGER"][SByte := "INTEGER"][UInt16 := "INTEGER"]
                [UInt32 := "INTEGER"][UInt64 := "INTEGER"][Currency := "NUMERIC"][Decimal := "NUMERIC"]
                [Double := "NUMERIC"][Single := "NUMERIC"][VarNumeric := "NUMERIC"][AnsiString := "TEXT"]
                [String := "TEXT"][AnsiStringFixedLength := "TEXT"][StringFixedLength := "TEXT"]
                [Date := "DATETIME"][DateTime := "DATETIME"][Time := "DATETIME"][Boolean := "INTEGER"]
                [Guid := "UNIQUEIDENTIFIER"]
    {
      SetTypeMap(Binary, "BLOB");
      SetTypeMap(Byte, "INTEGER");
      SetTypeMap(Int16, "INTEGER");
      SetTypeMap(Int32, "INTEGER");
      SetTypeMap(Int64, "INTEGER");
      SetTypeMap(SByte, "INTEGER");
      SetTypeMap(UInt16, "INTEGER");
      SetTypeMap(UInt32, "INTEGER");
      SetTypeMap(UInt64, "INTEGER");
      SetTypeMap(Currency, "NUMERIC");
      SetTypeMap(Decimal, "NUMERIC");
      SetTypeMap(Double, "NUMERIC");
      SetTypeMap(Single, "NUMERIC");
      SetTypeMap(VarNumeric, "NUMERIC");
      SetTypeMap(AnsiString, "TEXT");
      SetTypeMap(String, "TEXT");
      SetTypeMap(AnsiStringFixedLength, "TEXT");
      SetTypeMap(StringFixedLength, "TEXT");

      SetTypeMap(Date, "DATETIME");
      SetTypeMap(DateTime, "DATETIME");
      SetTypeMap(Time, "DATETIME");
      SetTypeMap(Boolean, "INTEGER");
      SetTypeMap(Guid, "UNIQUEIDENTIFIER");
    }

    /** The base lookup with size and precision zero: the unbounded default
        registered for `t`, or a failure when there is none. */
    function LookupDefault(t: DbType): Result<string>
      reads this
    {
      if t in typeMaps then Ok(typeMaps[t]) else Err(UnsupportedType(t))
    }

    /** SQLite's GetTypeMap: size and precision are discarded. */
    function GetTypeMap(t: DbType, size: int, precision: int): (r: Result<string>)
      reads this
      ensures Valid() ==> r == SqliteLookup(t)
      ensures r.Err? ==> r.failure == UnsupportedType(t)
    {
      LookupDefault(t)
    }

    /** The type written after the column name. */
    function TypeFragment(c: ColumnDefinition): (r: Result<string>)
      reads this
      ensures Valid() && c.isIdentity ==> r == Ok("INTEGER")
      ensures Valid() && !c.isIdentity && c.dbType.Some? ==> r == SqliteLookup(c.dbType.value)
      ensures !c.isIdentity && c.dbType.None? ==> r == Ok(c.customType)
      ensures r.Err? ==> r.failure.UnsupportedType?
    {
      if c.isIdentity then GetTypeMap(Int32, c.size, c.precision)
      else if c.dbType.Some? then GetTypeMap(c.dbType.value, c.size, c.precision)
      else Ok(c.customType)
    }

    function NotNullClause(c: ColumnDefinition): string
    {
      if !c.isNullable then " NOT NULL" else ""
    }

    function DefaultClause(c: ColumnDefinition): string
    {
      if c.defaultValue.Some? then " DEFAULT " + constantValue(c.defaultValue.value) else ""
    }

    function IdentityClause(c: ColumnDefinition): string
    {
      if c.isIdentity then " IDENTITY" else ""
    }

    function PrimaryKeyClause(c: ColumnDefinition): string
    {
      if c.isPrimaryKey then " PRIMARY KEY" else ""
    }

    /** The column DDL before the rewrite: name, a space, the type, then
        NOT NULL, DEFAULT, IDENTITY and PRIMARY KEY as the flags say, in that
        order. */
    function RawColumnDdl(c: ColumnDefinition, fragment: string): string
    {
      c.name + " " + fragment + NotNullClause(c) + DefaultClause(c)
      + IdentityClause(c) + PrimaryKeyClause(c)
    }

    /** The column DDL: the raw text with every " IDENTITY PRIMARY KEY"
        rewritten to " PRIMARY KEY AUTOINCREMENT". */
    function ColumnDdl(c: ColumnDefinition): (r: Result<string>)
      reads this
      ensures r.Err? ==> TypeFragment(c).Err? && r.failure.UnsupportedType?
      ensures r.Ok? ==> TypeFragment(c).Ok?
    {
      match TypeFragment(c)
      case Ok(fragment) => Ok(ReplaceAll(RawColumnDdl(c, fragment), IdentityPrimaryKey, PrimaryKeyAutoincrement))
      case Err(f) => Err(f)
    }

    /** GenerateDDLForColumn: appends the segments one by one, then rewrites. */
    method GenerateDDLForColumn(c: ColumnDefinition) returns (r: Result<string>)
      ensures r == ColumnDdl(c)
    {
      var sb := c.name;
      sb := sb + " ";
      var fragment: Result<string>;
      if !c.isIdentity {
        if c.dbType.Some? {
          fragment := GetTypeMap(c.dbType.value, c.size, c.precision);
        } else {
          fragment := Ok(c.customType);
        }
      } else {
        fragment := GetTypeMap(Int32, c.size, c.precision);
      }
      if fragment.Err? {
        return Err(fragment.failure);
      }
      sb := sb + fragment.value;
      ghost var done := sb;
      if !c.isNullable {
        sb := sb + " NOT NULL";
      }
      assert sb == done + NotNullClause(c);
      done := sb;
      if c.defaultValue.Some? {
        sb := sb + " DEFAULT ";
        sb := sb + constantValue(c.defaultValue.value);
      }
      assert sb == done + DefaultClause(c);
      done := sb;
      if c.isIdentity {
        sb := sb + " IDENTITY";
      }
      assert sb == done + IdentityClause(c);
      done := sb;
      if c.isPrimaryKey {
        sb := sb + " PRIMARY KEY";
      }
      assert sb == done + PrimaryKeyClause(c);
      sb := ReplaceAll(sb, IdentityPrimaryKey, PrimaryKeyAutoincrement);
      r := Ok(sb);
    }

    function CreateTableStatement(tableName: string, columns: seq<ColumnDefinition>): (r: Result<string>)
      ensures r == Ok("CREATE TABLE " + tableName + " (" + columnDdl(tableName, columns) + ")")
    {
      CreateTableShape();
      FormatTwo("CREATE TABLE ", " (", ")", tableName, columnDdl(tableName, columns));
      Format(CreateTableFormat, [tableName, columnDdl(tableName, columns)])
    }

    function CreateColumnStatement(tableName: string, c: ColumnDefinition): (r: Result<string>)
      reads this
      ensures ColumnDdl(c).Ok? ==> r == Ok("ALTER TABLE [" + tableName + "] ADD COLUMN " + ColumnDdl(c).value)
      ensures ColumnDdl(c).Err? ==> r == ColumnDdl(c)
    {
      match ColumnDdl(c)
      case Ok(ddl) =>
        AddColumnShape();
        FormatTwoAtEnd("ALTER TABLE [", "] ADD COLUMN ", tableName, ddl);
        Format(AddColumnFormat, [tableName, ddl])
      case Err(f) => Err(f)
    }

    method GenerateCreateColumn(tableName: string, c: ColumnDefinition) returns (r: Result<string>)
      ensures r == CreateColumnStatement(tableName, c)
    {
      var ddl := GenerateDDLForColumn(c);
      if ddl.Err? {
        return ddl;
      }
      AddColumnShape();
      FormatTwoAtEnd("ALTER TABLE [", "] ADD COLUMN ", tableName, ddl.value);
      r := Format(AddColumnFormat, [tableName, ddl.value]);
    }

    static function RenameTableStatement(oldName: string, newName: string): (r: Result<string>)
      ensures r == Ok("ALTER TABLE " + oldName + " RENAME TO " + newName)
    {
      RenameTableShape();
      FormatTwoAtEnd("ALTER TABLE ", " RENAME TO ", oldName, newName);
      Format(RenameTableFormat, [oldName, newName])
    }

    static function DeleteTableStatement(tableName: string): (r: Result<string>)
      ensures r == Ok("DROP TABLE " + tableName)
    {
      DropTableShape();
      FormatOneAtEnd("DROP TABLE ", tableName);
      Format(DropTableFormat, [tableName])
    }

    static function DeleteColumnStatement(tableName: string, columnName: string): (r: Result<string>)
      ensures r == Ok("ALTER TABLE " + tableName + " DROP COLUMN " + columnName)
    {
      DropColumnShape();
      FormatTwoAtEnd("ALTER TABLE ", " DROP COLUMN ", tableName, columnName);
      Format(DropColumnFormat, [tableName, columnName])
    }

    /** GetColumnList: every name followed by a comma, trailing commas trimmed. */
    method GetColumnList(columns: seq<string>) returns (r: string)
      ensures r == CommaList(columns)
    {
      var result := "";
      for i := 0 to |columns|
        invariant result == Terminated(columns[..i], ",")
      {
        assert columns[..i + 1][..i] == columns[..i];
        result := result + columns[i] + ",";
      }
      assert columns[..|columns|] == columns;
      r := TrimEnd(result, ',');
    }

    /** The literal texts of some values, in order. */
    function Literals(data: seq<Value>): seq<string>
    {
      seq(|data|, k requires 0 <= k < |data| => constantValue(data[k]))
    }

    /** GetDataList: every value's literal followed by a comma, trailing commas
        trimmed. */
    method GetDataList(data: seq<Value>) returns (r: string)
      ensures r == CommaList(Literals(data))
    {
      var result := "";
      for i := 0 to |data|
        invariant result == Terminated(Literals(data[..i]), ",")
      {
        assert Literals(data[..i + 1])[..i] == Literals(data[..i]);
        result := result + constantValue(data[i]) + ",";
      }
      assert data[..|data|] == data;
      r := TrimEnd(result, ',');
    }

    /** The statement one row becomes. */
    function InsertStatement(tableName: string, row: InsertionRow): string
    {
      "INSERT INTO [" + tableName + "] (" + CommaList(RowColumns(row))
      + ") VALUES (" + CommaList(Literals(RowValues(row))) + ");"
    }

    /** The statements of all rows, concatenated in row order. */
    function InsertSql(tableName: string, rows: seq<InsertionRow>): string
      decreases |rows|
    {
      if |rows| == 0 then ""
      else InsertSql(tableName, rows[..|rows| - 1]) + InsertStatement(tableName, rows[|rows| - 1])
    }

    /** Generate(InsertDataExpression): one INSERT per row. */
    method GenerateInsertData(tableName: string, rows: seq<InsertionRow>) returns (sql: string)
      ensures sql == InsertSql(tableName, rows)
    {
      sql := "";
      for i := 0 to |rows|
        invariant sql == InsertSql(tableName, rows[..i])
      {
        var row := rows[i];
        var columnNames: seq<string> := [];
        var columnData: seq<Value> := [];
        for j := 0 to |row|
          invariant |columnNames| == |columnData| == j
          invariant forall k :: 0 <= k < j ==> columnNames[k] == row[k].column && columnData[k] == row[k].value
        {
          columnNames := columnNames + [row[j].column];
          columnData := columnData + [row[j].value];
        }
        assert columnNames == RowColumns(row);
        assert columnData == RowValues(row);
        var columns := GetColumnList(columnNames);
        var data := GetDataList(columnData);
        InsertFormatted(tableName, columns, data);
        var statement := Format(InsertFormat, [tableName, columns, data]);
        assert rows[..i + 1][..i] == rows[..i];
        sql := sql + statement.value;
      }
      assert rows[..|rows|] == rows;
    }

    /** Generate(CreateIndexExpression): the template is built with the column
        names written into it, then the index and table names are substituted. */
    static function CreateIndexStatement(index: IndexDefinition): (r: Result<string>)
      ensures (forall k :: 0 <= k < |index.columns| ==> NoBraces(index.columns[k].name)) ==>
                r == Ok("CREATE" + (if index.isUnique then " UNIQUE" else "")
                        + " INDEX IF NOT EXISTS " + index.name + " ON " + index.tableName
                        + " (" + Join(IndexColumnNames(index.columns), ",") + ")")
      ensures r.Err? ==> r.failure == FormatError
    {
      CreateIndexFormatted(index);
      Format(IndexTemplate(index), [index.name, index.tableName])
    }

    method GenerateCreateIndex(index: IndexDefinition) returns (r: Result<string>)
      ensures r == CreateIndexStatement(index)
    {
      var result := "CREATE";
      if index.isUnique {
        result := result + " UNIQUE";
      }
      result := result + IndexHeadFormat;
      ghost var head := result;
      ghost var names := IndexColumnNames(index.columns);
      var first := true;
      for i := 0 to |index.columns|
        invariant first <==> i == 0
        invariant result == head + Join(names[..i], ",")
      {
        ghost var before := result;
        if first {
          first := false;
        } else {
          result := result + ",";
        }
        result := result + index.columns[i].name;
        JoinPrefixStep(names, i, ",");
        assert result == head + Join(names[..i + 1], ",") by {
          if i == 0 {
            assert result == before + names[0];
          } else {
            assert result == head + (Join(names[..i], ",") + "," + names[i]);
          }
        }
      }
      assert names[..|index.columns|] == names;
      result := result + ")";
      assert result == IndexTemplate(index);
      r := Format(result, [index.name, index.tableName]);
    }

    /** The statement every expression kind becomes. */
    function Statement(e: Expression): (r: Result<string>)
      reads this
      ensures r == Err(NotImplemented)
              <==> e.CreateSchema? || e.DeleteSchema? || e.RenameColumn? || e.DeleteIndex?
      ensures e.CreateForeignKey? || e.DeleteForeignKey? ==> r == Ok("")
    {
      match e
      case CreateSchema(_) => Err(NotImplemented)
      case DeleteSchema(_) => Err(NotImplemented)
      case CreateTable(t, columns) => CreateTableStatement(t, columns)
      case CreateColumn(t, c) => CreateColumnStatement(t, c)
      case DeleteTable(t) => DeleteTableStatement(t)
      case DeleteColumn(t, c) => DeleteColumnStatement(t, c)
      case CreateForeignKey(_) => Ok("")
      case DeleteForeignKey(_) => Ok("")
      case CreateIndex(index) => CreateIndexStatement(index)
      case DeleteIndex(_) => Err(NotImplemented)
      case RenameTable(oldName, newName) => RenameTableStatement(oldName, newName)
      case RenameColumn(_, _, _) => Err(NotImplemented)
      case InsertData(t, rows) => Ok(InsertSql(t, rows))
    }

    /** The Generate overloads, selected by expression kind. */
    method Generate(e: Expression) returns (r: Result<string>)
      ensures r == Statement(e)
    {
      match e
      case CreateColumn(t, c) =>
        r := GenerateCreateColumn(t, c);
      case CreateIndex(index) =>
        r := GenerateCreateIndex(index);
      case InsertData(t, rows) =>
        var sql := GenerateInsertData(t, rows);
        r := Ok(sql);
      case _ =>
        r := Statement(e);
    }
  }

  /** Substituting the index and table names into the CreateIndex template:
      when no column name holds a brace, the names land in place. */
  lemma CreateIndexFormatted(index: IndexDefinition)
    ensures (forall k :: 0 <= k < |index.columns| ==> NoBraces(index.columns[k].name)) ==>
              Format(IndexTemplate(index), [index.name, index.tableName])
              == Ok("CREATE" + (if index.isUnique then " UNIQUE" else "")
                    + " INDEX IF NOT EXISTS " + index.name + " ON " + index.tableName
                    + " (" + Join(IndexColumnNames(index.columns), ",") + ")")
  {
    var args := [index.name, index.tableName];
    var unique := if index.isUnique then " UNIQUE" else "";
    var head := "CREATE" + unique + IndexHeadFormat;
    var names := IndexColumnNames(index.columns);
    var tail := Join(names, ",") + ")";
    IndexHeadShape(index.isUnique);
    FormatTwo("CREATE" + unique + " INDEX IF NOT EXISTS ", " ON ", " (", index.name, index.tableName);
    FormatConcat(head, tail, args);
    assert IndexTemplate(index) == head + tail;
    if forall k :: 0 <= k < |index.columns| ==> NoBraces(index.columns[k].name) {
      JoinNoBraces(names);
      var done := "CREATE" + unique + " INDEX IF NOT EXISTS " + index.name + " ON " + index.tableName + " (";
      assert Format(head, args) == Ok(done);
      assert Format(tail, args) == Ok(tail);
      assert done + tail == done + Join(names, ",") + ")";
    }
  }

  /** A comma join of brace-free names is brace-free. */
  lemma {:induction false} JoinNoBraces(names: seq<string>)
    requires forall k :: 0 <= k < |names| ==> NoBraces(names[k])
    ensures NoBraces(Join(names, ",") + ")")
    decreases |names|
  {
    if |names| > 1 {
      JoinNoBraces(names[1..]);
      assert Join(names, ",") + ")" == names[0] + "," + (Join(names[1..], ",") + ")");
    } else if |names| == 1 {
      assert NoBraces(names[0]);
    }
  }
}
