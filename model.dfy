/** The migration expressions the generator consumes, and the outcome of
    generating one statement. */
module Model {

  /** System.Data.DbType: the generic column types a migration may name. */
  datatype DbType =
    | AnsiString | Binary | Byte | Boolean | Currency | Date | DateTime
    | Decimal | Double | Guid | Int16 | Int32 | Int64 | Object | SByte
    | Single | String | Time | UInt16 | UInt32 | UInt64 | VarNumeric
    | AnsiStringFixedLength | StringFixedLength | Xml | DateTime2
    | DateTimeOffset

  /** A runtime value (a default value or a cell of an inserted row). Its
      literal text is whatever the generator's GetConstantValue makes of it. */
  type Value(==)

  datatype Option<T> = None | Some(value: T)

  /** A column as the generator reads it. `dbType` is None when the column was
      declared with a custom type string; `defaultValue` is None when there is
      no default (a null DefaultValue). A null CustomType appends nothing, so
      it is the empty string here. */
  datatype ColumnDefinition = ColumnDefinition(
    name: string,
    dbType: Option<DbType>,
    customType: string,
    size: int,
    precision: int,
    isNullable: bool,
    defaultValue: Option<Value>,
    isIdentity: bool,
    isPrimaryKey: bool)

  datatype Direction = Ascending | Descending

  datatype IndexColumnDefinition = IndexColumnDefinition(name: string, direction: Direction)

  datatype IndexDefinition = IndexDefinition(
    name: string,
    tableName: string,
    isUnique: bool,
    columns: seq<IndexColumnDefinition>)

  datatype ForeignKeyDefinition = ForeignKeyDefinition(
    name: string,
    foreignTable: string,
    foreignColumns: seq<string>,
    primaryTable: string,
    primaryColumns: seq<string>)

  /** One column/value pair of an inserted row. */
  datatype Cell = Cell(column: string, value: Value)

  /** An inserted row: its pairs in enumeration order. */
  type InsertionRow = seq<Cell>

  /** One expression kind per Generate overload of IMigrationGenerator. */
  datatype Expression =
    | CreateSchema(schemaName: string)
    | DeleteSchema(schemaName: string)
    | CreateTable(tableName: string, columns: seq<ColumnDefinition>)
    | CreateColumn(tableName: string, column: ColumnDefinition)
    | DeleteTable(tableName: string)
    | DeleteColumn(tableName: string, columnName: string)
    | CreateForeignKey(foreignKey: ForeignKeyDefinition)
    | DeleteForeignKey(foreignKey: ForeignKeyDefinition)
    | CreateIndex(index: IndexDefinition)
    | DeleteIndex(index: IndexDefinition)
    | RenameTable(oldName: string, newName: string)
    | RenameColumn(tableName: string, oldName: string, newName: string)
    | InsertData(tableName: string, rows: seq<InsertionRow>)

  /** Why generation failed: an overload that throws NotImplementedException,
      a type with no entry in the type map, or a format template that
      string.Format rejects. */
  datatype Failure = NotImplemented | UnsupportedType(dbType: DbType) | FormatError

  datatype Result<T> = Ok(value: T) | Err(failure: Failure)

  /** Prefix the text of a successful result; a failure passes through. */
  function Prepend(p: string, r: Result<string>): Result<string>
  {
    match r
    case Ok(s) => Ok(p + s)
    case Err(f) => Err(f)
  }
}
