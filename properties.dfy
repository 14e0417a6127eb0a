/** What the SQLite generator's statements look like, stated over the model:
    the type families, the IDENTITY PRIMARY KEY rewrite, CREATE INDEX and
    INSERT. */
module SqliteProperties {
  import opened Model
  import opened Text
  import opened Formatting
  import opened Sqlite

  /** No proper prefix of " IDENTITY PRIMARY KEY" is also a suffix of it:
      every suffix starts with a letter or a space followed by a letter
      other than 'I', while the pattern starts with " I". */
  lemma IdentityPrimaryKeyBorderFree()
    ensures BorderFree(IdentityPrimaryKey)
  {
    var pat := IdentityPrimaryKey;
    forall k: nat | 0 < k < |pat|
      ensures pat[..k] != pat[|pat| - k..]
    {
      NotBorder(pat, k);
    }
  }

  /** The suffix of " IDENTITY PRIMARY KEY" of length `k` differs from its
      prefix of that length: it does not start with " I" as the pattern does,
      and the one-character suffix is "Y". */
  lemma NotBorder(pat: string, k: nat)
    requires pat == IdentityPrimaryKey && 0 < k < |pat|
    ensures pat[..k] != pat[|pat| - k..]
  {
    var j := |pat| - k;
    assert pat[..k][0] == ' ' && pat[j..][0] == pat[j];
    if k >= 2 {
      assert pat[..k][1] == 'I' && pat[j..][1] == pat[j + 1];
    }
    if j <= 10 {
      NotSpaceI(pat, j);
    } else {
      NotSpaceILate(pat, j);
    }
  }

  /** From position `j` in the first half on, the pattern does not start
      with " I". */
  lemma NotSpaceI(pat: string, j: nat)
    requires pat == IdentityPrimaryKey && 0 < j <= 10
    ensures pat[j] != ' ' || pat[j + 1] != 'I'
  {
    if j == 1 {
      assert pat[1] != ' ';
    } else if j == 2 {
      assert pat[2] != ' ';
    } else if j == 3 {
      assert pat[3] != ' ';
    } else if j == 4 {
      assert pat[4] != ' ';
    } else if j == 5 {
      assert pat[5] != ' ';
    } else if j == 6 {
      assert pat[6] != ' ';
    } else if j == 7 {
      assert pat[7] != ' ';
    } else if j == 8 {
      assert pat[8] != ' ';
    } else if j == 9 {
      assert pat[10] != 'I';
    } else {
      assert j == 10 && pat[10] != ' ';
    }
  }

  /** From position `j` in the second half on, the pattern does not start
      with " I", and its last character is not a space. */
  lemma NotSpaceILate(pat: string, j: nat)
    requires pat == IdentityPrimaryKey && 10 < j < |pat|
    ensures pat[j] != ' ' || (j + 1 < |pat| && pat[j + 1] != 'I')
  {
    if j == 11 {
      assert pat[11] != ' ';
    } else if j == 12 {
      assert pat[12] != ' ';
    } else if j == 13 {
      assert pat[13] != ' ';
    } else if j == 14 {
      assert pat[14] != ' ';
    } else if j == 15 {
      assert pat[15] != ' ';
    } else if j == 16 {
      assert pat[16] != ' ';
    } else if j == 17 {
      assert pat[18] != 'I';
    } else if j == 18 {
      assert pat[18] != ' ';
    } else if j == 19 {
      assert pat[19] != ' ';
    } else {
      assert j == 20 && pat[20] != ' ';
    }
  }

  /** " NOT NULL" and " IDENTITY PRIMARY KEY" cannot overlap: every suffix
      of either starts with a letter, or with a space followed by a letter
      that the other's second character is not. */
  lemma NotNullIsolated()
    ensures StartsNowhere(" NOT NULL", IdentityPrimaryKey)
    ensures EndsNowhere(" NOT NULL", IdentityPrimaryKey)
  {
    var m, pat := " NOT NULL", IdentityPrimaryKey;
    forall i | 0 <= i < |m|
      ensures !(m[i..] <= pat) && !(pat <= m[i..])
    {
      NotNullStart(m, pat, i);
    }
    forall j | 0 < j < |pat|
      ensures !(pat[j..] <= m) && !(m <= pat[j..])
    {
      NotNullEnd(m, pat, j);
    }
  }

  /** The suffix of " NOT NULL" from `i` on does not start with " I". */
  lemma NotNullStart(m: string, pat: string, i: nat)
    requires m == " NOT NULL" && pat == IdentityPrimaryKey && i < |m|
    ensures !(m[i..] <= pat) && !(pat <= m[i..])
  {
    assert m[i..][0] == m[i] && pat[0] == ' ';
    if i + 1 < |m| {
      assert m[i..][1] == m[i + 1] && pat[1] == 'I';
    }
    if i == 0 {
      assert m[1] != 'I';
    } else if i == 1 {
      assert m[1] != ' ';
    } else if i == 2 {
      assert m[2] != ' ';
    } else if i == 3 {
      assert m[3] != ' ';
    } else if i == 4 {
      assert m[5] != 'I';
    } else if i == 5 {
      assert m[5] != ' ';
    } else if i == 6 {
      assert m[6] != ' ';
    } else if i == 7 {
      assert m[7] != ' ';
    } else {
      assert i == 8 && m[8] != ' ';
    }
  }

  /** The suffix of " IDENTITY PRIMARY KEY" from `j` on does not start with
      " N". */
  lemma NotNullEnd(m: string, pat: string, j: nat)
    requires m == " NOT NULL" && pat == IdentityPrimaryKey && 0 < j < |pat|
    ensures !(pat[j..] <= m) && !(m <= pat[j..])
  {
    assert pat[j..][0] == pat[j] && m[0] == ' ';
    if j + 1 < |pat| {
      assert pat[j..][1] == pat[j + 1] && m[1] == 'N';
    }
    if j == 1 {
      assert pat[1] != ' ';
    } else if j == 2 {
      assert pat[2] != ' ';
    } else if j == 3 {
      assert pat[3] != ' ';
    } else if j == 4 {
      assert pat[4] != ' ';
    } else if j == 5 {
      assert pat[5] != ' ';
    } else if j == 6 {
      assert pat[6] != ' ';
    } else if j == 7 {
      assert pat[7] != ' ';
    } else if j == 8 {
      assert pat[8] != ' ';
    } else if j == 9 {
      assert pat[10] != 'N';
    } else if j == 10 {
      assert pat[10] != ' ';
    } else if j == 11 {
      assert pat[11] != ' ';
    } else if j == 12 {
      assert pat[12] != ' ';
    } else if j == 13 {
      assert pat[13] != ' ';
    } else if j == 14 {
      assert pat[14] != ' ';
    } else if j == 15 {
      assert pat[15] != ' ';
    } else if j == 16 {
      assert pat[16] != ' ';
    } else if j == 17 {
      assert pat[18] != 'N';
    } else if j == 18 {
      assert pat[18] != ' ';
    } else if j == 19 {
      assert pat[19] != ' ';
    } else {
      assert j == 20 && pat[20] != ' ';
    }
  }

  /** A column that is not nullable keeps its NOT NULL clause through the
      IDENTITY PRIMARY KEY rewrite, whatever its name, type and other
      clauses. */
  lemma NotNullSurvives(g: SqliteGenerator, c: ColumnDefinition)
    requires g.TypeFragment(c).Ok? && !c.isNullable
    ensures g.ColumnDdl(c).Ok? && Contains(g.ColumnDdl(c).value, " NOT NULL")
  {
    var fragment := g.TypeFragment(c).value;
    var x := c.name + " " + fragment;
    var y := g.DefaultClause(c) + g.IdentityClause(c) + g.PrimaryKeyClause(c);
    assert g.RawColumnDdl(c, fragment) == x + " NOT NULL" + y;
    NotNullIsolated();
    ReplaceAllAround(x, " NOT NULL", y, IdentityPrimaryKey, PrimaryKeyAutoincrement);
    OccursBetween(ReplaceAll(x, IdentityPrimaryKey, PrimaryKeyAutoincrement), " NOT NULL",
                  ReplaceAll(y, IdentityPrimaryKey, PrimaryKeyAutoincrement));
  }

  /** The families of SQLite's type map: every integer kind and Boolean is
      INTEGER, the exact and approximate numerics are NUMERIC, the strings
      TEXT, the dates DATETIME, Guid UNIQUEIDENTIFIER and Binary BLOB; the
      four remaining types have no entry and fail, whatever the size and
      precision. */
  lemma SqliteTypeFamilies(g: SqliteGenerator, t: DbType, size: int, precision: int)
    requires g.Valid()
    ensures g.GetTypeMap(t, size, precision) == g.GetTypeMap(t, 0, 0)
    ensures IsIntegerKind(t) || t.Boolean? ==> g.GetTypeMap(t, size, precision) == Ok("INTEGER")
    ensures IsNumericKind(t) ==> g.GetTypeMap(t, size, precision) == Ok("NUMERIC")
    ensures IsStringKind(t) ==> g.GetTypeMap(t, size, precision) == Ok("TEXT")
    ensures IsDateKind(t) ==> g.GetTypeMap(t, size, precision) == Ok("DATETIME")
    ensures t.Guid? ==> g.GetTypeMap(t, size, precision) == Ok("UNIQUEIDENTIFIER")
    ensures t.Binary? ==> g.GetTypeMap(t, size, precision) == Ok("BLOB")
    ensures g.GetTypeMap(t, size, precision) == Err(UnsupportedType(t))
            <==> t.Object? || t.Xml? || t.DateTime2? || t.DateTimeOffset?
  {
    assert g.GetTypeMap(t, size, precision) == SqliteLookup(t);
    assert g.GetTypeMap(t, 0, 0) == SqliteLookup(t);
    SqliteLookupFamilies(t);
  }

  /** The families, stated on the table itself. */
  lemma SqliteLookupFamilies(t: DbType)
    ensures IsIntegerKind(t) || t.Boolean? ==> SqliteLookup(t) == Ok("INTEGER")
    ensures IsNumericKind(t) ==> SqliteLookup(t) == Ok("NUMERIC")
    ensures IsStringKind(t) ==> SqliteLookup(t) == Ok("TEXT")
    ensures IsDateKind(t) ==> SqliteLookup(t) == Ok("DATETIME")
    ensures t.Guid? ==> SqliteLookup(t) == Ok("UNIQUEIDENTIFIER")
    ensures t.Binary? ==> SqliteLookup(t) == Ok("BLOB")
    ensures SqliteLookup(t) == Err(UnsupportedType(t))
            <==> t.Object? || t.Xml? || t.DateTime2? || t.DateTimeOffset?
  {
    match t
    case AnsiString =>
    case Binary =>
    case Byte =>
    case Boolean =>
    case Currency =>
    case Date =>
    case DateTime =>
    case Decimal =>
    case Double =>
    case Guid =>
    case Int16 =>
    case Int32 =>
    case Int64 =>
    case Object =>
    case SByte =>
    case Single =>
    case String =>
    case Time =>
    case UInt16 =>
    case UInt32 =>
    case UInt64 =>
    case VarNumeric =>
    case AnsiStringFixedLength =>
    case StringFixedLength =>
    case Xml =>
    case DateTime2 =>
    case DateTimeOffset =>
  }

  /** The column text in front of the IDENTITY and PRIMARY KEY keywords. */
  function ColumnHead(g: SqliteGenerator, c: ColumnDefinition, fragment: string): string
    reads g
  {
    c.name + " " + fragment + g.NotNullClause(c) + g.DefaultClause(c)
  }

  /** An identity primary key column is an INTEGER column whose text ends in
      PRIMARY KEY AUTOINCREMENT: the keyword pair the flags append is always
      rewritten, whatever precedes it. */
  lemma IdentityPrimaryKeyIsAutoincrement(g: SqliteGenerator, c: ColumnDefinition)
    requires g.Valid() && c.isIdentity && c.isPrimaryKey
    ensures g.ColumnDdl(c)
            == Ok(ReplaceAll(ColumnHead(g, c, "INTEGER"), IdentityPrimaryKey, PrimaryKeyAutoincrement)
                  + PrimaryKeyAutoincrement)
    ensures EndsWith(g.ColumnDdl(c).value, PrimaryKeyAutoincrement)
  {
    var head := ColumnHead(g, c, "INTEGER");
    assert g.RawColumnDdl(c, "INTEGER") == head + IdentityPrimaryKey;
    IdentityPrimaryKeyBorderFree();
    ReplaceAllAppend(head, IdentityPrimaryKey, IdentityPrimaryKey, PrimaryKeyAutoincrement);
    var r := ReplaceAll(head, IdentityPrimaryKey, PrimaryKeyAutoincrement) + PrimaryKeyAutoincrement;
    assert r[|r| - |PrimaryKeyAutoincrement|..] == PrimaryKeyAutoincrement;
  }

  /** An identity column that is not a primary key keeps its trailing
      IDENTITY keyword: a prefix of the rewritten pattern at the very end is
      never rewritten. */
  lemma IdentityWithoutKeyKeepsIdentity(g: SqliteGenerator, c: ColumnDefinition)
    requires g.Valid() && c.isIdentity && !c.isPrimaryKey
    ensures g.ColumnDdl(c)
            == Ok(ReplaceAll(ColumnHead(g, c, "INTEGER"), IdentityPrimaryKey, PrimaryKeyAutoincrement)
                  + " IDENTITY")
    ensures EndsWith(g.ColumnDdl(c).value, " IDENTITY")
  {
    var head := ColumnHead(g, c, "INTEGER");
    assert g.RawColumnDdl(c, "INTEGER") == head + " IDENTITY";
    assert " IDENTITY" <= IdentityPrimaryKey;
    IdentityPrimaryKeyBorderFree();
    ReplaceAllAppend(head, " IDENTITY", IdentityPrimaryKey, PrimaryKeyAutoincrement);
    var r := ReplaceAll(head, IdentityPrimaryKey, PrimaryKeyAutoincrement) + " IDENTITY";
    assert r[|r| - |" IDENTITY"|..] == " IDENTITY";
  }

  /** A column whose raw text holds no IDENTITY PRIMARY KEY is written as it
      is: the rewrite touches nothing else. */
  lemma RewriteTouchesOnlyThePattern(g: SqliteGenerator, c: ColumnDefinition)
    requires g.TypeFragment(c).Ok?
    requires !Contains(g.RawColumnDdl(c, g.TypeFragment(c).value), IdentityPrimaryKey)
    ensures g.ColumnDdl(c) == Ok(g.RawColumnDdl(c, g.TypeFragment(c).value))
  {
    ReplaceAllAbsent(g.RawColumnDdl(c, g.TypeFragment(c).value), IdentityPrimaryKey, PrimaryKeyAutoincrement);
  }

  /** A custom type that itself ends in " IDENTITY", on a plain primary key
      column, fuses with the appended PRIMARY KEY and is rewritten too. */
  lemma CustomIdentityTypeFuses(g: SqliteGenerator, c: ColumnDefinition)
    requires c.dbType.None? && !c.isIdentity && c.isPrimaryKey
    requires c.isNullable && c.defaultValue.None?
    requires EndsWith(c.customType, " IDENTITY")
    ensures g.ColumnDdl(c).Ok?
    ensures EndsWith(g.ColumnDdl(c).value, PrimaryKeyAutoincrement)
  {
    var n := |c.customType| - |" IDENTITY"|;
    var head := c.name + " " + c.customType[..n];
    assert c.customType == c.customType[..n] + " IDENTITY";
    assert g.RawColumnDdl(c, c.customType) == head + IdentityPrimaryKey;
    IdentityPrimaryKeyBorderFree();
    ReplaceAllAppend(head, IdentityPrimaryKey, IdentityPrimaryKey, PrimaryKeyAutoincrement);
    var r := ReplaceAll(head, IdentityPrimaryKey, PrimaryKeyAutoincrement) + PrimaryKeyAutoincrement;
    assert r[|r| - |PrimaryKeyAutoincrement|..] == PrimaryKeyAutoincrement;
  }

  /** The column "x IDENTITY IDENTITY PRIMARY KEY" of custom type INTEGER,
      nullable, without default, identity or key. */
  function PatternNamedColumn(): ColumnDefinition
  {
    ColumnDefinition("x IDENTITY" + IdentityPrimaryKey, None, "INTEGER", 0, 0, true, None, false, false)
  }

  /** The rewrite is a single pass, so its output can still hold the pattern:
      the column above comes out as "x IDENTITY PRIMARY KEY AUTOINCREMENT
      INTEGER", where the replacement text completes a new IDENTITY PRIMARY
      KEY. */
  lemma RewriteCanLeavePattern(g: SqliteGenerator)
    ensures g.ColumnDdl(PatternNamedColumn()) == Ok("x IDENTITY PRIMARY KEY AUTOINCREMENT INTEGER")
    ensures Contains(g.ColumnDdl(PatternNamedColumn()).value, IdentityPrimaryKey)
  {
    PatternNamedColumnDdl(g);
    LeftoverPattern();
    LeftoverText();
  }

  /** Literal concatenation, kept apart only so that the solver evaluates it
      on its own. */
  lemma LeftoverText()
    ensures "x IDENTITY" + PrimaryKeyAutoincrement + " INTEGER"
            == "x IDENTITY PRIMARY KEY AUTOINCREMENT INTEGER"
  {
  }

  lemma PatternNamedColumnDdl(g: SqliteGenerator)
    ensures g.ColumnDdl(PatternNamedColumn())
            == Ok("x IDENTITY" + PrimaryKeyAutoincrement + " INTEGER")
  {
    var c := PatternNamedColumn();
    assert g.TypeFragment(c) == Ok("INTEGER");
    assert g.NotNullClause(c) == "" && g.DefaultClause(c) == "";
    assert g.IdentityClause(c) == "" && g.PrimaryKeyClause(c) == "";
    assert g.RawColumnDdl(c, "INTEGER") == "x IDENTITY" + IdentityPrimaryKey + " INTEGER";
    IdentityPrimaryKeyBorderFree();
    ReplaceAllSplit("x IDENTITY", " INTEGER", IdentityPrimaryKey, PrimaryKeyAutoincrement);
    assert ReplaceAll("x IDENTITY", IdentityPrimaryKey, PrimaryKeyAutoincrement) == "x IDENTITY";
    assert ReplaceAll(" INTEGER", IdentityPrimaryKey, PrimaryKeyAutoincrement) == " INTEGER";
  }

  lemma LeftoverPattern()
    ensures Contains("x IDENTITY" + PrimaryKeyAutoincrement + " INTEGER", IdentityPrimaryKey)
  {
    LeftoverSplit();
    OccursBetween("x", IdentityPrimaryKey, " AUTOINCREMENT INTEGER");
  }

  lemma LeftoverSplit()
    ensures "x IDENTITY" + PrimaryKeyAutoincrement + " INTEGER"
            == "x" + IdentityPrimaryKey + " AUTOINCREMENT INTEGER"
  {
    assert "x IDENTITY" == "x" + " IDENTITY";
    assert IdentityPrimaryKey == " IDENTITY" + " PRIMARY KEY";
    assert PrimaryKeyAutoincrement == " PRIMARY KEY" + " AUTOINCREMENT";
    assert " AUTOINCREMENT INTEGER" == " AUTOINCREMENT" + " INTEGER";
  }

  /** The CREATE INDEX statement of the usual one-column unique index. */
  lemma CreateUniqueIndexExample()
    ensures SqliteGenerator.CreateIndexStatement(
              IndexDefinition("IX_User_Email", "User", true, [IndexColumnDefinition("Email", Ascending)]))
            == Ok("CREATE UNIQUE INDEX IF NOT EXISTS IX_User_Email ON User (Email)")
  {
    var index := IndexDefinition("IX_User_Email", "User", true, [IndexColumnDefinition("Email", Ascending)]);
    assert NoBraces(index.columns[0].name);
    assert IndexColumnNames(index.columns) == ["Email"];
    assert Join(["Email"], ",") == "Email";
    UniqueIndexText();
  }

  /** Literal concatenation, kept apart only so that the solver evaluates it
      on its own. */
  lemma UniqueIndexText()
    ensures "CREATE" + " UNIQUE" + " INDEX IF NOT EXISTS " + "IX_User_Email" + " ON " + "User"
            + " (" + "Email" + ")"
            == "CREATE UNIQUE INDEX IF NOT EXISTS IX_User_Email ON User (Email)"
  {
    assert "CREATE" + " UNIQUE" + " INDEX IF NOT EXISTS " == "CREATE UNIQUE INDEX IF NOT EXISTS ";
    assert "CREATE UNIQUE INDEX IF NOT EXISTS " + "IX_User_Email" + " ON "
           == "CREATE UNIQUE INDEX IF NOT EXISTS IX_User_Email ON ";
    assert "CREATE UNIQUE INDEX IF NOT EXISTS IX_User_Email ON " + "User" + " ("
           == "CREATE UNIQUE INDEX IF NOT EXISTS IX_User_Email ON User (";
  }

  /** An index without columns still yields a statement, with an empty
      column list. */
  lemma CreateIndexWithoutColumns(index: IndexDefinition)
    requires |index.columns| == 0
    ensures SqliteGenerator.CreateIndexStatement(index)
            == Ok("CREATE" + (if index.isUnique then " UNIQUE" else "")
                  + " INDEX IF NOT EXISTS " + index.name + " ON " + index.tableName + " ()")
  {
    assert IndexColumnNames(index.columns) == [];
    assert Join([], ",") == "";
    var head := "CREATE" + (if index.isUnique then " UNIQUE" else "")
                + " INDEX IF NOT EXISTS " + index.name + " ON " + index.tableName;
    assert SqliteGenerator.CreateIndexStatement(index)
           == Ok(head + " (" + Join(IndexColumnNames(index.columns), ",") + ")");
    assert head + " (" + "" + ")" == head + " ()";
  }

  /** Column names are written into the template before formatting, so a
      column named "{0}" is replaced by the index name. */
  lemma CreateIndexPlaceholderColumn()
    ensures SqliteGenerator.CreateIndexStatement(
              IndexDefinition("IX", "T", false, [IndexColumnDefinition("{0}", Ascending)]))
            == Ok("CREATE INDEX IF NOT EXISTS IX ON T (IX)")
  {
    var index := IndexDefinition("IX", "T", false, [IndexColumnDefinition("{0}", Ascending)]);
    var p0 := "CREATE INDEX IF NOT EXISTS ";
    var t := p0 + "{0}" + " ON " + "{1}" + " (" + Placeholder(0) + ")";
    BraceColumnTemplate(index, "{0}");
    assert Placeholder(0) == "{0}";
    assert IndexTemplate(index) == t;
    FormatTwo(p0, " ON ", " (", "IX", "T");
    FormatStep(p0 + "{0}" + " ON " + "{1}" + " (", 0, ")", ["IX", "T"]);
    PlaceholderColumnText();
  }

  /** Literal concatenation, kept apart only so that the solver evaluates it
      on its own. */
  lemma PlaceholderColumnText()
    ensures "CREATE INDEX IF NOT EXISTS " + "IX" + " ON " + "T" + " (" + "IX" + ")"
            == "CREATE INDEX IF NOT EXISTS IX ON T (IX)"
  {
  }

  /** The template of a plain index on one column, with the column name
      written into it. */
  lemma BraceColumnTemplate(index: IndexDefinition, column: string)
    requires !index.isUnique && index.columns == [IndexColumnDefinition(column, Ascending)]
    ensures IndexTemplate(index)
            == "CREATE INDEX IF NOT EXISTS " + "{0}" + " ON " + "{1}" + " (" + column + ")"
  {
    assert IndexColumnNames(index.columns) == [column];
    IndexHeadShape(false);
  }

  /** A lone brace in a column name makes the template malformed. */
  lemma CreateIndexBraceColumnFails()
    ensures SqliteGenerator.CreateIndexStatement(
              IndexDefinition("IX", "T", false, [IndexColumnDefinition("{", Ascending)]))
            == Err(FormatError)
  {
    var index := IndexDefinition("IX", "T", false, [IndexColumnDefinition("{", Ascending)]);
    var args := ["IX", "T"];
    var p0 := "CREATE INDEX IF NOT EXISTS ";
    var head := p0 + "{0}" + " ON " + "{1}" + " (";
    BraceColumnTemplate(index, "{");
    assert IndexTemplate(index) == head + "{)";
    FormatTwo(p0, " ON ", " (", "IX", "T");
    assert head + "" == head;
    FormatConcat(head, "{)", args);
    assert Format("{)", args) == Err(FormatError);
  }

  /** The INSERT text of several batches of rows is the batches' texts in
      order. */
  lemma {:induction false} InsertSqlAppend(g: SqliteGenerator, tableName: string,
                                           rows: seq<InsertionRow>, more: seq<InsertionRow>)
    ensures g.InsertSql(tableName, rows + more)
            == g.InsertSql(tableName, rows) + g.InsertSql(tableName, more)
    decreases |more|
  {
    if |more| == 0 {
      assert rows + more == rows;
      assert g.InsertSql(tableName, more) == "";
      assert g.InsertSql(tableName, rows) + "" == g.InsertSql(tableName, rows);
    } else {
      var init := more[..|more| - 1];
      assert more == init + [more[|more| - 1]];
      InsertSqlAppend(g, tableName, rows, init);
      InsertSqlAppendStep(g, tableName, rows, init, more[|more| - 1]);
    }
  }

  /** The inductive step of InsertSqlAppend: one more row at the end. */
  lemma InsertSqlAppendStep(g: SqliteGenerator, tableName: string,
                            rows: seq<InsertionRow>, init: seq<InsertionRow>, row: InsertionRow)
    requires g.InsertSql(tableName, rows + init)
             == g.InsertSql(tableName, rows) + g.InsertSql(tableName, init)
    ensures g.InsertSql(tableName, rows + (init + [row]))
            == g.InsertSql(tableName, rows) + g.InsertSql(tableName, init + [row])
  {
    var all := rows + (init + [row]);
    assert all == (rows + init) + [row];
    InsertSqlSnoc(g, tableName, rows + init, row);
    InsertSqlSnoc(g, tableName, init, row);
    var a, b, c := g.InsertSql(tableName, rows), g.InsertSql(tableName, init), g.InsertStatement(tableName, row);
    assert g.InsertSql(tableName, all) == (a + b) + c;
    assert g.InsertSql(tableName, init + [row]) == b + c;
    ConcatAssoc(a, b, c);
  }

  /** Associativity of concatenation, only a hint for the solver. */
  lemma ConcatAssoc(a: string, b: string, c: string)
    ensures (a + b) + c == a + (b + c)
  {
  }

  /** One more row appends its statement. */
  lemma InsertSqlSnoc(g: SqliteGenerator, tableName: string, rows: seq<InsertionRow>, row: InsertionRow)
    ensures g.InsertSql(tableName, rows + [row])
            == g.InsertSql(tableName, rows) + g.InsertStatement(tableName, row)
  {
    assert (rows + [row])[..|rows|] == rows;
  }

  /** Every row is one statement; no rows, no text. */
  lemma InsertSqlRows(g: SqliteGenerator, tableName: string, row: InsertionRow)
    ensures g.InsertSql(tableName, []) == ""
    ensures g.InsertSql(tableName, [row]) == g.InsertStatement(tableName, row)
  {
    assert [row][..0] == [];
  }

  /** A row whose last column name and last literal are non-empty and do not
      end in a comma becomes the familiar statement with comma-joined lists. */
  lemma InsertStatementJoined(g: SqliteGenerator, tableName: string, row: InsertionRow)
    requires |row| > 0
    requires var last := row[|row| - 1].column; |last| > 0 && !EndsWith(last, ",")
    requires var text := g.constantValue(row[|row| - 1].value); |text| > 0 && !EndsWith(text, ",")
    ensures g.InsertStatement(tableName, row)
            == "INSERT INTO [" + tableName + "] (" + Join(RowColumns(row), ",")
               + ") VALUES (" + Join(g.Literals(RowValues(row)), ",") + ");"
  {
    CommaListPlainJoin(RowColumns(row));
    CommaListPlainJoin(g.Literals(RowValues(row)));
  }
}
