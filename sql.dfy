/** The write-statement builder of lib/utils/sql.js: it checks the table name
    against a closed list, generates `INSERT OR REPLACE` and `UPDATE` text from
    the ordered keys of the object to write, and prepares each distinct
    statement once per database, reusing it afterwards.

    The SHA-1 fingerprint of `${db.name}/${stmt}` that keys the cache in the
    source is modelled by the pair (database name, statement text) itself. */
module Sql {
  import opened Text

  /** `VALID_TABLES`. */
  const ValidTables: seq<string> := ["sessions", "cache"]

  predicate IsValidTable(table: string)
  {
    table in ValidTables
  }

  /** What a write can throw. `InvalidTableName` is the source's own error;
      `PrepareFailed` stands for the exception `db.prepare` raises on text the
      database refuses. */
  datatype Error = InvalidTableName(table: string) | PrepareFailed(text: string)
  {
    function Message(): string
    {
      match this
      case InvalidTableName(t) => "Invalid table name: " + t
      case PrepareFailed(_) => "prepare failed"
    }
  }

  /** `validateTableName`: passes for `sessions` and `cache` and throws for
      every other name. */
  function ValidateTableName(table: string): (r: Option<Error>)
    ensures r.None? <==> table == "sessions" || table == "cache"
    ensures r.Some? ==> r.value == InvalidTableName(table)
    ensures r.Some? ==> r.value.Message() == "Invalid table name: " + table
  {
    if table in ValidTables then None else Some(InvalidTableName(table))
  }

  /** `keys.map(key => `@${key}`)`: the named parameter of each column. */
  function Placeholders(keys: seq<string>): (r: seq<string>)
    ensures |r| == |keys|
    ensures forall i :: 0 <= i < |keys| ==> r[i] == "@" + keys[i]
  {
    if keys == [] then [] else ["@" + keys[0]] + Placeholders(keys[1..])
  }

  /** One `SET` item: the column assigned its own named parameter. */
  function Assignment(key: string): string
  {
    key + " = @" + key
  }

  /** `keys.map(key => `${key} = @${key}`)`. */
  function Assignments(keys: seq<string>): (r: seq<string>)
    ensures |r| == |keys|
    ensures forall i :: 0 <= i < |keys| ==> r[i] == Assignment(keys[i])
  {
    if keys == [] then [] else [Assignment(keys[0])] + Assignments(keys[1..])
  }

  /** The template of `generateInsertOrReplaceIntoStmt` before `.trim()`. */
  function InsertTemplate(table: string, keys: seq<string>): string
  {
    "\n" + InsertBody(table, keys) + "\n  "
  }

  function InsertBody(table: string, keys: seq<string>): string
  {
    "INSERT OR REPLACE INTO " + table + " (" + Join(keys, ",") + ")\nVALUES ("
    + Join(Placeholders(keys), ",") + ")"
  }

  /** `generateInsertOrReplaceIntoStmt(table, keys)`. The statement lists the
      keys as columns joined by `,` in the given order and, in the same order,
      the parameters `@key`, so column i is bound to parameter i; trimming
      removes only the template's own line breaks and indentation. */
  function InsertOrReplaceStmt(table: string, keys: seq<string>): (r: string)
    ensures r ==
      "INSERT OR REPLACE INTO " + table + " (" + Join(keys, ",") + ")\nVALUES ("
      + Join(Placeholders(keys), ",") + ")"
  {
    var body := InsertBody(table, keys);
    TrimTemplate(body);
    assert body[|body| - 1] == ')';
    Trim(InsertTemplate(table, keys))
  }

  /** The template of `generateUpdateStmt` before `.trim()`. */
  function UpdateTemplate(table: string, keys: seq<string>, condition: string): string
  {
    "\n" + UpdateHead(table, keys) + " " + condition + "\n  "
  }

  function UpdateHead(table: string, keys: seq<string>): string
  {
    "UPDATE " + table + "\nSET " + Join(Assignments(keys), ", ") + "\nWHERE"
  }

  /** `generateUpdateStmt(table, keys, condition)`. The statement is
      `UPDATE table`, then `SET k = @k` for each key in order joined by `, `,
      then `WHERE` and the condition; only white space at the very end of the
      condition is lost to `.trim()`, so a condition that does not end in
      white space appears verbatim, and a blank one leaves `WHERE` last. */
  function UpdateStmt(table: string, keys: seq<string>, condition: string): (r: string)
    ensures r == UpdateHead(table, keys) + TrimEnd(" " + condition)
    ensures |condition| > 0 && !IsJsSpace(condition[|condition| - 1]) ==>
      r == UpdateHead(table, keys) + " " + condition
    ensures AllSpace(condition) ==> r == UpdateHead(table, keys)
  {
    UpdateTemplateTrimmed(table, keys, condition);
    ConditionTail(UpdateHead(table, keys), condition);
    Trim(UpdateTemplate(table, keys, condition))
  }

  /** What follows `WHERE`: the condition after a space, or nothing. */
  lemma ConditionTail(head: string, condition: string)
    ensures |condition| > 0 && !IsJsSpace(condition[|condition| - 1]) ==>
      head + TrimEnd(" " + condition) == head + " " + condition
    ensures AllSpace(condition) ==> head + TrimEnd(" " + condition) == head
  {
    TrimmedCondition(condition);
    if AllSpace(condition) {
      assert head + "" == head;
    }
  }

  lemma UpdateTemplateTrimmed(table: string, keys: seq<string>, condition: string)
    ensures Trim(UpdateTemplate(table, keys, condition)) == UpdateHead(table, keys) + TrimEnd(" " + condition)
  {
    var head := UpdateHead(table, keys);
    var tail := " " + condition;
    assert UpdateTemplate(table, keys, condition) == "\n" + (head + tail) + "\n  ";
    TrimTemplate(head + tail);
    assert head[|head| - 1] == 'E';
    TrimEndAfter(head, tail);
  }

  /** `.trim()` of a template `\n<body>\n  ` whose body starts with a
      non-space keeps the body up to its trailing white space. */
  lemma TrimTemplate(body: string)
    requires |body| > 0 && !IsJsSpace(body[0])
    ensures Trim("\n" + body + "\n  ") == TrimEnd(body)
  {
    assert AllSpace("\n") && AllSpace("\n  ");
    assert "\n" + body + "\n  " == "\n" + (body + "\n  ");
    TrimStartPrefix("\n", body + "\n  ");
    TrimEndAppendSpace(body, "\n  ");
  }

  /** The space after `WHERE` survives exactly when the condition has a
      non-space character. */
  lemma {:induction false} TrimmedCondition(condition: string)
    ensures |condition| > 0 && !IsJsSpace(condition[|condition| - 1]) ==>
      TrimEnd(" " + condition) == " " + condition
    ensures AllSpace(condition) ==> TrimEnd(" " + condition) == ""
  {
    if |condition| > 0 && !IsJsSpace(condition[|condition| - 1]) {
      KeptCondition(condition);
    }
    if AllSpace(condition) {
      BlankCondition(condition);
    }
  }

  lemma {:induction false} KeptCondition(condition: string)
    requires |condition| > 0 && !IsJsSpace(condition[|condition| - 1])
    ensures TrimEnd(" " + condition) == " " + condition
  {
    var w := " " + condition;
    assert w[|w| - 1] == condition[|condition| - 1];
  }

  lemma {:induction false} BlankCondition(condition: string)
    requires AllSpace(condition)
    ensures TrimEnd(" " + condition) == ""
  {
    var w := " " + condition;
    assert AllSpace(w) by {
      forall i | 0 <= i < |w|
        ensures IsJsSpace(w[i])
      {
        if i > 0 {
          assert w[i] == condition[i - 1];
        }
      }
    }
    TrimEndAppendSpace("", w);
    assert "" + w == w;
  }

  /** Both statements start with their verb, so an insert and an update never
      share a cache entry. */
  lemma InsertAndUpdateDiffer(table: string, keys: seq<string>, table': string,
                              keys': seq<string>, condition: string)
    ensures InsertOrReplaceStmt(table, keys) != UpdateStmt(table', keys', condition)
  {
    assert InsertOrReplaceStmt(table, keys)[0] == 'I';
    assert UpdateStmt(table', keys', condition)[0] == 'U';
  }

  /** A column name the generated text can be read back from. */
  predicate PlainKey(key: string)
  {
    ',' !in key && ')' !in key
  }

  lemma JoinAvoids(xs: seq<string>, sep: string, c: char)
    requires c !in sep
    requires forall i :: 0 <= i < |xs| ==> c !in xs[i]
    ensures c !in Join(xs, sep)
  {
    if |xs| > 1 {
      JoinAvoids(xs[1..], sep, c);
    }
  }

  lemma PlaceholdersInjective(keys: seq<string>, keys': seq<string>)
    requires Placeholders(keys) == Placeholders(keys')
    ensures keys == keys'
  {
    forall i | 0 <= i < |keys|
      ensures keys[i] == keys'[i]
    {
      CancelPrefix("@", keys[i], keys'[i]);
    }
  }

  lemma AssignmentsInjective(keys: seq<string>, keys': seq<string>)
    requires Assignments(keys) == Assignments(keys')
    ensures keys == keys'
  {
    forall i | 0 <= i < |keys|
      ensures keys[i] == keys'[i]
    {
      var a, b := keys[i], keys'[i];
      assert Assignment(a) == Assignment(b);
      assert |a| == |b|;
      assert a == Assignment(a)[..|a|];
      assert b == Assignment(b)[..|b|];
    }
  }

  /** The insert shape is ordered: on one table, two different key sequences
      (the same keys in another order included) give different statement text
      and therefore different cache entries. */
  lemma {:induction false} InsertStmtInjective(table: string, keys: seq<string>, keys': seq<string>)
    requires forall i :: 0 <= i < |keys| ==> PlainKey(keys[i])
    requires forall i :: 0 <= i < |keys'| ==> PlainKey(keys'[i])
    requires InsertOrReplaceStmt(table, keys) == InsertOrReplaceStmt(table, keys')
    ensures keys == keys'
  {
    var p := "INSERT OR REPLACE INTO " + table + " (";
    var cols, cols' := Join(keys, ","), Join(keys', ",");
    var rest, rest' := ValuesClause(keys), ValuesClause(keys');
    InsertStmtParts(table, keys);
    InsertStmtParts(table, keys');
    CancelPrefix(p, cols + rest, cols' + rest');
    JoinAvoids(keys, ",", ')');
    JoinAvoids(keys', ",", ')');
    SplitAtFirst(cols, rest, cols', rest', ')');
    ValuesClauseInjective(keys, keys');
  }

  /** `)` then the `VALUES` list, the part of the insert after the columns. */
  function ValuesClause(keys: seq<string>): string
  {
    ")\nVALUES (" + Join(Placeholders(keys), ",") + ")"
  }

  lemma InsertStmtParts(table: string, keys: seq<string>)
    ensures InsertOrReplaceStmt(table, keys) ==
      ("INSERT OR REPLACE INTO " + table + " (") + (Join(keys, ",") + ValuesClause(keys))
  {
    var p := "INSERT OR REPLACE INTO " + table + " (";
    var cols, vals := Join(keys, ","), Join(Placeholders(keys), ",");
    assert ValuesClause(keys) == ")\nVALUES (" + vals + ")";
    RegroupValues(p, cols, ")\nVALUES (", vals, ")");
  }

  lemma RegroupValues(p: string, x: string, a: string, v: string, b: string)
    ensures p + x + a + v + b == p + (x + (a + v + b))
  {
  }

  lemma ValuesClauseInjective(keys: seq<string>, keys': seq<string>)
    requires forall i :: 0 <= i < |keys| ==> ',' !in keys[i]
    requires forall i :: 0 <= i < |keys'| ==> ',' !in keys'[i]
    requires ValuesClause(keys) == ValuesClause(keys')
    ensures keys == keys'
  {
    var vals, vals' := Join(Placeholders(keys), ","), Join(Placeholders(keys'), ",");
    assert ValuesClause(keys) == ")\nVALUES (" + (vals + ")");
    assert ValuesClause(keys') == ")\nVALUES (" + (vals' + ")");
    CancelPrefix(")\nVALUES (", vals + ")", vals' + ")");
    CancelSuffix(vals, vals', ")");
    PlaceholderListInjective(keys, keys');
  }

  lemma PlaceholderListInjective(keys: seq<string>, keys': seq<string>)
    requires forall i :: 0 <= i < |keys| ==> ',' !in keys[i]
    requires forall i :: 0 <= i < |keys'| ==> ',' !in keys'[i]
    requires Join(Placeholders(keys), ",") == Join(Placeholders(keys'), ",")
    ensures keys == keys'
  {
    var ps, ps' := Placeholders(keys), Placeholders(keys');
    if |keys| > 0 && |keys'| > 0 {
      assert forall i :: 0 <= i < |ps| ==> ',' !in ps[i] by {
        forall i | 0 <= i < |ps| ensures ',' !in ps[i] {
          assert ps[i] == "@" + keys[i];
        }
      }
      assert forall i :: 0 <= i < |ps'| ==> ',' !in ps'[i] by {
        forall i | 0 <= i < |ps'| ensures ',' !in ps'[i] {
          assert ps'[i] == "@" + keys'[i];
        }
      }
      JoinInjective(ps, ps', ",");
      PlaceholdersInjective(keys, keys');
    } else {
      assert |keys| == 0 && |keys'| == 0;
    }
  }

  /** The update shape is ordered in the same way, for any fixed table and
      condition. */
  lemma {:induction false} UpdateStmtInjective(table: string, keys: seq<string>, keys': seq<string>,
                                               condition: string)
    requires forall i :: 0 <= i < |keys| ==> ',' !in keys[i]
    requires forall i :: 0 <= i < |keys'| ==> ',' !in keys'[i]
    requires UpdateStmt(table, keys, condition) == UpdateStmt(table, keys', condition)
    ensures keys == keys'
  {
    SetClauseOfUpdate(table, keys, keys', condition);
    AssignmentListInjective(keys, keys');
  }

  /** Equal updates on one table and condition have equal `SET` lists. */
  lemma SetClauseOfUpdate(table: string, keys: seq<string>, keys': seq<string>, condition: string)
    requires UpdateStmt(table, keys, condition) == UpdateStmt(table, keys', condition)
    ensures Join(Assignments(keys), ", ") == Join(Assignments(keys'), ", ")
  {
    var p := "UPDATE " + table + "\nSET ";
    var t := TrimEnd(" " + condition);
    var sets, sets' := Join(Assignments(keys), ", "), Join(Assignments(keys'), ", ");
    Regroup(p, sets, "\nWHERE", t);
    Regroup(p, sets', "\nWHERE", t);
    CancelPrefix(p, sets + ("\nWHERE" + t), sets' + ("\nWHERE" + t));
    CancelSuffix(sets, sets', "\nWHERE" + t);
  }

  lemma Regroup(p: string, x: string, w: string, t: string)
    ensures p + x + w + t == p + (x + (w + t))
  {
  }

  lemma AssignmentListInjective(keys: seq<string>, keys': seq<string>)
    requires forall i :: 0 <= i < |keys| ==> ',' !in keys[i]
    requires forall i :: 0 <= i < |keys'| ==> ',' !in keys'[i]
    requires Join(Assignments(keys), ", ") == Join(Assignments(keys'), ", ")
    ensures keys == keys'
  {
    var as_, as' := Assignments(keys), Assignments(keys');
    if |keys| > 0 && |keys'| > 0 {
      assert forall i :: 0 <= i < |as_| ==> ',' !in as_[i] by {
        forall i | 0 <= i < |as_| ensures ',' !in as_[i] {
          assert as_[i] == keys[i] + " = @" + keys[i];
        }
      }
      assert forall i :: 0 <= i < |as'| ==> ',' !in as'[i] by {
        forall i | 0 <= i < |as'| ensures ',' !in as'[i] {
          assert as'[i] == keys'[i] + " = @" + keys'[i];
        }
      }
      JoinInjective(as_, as', ", ");
      AssignmentsInjective(keys, keys');
    } else {
      assert |keys| == 0 && |keys'| == 0;
    }
  }

  /** Different tables of the closed list give different statements for the
      same keys, so prepared statements never leak across tables. */
  lemma TablesDoNotShareStatements(table: string, table': string, keys: seq<string>,
                                   keys': seq<string>, condition: string)
    requires IsValidTable(table) && IsValidTable(table') && table != table'
    ensures InsertOrReplaceStmt(table, keys) != InsertOrReplaceStmt(table', keys')
    ensures UpdateStmt(table, keys, condition) != UpdateStmt(table', keys', condition)
  {
    assert table[0] != table'[0];
    InsertNamesTable(table, keys);
    InsertNamesTable(table', keys');
    UpdateNamesTable(table, keys, condition);
    UpdateNamesTable(table', keys', condition);
  }

  /** The table name starts right after `INSERT OR REPLACE INTO `. */
  lemma InsertNamesTable(table: string, keys: seq<string>)
    requires |table| > 0
    ensures |InsertOrReplaceStmt(table, keys)| > 23 && InsertOrReplaceStmt(table, keys)[23] == table[0]
  {
    InsertStmtParts(table, keys);
    var p := "INSERT OR REPLACE INTO " + table + " (";
    assert p[23] == table[0];
  }

  /** The table name starts right after `UPDATE `. */
  lemma UpdateNamesTable(table: string, keys: seq<string>, condition: string)
    requires |table| > 0
    ensures |UpdateStmt(table, keys, condition)| > 7 && UpdateStmt(table, keys, condition)[7] == table[0]
  {
    UpdateTemplateTrimmed(table, keys, condition);
    var head := UpdateHead(table, keys);
    assert head == "UPDATE " + table + ("\nSET " + Join(Assignments(keys), ", ") + "\nWHERE");
    assert head[7] == table[0];
  }

  /** The database a statement is prepared on. `accepts` stands for whether
      `db.prepare` compiles the text or throws. */
  datatype Database = Database(name: string, accepts: string -> bool)

  /** A prepared statement: the database and text it was compiled from, and a
      serial number that tells apart the objects successive `db.prepare` calls
      return. */
  datatype Prepared = Prepared(dbName: string, text: string, serial: nat)

  /** The fingerprint of a statement: `${db.name}/${stmt}`, kept as a pair. */
  type Fingerprint = (string, string)

  /** What a write does: runs a prepared statement with the object's values,
      or throws. */
  datatype WriteOutcome = Ran(statement: Prepared) | Threw(error: Error)

  /** The module-level `preparedStatementsCache`. */
  class StatementCache {
    var entries: map<Fingerprint, Prepared>
    /** Every fingerprint that was successfully prepared, in the order of the
        calls. */
    ghost var prepared: seq<Fingerprint>

    /** Each entry was compiled from its own fingerprint, and each fingerprint
        was successfully prepared exactly once: the n-th `db.prepare` call that
        did not throw made the entry whose serial is n. */
    ghost predicate Valid()
      reads this
    {
      && |prepared| == |entries|
      && (forall i :: 0 <= i < |prepared| ==>
            prepared[i] in entries && entries[prepared[i]].serial == i)
      && (forall f :: f in entries ==>
            && entries[f].dbName == f.0 && entries[f].text == f.1
            && entries[f].serial < |prepared| && prepared[entries[f].serial] == f)
    }

    /** No fingerprint was ever successfully prepared twice. */
    lemma PreparedOnce()
      requires Valid()
      ensures forall i, j :: 0 <= i < j < |prepared| ==> prepared[i] != prepared[j]
    {
      forall i, j | 0 <= i < j < |prepared|
        ensures prepared[i] != prepared[j]
      {
        assert entries[prepared[i]].serial == i;
        assert entries[prepared[j]].serial == j;
      }
    }

    constructor ()
      ensures Valid() && entries == map[] && prepared == []
    {
      entries := map[];
      prepared := [];
    }

    /** Look the statement up by fingerprint; prepare and remember it only when
        it is not there yet. */
    method PrepareCached(db: Database, stmt: string) returns (r: WriteOutcome)
      requires Valid()
      modifies this
      ensures Valid()
      ensures (db.name, stmt) in old(entries) ==>
        r == Ran(old(entries)[(db.name, stmt)]) &&
        entries == old(entries) && prepared == old(prepared)
      ensures (db.name, stmt) !in old(entries) && db.accepts(stmt) ==>
        r == Ran(Prepared(db.name, stmt, |old(prepared)|)) &&
        entries == old(entries)[(db.name, stmt) := r.statement] &&
        prepared == old(prepared) + [(db.name, stmt)]
      ensures (db.name, stmt) !in old(entries) && !db.accepts(stmt) ==>
        r == Threw(PrepareFailed(stmt)) &&
        entries == old(entries) && prepared == old(prepared)
    {
      var fingerprint := (db.name, stmt);
      if fingerprint !in entries {
        if !db.accepts(stmt) {
          return Threw(PrepareFailed(stmt));
        }
        entries := entries[fingerprint := Prepared(db.name, stmt, |entries|)];
        prepared := prepared + [fingerprint];
      }
      r := Ran(entries[fingerprint]);
    }

    /** `insertOrReplaceIntoDb(db, table, object)`, with `objectKeys` standing
        for `Object.keys(object)`. An invalid table throws before anything is
        generated or prepared; otherwise the statement for this shape is
        reused if cached and prepared once if not, every other entry is left
        as it was, and the statement run is the one cached for this shape. */
    method InsertOrReplaceIntoDb(db: Database, table: string, objectKeys: seq<string>)
      returns (r: WriteOutcome)
      requires Valid()
      modifies this
      ensures Valid()
      ensures !IsValidTable(table) ==>
        r == Threw(InvalidTableName(table)) && entries == old(entries) && prepared == old(prepared)
      ensures IsValidTable(table) ==>
        var f := (db.name, InsertOrReplaceStmt(table, objectKeys));
        && (f in old(entries) ==>
              r == Ran(old(entries)[f]) && entries == old(entries) && prepared == old(prepared))
        && (f !in old(entries) && db.accepts(f.1) ==>
              r == Ran(Prepared(f.0, f.1, |old(prepared)|)) &&
              entries == old(entries)[f := r.statement] && prepared == old(prepared) + [f])
        && (f !in old(entries) && !db.accepts(f.1) ==>
              r == Threw(PrepareFailed(f.1)) && entries == old(entries) && prepared == old(prepared))
        && (r.Ran? ==> f in entries && r.statement == entries[f])
        && (forall g :: g in old(entries) ==> g in entries && entries[g] == old(entries)[g])
    {
      var invalid := ValidateTableName(table);
      if invalid.Some? {
        return Threw(invalid.value);
      }
      var stmt := InsertOrReplaceStmt(table, objectKeys);
      r := PrepareCached(db, stmt);
    }

    /** `updateDb(db, table, object, condition)`, with the same guarantees as
        the insert. */
    method UpdateDb(db: Database, table: string, objectKeys: seq<string>, condition: string)
      returns (r: WriteOutcome)
      requires Valid()
      modifies this
      ensures Valid()
      ensures !IsValidTable(table) ==>
        r == Threw(InvalidTableName(table)) && entries == old(entries) && prepared == old(prepared)
      ensures IsValidTable(table) ==>
        var f := (db.name, UpdateStmt(table, objectKeys, condition));
        && (f in old(entries) ==>
              r == Ran(old(entries)[f]) && entries == old(entries) && prepared == old(prepared))
        && (f !in old(entries) && db.accepts(f.1) ==>
              r == Ran(Prepared(f.0, f.1, |old(prepared)|)) &&
              entries == old(entries)[f := r.statement] && prepared == old(prepared) + [f])
        && (f !in old(entries) && !db.accepts(f.1) ==>
              r == Threw(PrepareFailed(f.1)) && entries == old(entries) && prepared == old(prepared))
        && (r.Ran? ==> f in entries && r.statement == entries[f])
        && (forall g :: g in old(entries) ==> g in entries && entries[g] == old(entries)[g])
    {
      var invalid := ValidateTableName(table);
      if invalid.Some? {
        return Threw(invalid.value);
      }
      var stmt := UpdateStmt(table, objectKeys, condition);
      r := PrepareCached(db, stmt);
    }
  }

  /** Two databases with different names that receive the same write each get
      their own prepared statement, a repeated write on either reuses it, and a
      table outside the list is refused without touching the cache. */
  method TwoDatabases(a: Database, b: Database, keys: seq<string>)
    returns (ra: WriteOutcome, rb: WriteOutcome, again: WriteOutcome, bad: WriteOutcome)
    requires a.name != b.name
    requires a.accepts(InsertOrReplaceStmt("sessions", keys))
    requires b.accepts(InsertOrReplaceStmt("sessions", keys))
    ensures ra.Ran? && rb.Ran? && ra.statement != rb.statement
    ensures ra.statement.dbName == a.name && rb.statement.dbName == b.name
    ensures again == ra
    ensures bad == Threw(InvalidTableName("users"))
  {
    var stmt := InsertOrReplaceStmt("sessions", keys);
    var c := new StatementCache();
    ra := c.InsertOrReplaceIntoDb(a, "sessions", keys);
    assert ra == Ran(Prepared(a.name, stmt, 0));
    assert (b.name, stmt) !in c.entries;
    rb := c.InsertOrReplaceIntoDb(b, "sessions", keys);
    assert rb == Ran(Prepared(b.name, stmt, 1));
    again := c.InsertOrReplaceIntoDb(a, "sessions", keys);
    bad := c.InsertOrReplaceIntoDb(a, "users", keys);
  }
}
