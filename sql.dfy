/** The SQL text and parameter lists built by the generic table model (`BaseModel`):
    `get_by_id`, `update`, `insert` and `delete`.  A record's data is an ordered list of
    (column, value) pairs, as a Python dict iterates. */
module Sql {
  import opened Common

  datatype Value = Int(i: int) | Text(s: string) | Null

  /** A statement as handed to the driver: text with `%s` placeholders, and their values. */
  datatype Statement = Statement(sql: string, params: seq<Value>)

  predicate IsIdentChar(c: char)
  {
    ('a' <= c <= 'z') || ('A' <= c <= 'Z') || ('0' <= c <= '9') || c == '_'
  }

  /** Table and column names as the callers write them. */
  predicate IsIdentifier(s: string)
  {
    |s| > 0 && forall i :: 0 <= i < |s| ==> IsIdentChar(s[i])
  }

  /** The number of `%s` placeholders in a statement's text. */
  function Placeholders(s: string): nat
  {
    if |s| < 2 then 0
    else (if s[0] == '%' && s[1] == 's' then 1 else 0) + Placeholders(s[1..])
  }

  function Columns(data: seq<(string, Value)>): (ks: seq<string>)
    ensures |ks| == |data| && forall i :: 0 <= i < |data| ==> ks[i] == data[i].0
  {
    seq(|data|, i requires 0 <= i < |data| => data[i].0)
  }

  function Values(data: seq<(string, Value)>): (vs: seq<Value>)
    ensures |vs| == |data| && forall i :: 0 <= i < |data| ==> vs[i] == data[i].1
  {
    seq(|data|, i requires 0 <= i < |data| => data[i].1)
  }

  predicate AllIdentifiers(data: seq<(string, Value)>)
  {
    forall i :: 0 <= i < |data| ==> IsIdentifier(data[i].0)
  }

  /** The `k = %s` assignment of every column, separated by commas. */
  function SetClause(keys: seq<string>): string
  {
    Join(", ", seq(|keys|, i requires 0 <= i < |keys| => keys[i] + " = %s"))
  }

  /** `get_by_id`: the statement that selects a row by its id. */
  function SelectById(table: string, rid: int): (st: Statement)
    requires IsIdentifier(table)
    ensures Placeholders(st.sql) == |st.params| == 1
    ensures st.params == [Int(rid)]
  {
    ByIdPlaceholders("SELECT * FROM ", table);
    Statement("SELECT * FROM " + table + " WHERE rid = %s", [Int(rid)])
  }

  /** `get_by_id`: the first row the query returns, or nothing. */
  function FirstOrNone<R>(result: seq<R>): (r: Option<R>)
    ensures r.None? <==> result == []
    ensures r.Some? ==> r.value == result[0]
  {
    if result == [] then None else Some(result[0])
  }

  /** `column = %s` for each column, in order. */
  function Assignments(keys: seq<string>): (r: seq<string>)
    ensures |r| == |keys| && forall i :: 0 <= i < |keys| ==> r[i] == keys[i] + " = %s"
  {
    seq(|keys|, i requires 0 <= i < |keys| => keys[i] + " = %s")
  }

  /** `n` placeholders. */
  function Marks(n: nat): (r: seq<string>)
    ensures |r| == n && forall i :: 0 <= i < n ==> r[i] == "%s"
  {
    seq(n, i => "%s")
  }

  /** `text` is `head`, then a list that cuts at ", " into `parts`, then `tail`. */
  predicate Frames(text: string, head: string, parts: seq<string>, tail: string)
  {
    |head| + |tail| <= |text| && text[..|head|] == head && text[|text| - |tail|..] == tail
    && SplitList(text[|head|..|text| - |tail|]) == parts
  }

  /** `update`: one `k = %s` per column, then the row id; values in column order, then the id.
      Between `SET` and `WHERE` the text lists assignment i as `column i = %s`, and the i-th
      placeholder is bound to value i, so every column gets its own value. */
  function UpdateStatement(table: string, data: seq<(string, Value)>, rid: int): (st: Statement)
    requires IsIdentifier(table) && AllIdentifiers(data)
    ensures Placeholders(st.sql) == |st.params| == |data| + 1
    ensures st.params[..|data|] == Values(data) && st.params[|data|] == Int(rid)
    ensures data != [] ==>
              Frames(st.sql, "UPDATE " + table + " SET ", Assignments(Columns(data)), " WHERE rid = %s")
  {
    var clause := SetClause(Columns(data));
    SetClausePlaceholders(Columns(data));
    UpdatePlaceholders(table, clause);
    UpdateFrames(table, data, clause);
    Statement("UPDATE " + table + " SET " + clause + " WHERE rid = %s", Values(data) + [Int(rid)])
  }

  /** `insert`: the columns in order, one `%s` per column, the values in the same order.  The
      parenthesised column list names exactly the data's columns in parameter order, and the
      `VALUES` list holds one placeholder per column. */
  function InsertStatement(table: string, data: seq<(string, Value)>): (st: Statement)
    requires IsIdentifier(table) && AllIdentifiers(data)
    ensures Placeholders(st.sql) == |st.params| == |data|
    ensures st.params == Values(data)
    ensures data != [] ==>
              var open := "INSERT INTO " + table + " (";
              var k := |open| + |Join(", ", Columns(data))| + |") VALUES ("|;
              k <= |st.sql|
              && Frames(st.sql[..k], open, Columns(data), ") VALUES (")
              && Frames(st.sql[k..], "", Marks(|data|), ")")
  {
    var columns := Join(", ", Columns(data));
    var marks := Join(", ", Marks(|data|));
    ColumnListPlaceholders(Columns(data));
    MarkListPlaceholders(|data|);
    assert Marks(|data|) == seq(|data|, i => "%s");
    InsertPlaceholders(table, columns, marks);
    InsertFrames(table, data, columns, marks);
    Statement("INSERT INTO " + table + " (" + columns + ") VALUES (" + marks + ")", Values(data))
  }

  lemma UpdateFrames(table: string, data: seq<(string, Value)>, clause: string)
    requires IsIdentifier(table) && AllIdentifiers(data) && clause == SetClause(Columns(data))
    ensures data != [] ==>
              Frames("UPDATE " + table + " SET " + clause + " WHERE rid = %s", "UPDATE " + table + " SET ",
                     Assignments(Columns(data)), " WHERE rid = %s")
  {
    if data != [] {
      AssignmentsSplit(Columns(data));
      FramesOf("UPDATE " + table + " SET ", clause, " WHERE rid = %s", Assignments(Columns(data)));
    }
  }

  lemma InsertFrames(table: string, data: seq<(string, Value)>, columns: string, marks: string)
    requires IsIdentifier(table) && AllIdentifiers(data)
    requires columns == Join(", ", Columns(data)) && marks == Join(", ", Marks(|data|))
    ensures data != [] ==>
            var sql := "INSERT INTO " + table + " (" + columns + ") VALUES (" + marks + ")";
            var open := "INSERT INTO " + table + " (";
            var k := |open| + |columns| + |") VALUES ("|;
            k <= |sql|
            && Frames(sql[..k], open, Columns(data), ") VALUES (")
            && Frames(sql[k..], "", Marks(|data|), ")")
  {
    if data == [] { return; }
    var open, values, close := "INSERT INTO " + table + " (", ") VALUES (", ")";
    var sql := open + columns + values + marks + close;
    var k := |open| + |columns| + |values|;
    assert sql == (open + columns + values) + (marks + close);
    assert sql[..k] == open + columns + values;
    assert sql[k..] == marks + close;
    forall i | 0 <= i < |data|
      ensures NoComma(Columns(data)[i])
    {
      IdentifierNoComma(data[i].0);
    }
    SplitJoin(Columns(data));
    FramesOf(open, columns, values, Columns(data));
    forall i | 0 <= i < |data|
      ensures NoComma(Marks(|data|)[i])
    {
    }
    SplitJoin(Marks(|data|));
    FramesOf("", marks, close, Marks(|data|));
    assert "" + marks + close == marks + close;
  }

  /** `delete`: exactly one placeholder, bound to the row id. */
  function DeleteStatement(table: string, rid: int): (st: Statement)
    requires IsIdentifier(table)
    ensures Placeholders(st.sql) == |st.params| == 1
    ensures st.params == [Int(rid)]
  {
    ByIdPlaceholders("DELETE FROM ", table);
    Statement("DELETE FROM " + table + " WHERE rid = %s", [Int(rid)])
  }

  /** Placeholders of a concatenation add up unless a `%` at the end of `a` meets an `s` at the start of `b`. */
  lemma {:induction false} PlaceholdersConcat(a: string, b: string)
    requires a == [] || b == [] || !(a[|a| - 1] == '%' && b[0] == 's')
    ensures Placeholders(a + b) == Placeholders(a) + Placeholders(b)
    decreases |a|
  {
    if |a| == 0 {
      assert a + b == b;
    } else if |a| == 1 {
      if |b| == 0 {
        assert a + b == a;
      } else {
        assert (a + b)[1..] == b;
      }
    } else {
      assert (a + b)[1..] == a[1..] + b;
      PlaceholdersConcat(a[1..], b);
    }
  }

  /** Text with no '%' in it. */
  predicate NoPercent(s: string)
  {
    forall i :: 0 <= i < |s| ==> s[i] != '%'
  }

  lemma NoPercentAppend(a: string, b: string)
    requires NoPercent(a) && NoPercent(b)
    ensures NoPercent(a + b)
  {
    forall i | 0 <= i < |a + b|
      ensures (a + b)[i] != '%'
    {
      if i >= |a| {
        assert (a + b)[i] == b[i - |a|];
      }
    }
  }

  /** A text ending in a non-empty text without '%' does not end in '%'. */
  lemma EndsWithoutPercent(a: string, b: string)
    requires NoPercent(b) && b != []
    ensures (a + b)[|a + b| - 1] != '%'
  {
    assert (a + b)[|a + b| - 1] == b[|b| - 1];
  }

  /** A text without '%' holds no placeholder. */
  lemma {:induction false} NoPercentNoPlaceholder(s: string)
    requires NoPercent(s)
    ensures Placeholders(s) == 0
    decreases |s|
  {
    if |s| >= 2 {
      NoPercentNoPlaceholder(s[1..]);
    }
  }

  lemma IdentifierNoPercent(s: string)
    requires forall i :: 0 <= i < |s| ==> IsIdentChar(s[i])
    ensures NoPercent(s)
  {
  }

  /** `<verb> <table> WHERE rid = %s` holds exactly one placeholder. */
  lemma ByIdPlaceholders(verb: string, table: string)
    requires NoPercent(verb)
    requires IsIdentifier(table)
    ensures Placeholders(verb + table + " WHERE rid = %s") == 1
  {
    IdentifierNoPercent(table);
    NoPercentAppend(verb, table);
    WhereRidPlaceholder(verb + table);
  }

  /** Text without '%' followed by ` WHERE rid = %s` holds exactly one placeholder. */
  lemma WhereRidPlaceholder(head: string)
    requires NoPercent(head)
    ensures Placeholders(head + " WHERE rid = %s") == 1
  {
    var where := " WHERE rid = ";
    assert NoPercent(where);
    NoPercentAppend(head, where);
    NoPercentNoPlaceholder(head + where);
    EndsWithoutPercent(head, where);
    PlaceholdersConcat(head + where, "%s");
    assert Placeholders("%s") == 1;
    assert head + where + "%s" == head + " WHERE rid = %s";
  }

  lemma UpdatePlaceholders(table: string, clause: string)
    requires IsIdentifier(table)
    ensures Placeholders("UPDATE " + table + " SET " + clause + " WHERE rid = %s") == Placeholders(clause) + 1
  {
    var verb, setWord := "UPDATE ", " SET ";
    assert NoPercent(verb) && NoPercent(setWord);
    IdentifierNoPercent(table);
    NoPercentAppend(verb, table);
    NoPercentAppend(verb + table, setWord);
    var head := verb + table + setWord;
    NoPercentNoPlaceholder(head);
    EndsWithoutPercent(verb + table, setWord);
    PlaceholdersConcat(head, clause);
    var where := " WHERE rid = %s";
    WhereRidPlaceholder([]);
    assert [] + where == where;
    assert where[0] != 's';
    PlaceholdersConcat(head + clause, where);
  }

  /** `INSERT INTO <table> (` holds no '%'. */
  lemma InsertOpenNoPercent(table: string)
    requires IsIdentifier(table)
    ensures NoPercent("INSERT INTO " + table + " (")
  {
    var verb, paren := "INSERT INTO ", " (";
    assert NoPercent(verb) && NoPercent(paren);
    IdentifierNoPercent(table);
    NoPercentAppend(verb, table);
    NoPercentAppend(verb + table, paren);
  }

  /** A text without '%' ending in a non-`%` character, then `s`, then `) VALUES (` adds no
      placeholder of its own. */
  lemma {:induction false} ValuesJoint(head: string, columns: string)
    requires NoPercent(head) && head != [] && Placeholders(columns) == 0
    ensures Placeholders(head + columns + ") VALUES (") == 0
  {
    NoPercentNoPlaceholder(head);
    PlaceholdersConcat(head, columns);
    var values := ") VALUES (";
    assert NoPercent(values);
    NoPercentNoPlaceholder(values);
    assert values[0] != 's';
    PlaceholdersConcat(head + columns, values);
  }

  lemma InsertPlaceholders(table: string, columns: string, marks: string)
    requires IsIdentifier(table) && Placeholders(columns) == 0
    ensures Placeholders("INSERT INTO " + table + " (" + columns + ") VALUES (" + marks + ")") == Placeholders(marks)
  {
    var open := "INSERT INTO " + table + " (";
    InsertOpenNoPercent(table);
    ValuesJoint(open, columns);
    var values := ") VALUES (";
    assert NoPercent(values);
    var head := open + columns + values;
    EndsWithoutPercent(open + columns, values);
    PlaceholdersConcat(head, marks);
    var close := ")";
    assert Placeholders(close) == 0;
    assert close[0] != 's';
    PlaceholdersConcat(head + marks, close);
  }

  lemma {:induction false} IdentifierHasNoPlaceholder(s: string)
    requires forall i :: 0 <= i < |s| ==> IsIdentChar(s[i])
    ensures Placeholders(s) == 0
    decreases |s|
  {
    if |s| >= 2 {
      IdentifierHasNoPlaceholder(s[1..]);
    }
  }

  /** The sum of the placeholders of the parts. */
  function PartPlaceholders(parts: seq<string>): nat
  {
    if parts == [] then 0 else Placeholders(parts[0]) + PartPlaceholders(parts[1..])
  }

  /** Joining with ", " never creates or destroys a placeholder. */
  lemma {:induction false} JoinPlaceholders(parts: seq<string>)
    ensures Placeholders(Join(", ", parts)) == PartPlaceholders(parts)
    decreases |parts|
  {
    if |parts| == 1 {
      assert PartPlaceholders(parts[1..]) == 0;
    } else if |parts| > 1 {
      var rest := Join(", ", parts[1..]);
      JoinPlaceholders(parts[1..]);
      PlaceholdersConcat(parts[0] + ", ", rest);
      PlaceholdersConcat(parts[0], ", ");
      assert Placeholders(", ") == 0;
      assert parts[0] + ", " + rest == Join(", ", parts);
    }
  }

  lemma {:induction false} SetClausePlaceholders(keys: seq<string>)
    requires forall i :: 0 <= i < |keys| ==> IsIdentifier(keys[i])
    ensures Placeholders(SetClause(keys)) == |keys|
    decreases |keys|
  {
    var parts := seq(|keys|, i requires 0 <= i < |keys| => keys[i] + " = %s");
    JoinPlaceholders(parts);
    PartsEachOne(keys, parts);
  }

  lemma {:induction false} PartsEachOne(keys: seq<string>, parts: seq<string>)
    requires forall i :: 0 <= i < |keys| ==> IsIdentifier(keys[i])
    requires |parts| == |keys| && forall i :: 0 <= i < |keys| ==> parts[i] == keys[i] + " = %s"
    ensures PartPlaceholders(parts) == |keys|
    decreases |keys|
  {
    if keys != [] {
      IdentifierHasNoPlaceholder(keys[0]);
      PlaceholdersConcat(keys[0], " = %s");
      assert Placeholders(" = %s") == 1;
      PartsEachOne(keys[1..], parts[1..]);
    }
  }

  lemma {:induction false} ColumnListPlaceholders(keys: seq<string>)
    requires forall i :: 0 <= i < |keys| ==> IsIdentifier(keys[i])
    ensures Placeholders(Join(", ", keys)) == 0
  {
    JoinPlaceholders(keys);
    PartsNone(keys);
  }

  lemma {:induction false} PartsNone(keys: seq<string>)
    requires forall i :: 0 <= i < |keys| ==> IsIdentifier(keys[i])
    ensures PartPlaceholders(keys) == 0
    decreases |keys|
  {
    if keys != [] {
      IdentifierHasNoPlaceholder(keys[0]);
      PartsNone(keys[1..]);
    }
  }

  lemma {:induction false} MarkListPlaceholders(n: nat)
    ensures Placeholders(Join(", ", seq(n, i => "%s"))) == n
  {
    JoinPlaceholders(seq(n, i => "%s"));
    MarksEachOne(seq(n, i => "%s"));
  }

  lemma {:induction false} MarksEachOne(marks: seq<string>)
    requires forall i :: 0 <= i < |marks| ==> marks[i] == "%s"
    ensures PartPlaceholders(marks) == |marks|
    decreases |marks|
  {
    if marks != [] {
      assert Placeholders(marks[0]) == 1;
      MarksEachOne(marks[1..]);
    }
  }

  /** The text cut at every ", ": the inverse of joining with ", " (see `SplitJoin`). */
  function SplitList(s: string): (parts: seq<string>)
    ensures |parts| >= 1
    decreases |s|
  {
    if |s| < 2 then [s]
    else if s[0] == ',' && s[1] == ' ' then [""] + SplitList(s[2..])
    else
      var rest := SplitList(s[1..]);
      [[s[0]] + rest[0]] + rest[1..]
  }

  predicate NoComma(s: string)
  {
    forall i :: 0 <= i < |s| ==> s[i] != ','
  }

  lemma IdentifierNoComma(s: string)
    requires IsIdentifier(s)
    ensures NoComma(s)
  {
  }

  /** A text without a comma is a list of one part. */
  lemma {:induction false} SplitNoComma(p: string)
    requires NoComma(p)
    ensures SplitList(p) == [p]
    decreases |p|
  {
    if |p| >= 2 {
      SplitNoComma(p[1..]);
      assert [p[0]] + p[1..] == p;
    }
  }

  /** A comma-free first part is cut off at the first ", ". */
  lemma {:induction false} SplitHead(p: string, t: string)
    requires NoComma(p)
    ensures SplitList(p + ", " + t) == [p] + SplitList(t)
    decreases |p|
  {
    var s := p + ", " + t;
    if p == [] {
      assert s == ", " + t;
      assert s[2..] == t;
    } else {
      assert s[0] == p[0];
      assert s[1..] == p[1..] + ", " + t;
      SplitHead(p[1..], t);
      assert [p[0]] + p[1..] == p;
    }
  }

  /** Cutting a joined list of comma-free parts at ", " gives back the parts. */
  lemma {:induction false} SplitJoin(parts: seq<string>)
    requires parts != [] && forall i :: 0 <= i < |parts| ==> NoComma(parts[i])
    ensures SplitList(Join(", ", parts)) == parts
    decreases |parts|
  {
    if |parts| == 1 {
      SplitNoComma(parts[0]);
    } else {
      SplitHead(parts[0], Join(", ", parts[1..]));
      SplitJoin(parts[1..]);
      assert [parts[0]] + parts[1..] == parts;
    }
  }

  lemma FramesOf(head: string, middle: string, tail: string, parts: seq<string>)
    requires SplitList(middle) == parts
    ensures Frames(head + middle + tail, head, parts, tail)
  {
    var text := head + middle + tail;
    assert text[..|head|] == head;
    assert text[|text| - |tail|..] == tail;
    assert text[|head|..|text| - |tail|] == middle;
  }

  /** The SET list of non-empty identifiers cuts back into one assignment per column. */
  lemma AssignmentsSplit(keys: seq<string>)
    requires keys != [] && forall i :: 0 <= i < |keys| ==> IsIdentifier(keys[i])
    ensures SplitList(SetClause(keys)) == Assignments(keys)
  {
    var parts := Assignments(keys);
    forall i | 0 <= i < |keys|
      ensures NoComma(parts[i])
    {
      IdentifierNoComma(keys[i]);
      assert parts[i] == keys[i] + " = %s";
    }
    assert SetClause(keys) == Join(", ", parts);
    SplitJoin(parts);
  }
}
