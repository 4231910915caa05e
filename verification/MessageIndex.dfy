/** The full-text index of src/styrened/models/messages.py: three triggers
    keep an external-content index in step with the messages table. */
module MessageIndex {
  import opened Prelude

  type RowId = int
  type Token = string
  type Tokenizer = string -> seq<Token>

  /** The indexed columns of a message; either may be NULL. */
  datatype Row = Row(content: Option<string>, title: Option<string>)

  datatype Column = Content | Title

  /** One entry of the inverted index. */
  datatype Posting = Posting(token: Token, rowid: RowId, column: Column, position: nat)

  type Table = map<RowId, Row>
  type Index = multiset<Posting>

  /** The entries for the tokens of one column, from position `from` on. */
  function TokenPostings(tokens: seq<Token>, id: RowId, column: Column, from: nat): Index {
    if tokens == [] then multiset{}
    else multiset{Posting(tokens[0], id, column, from)} + TokenPostings(tokens[1..], id, column, from + 1)
  }

  function ColumnPostings(tok: Tokenizer, id: RowId, column: Column, text: Option<string>): Index {
    if text.None? then multiset{} else TokenPostings(tok(text.value), id, column, 0)
  }

  /** What `INSERT INTO messages_fts(rowid, content, title)` adds and what the
      'delete' command with the same values takes away. */
  function RowPostings(tok: Tokenizer, id: RowId, row: Row): Index {
    ColumnPostings(tok, id, Content, row.content) + ColumnPostings(tok, id, Title, row.title)
  }

  ghost function AnyRow(table: Table): (id: RowId)
    requires table.Items != {}
    ensures id in table
  {
    var entry :| entry in table.Items;
    entry.0
  }

  /** The index built from scratch, row by row in any order. */
  ghost function Build(tok: Tokenizer, table: Table): Index
    decreases |table|
  {
    if table.Items == {} then multiset{}
    else
      var id := AnyRow(table);
      Build(tok, table - {id}) + RowPostings(tok, id, table[id])
  }

  datatype Statement =
    | Insert(id: RowId, row: Row)
    | Update(oldId: RowId, newId: RowId, row: Row)
    | Delete(id: RowId)

  /** A row statement is refused when it would give two rows one id. */
  predicate Refused(table: Table, s: Statement) {
    match s
    case Insert(id, _) => id in table
    case Update(oldId, newId, _) => oldId !in table || (newId != oldId && newId in table)
    case Delete(id) => id !in table
  }

  function TableStep(table: Table, s: Statement): Table {
    if Refused(table, s) then table
    else match s
      case Insert(id, row) => table[id := row]
      case Update(oldId, newId, row) => (table - {oldId})[newId := row]
      case Delete(id) => table - {id}
  }

  /** What a statement leaves under each id. One that would give two rows one
      id, or names no row, changes nothing. */
  lemma StatementEffect(table: Table, s: Statement, id: RowId)
    ensures var t := TableStep(table, s);
            match s
            case Insert(i, row) =>
              && (id in t <==> id == i || id in table)
              && (id in t ==> t[id] == if id in table then table[id] else row)
            case Update(i, j, row) =>
              if i !in table || (j != i && j in table) then t == table
              else (id in t <==> id == j || (id in table && id != i))
                   && (id in t ==> t[id] == if id == j then row else table[id])
            case Delete(i) =>
              && (id in t <==> id in table && id != i)
              && (id in t ==> t[id] == table[id])
  {
  }

  /** The table with its index; each method runs the statement and then the
      commands of the trigger that fires on it. */
  class MessageStore {
    var table: Table
    var index: Index
    const tok: Tokenizer

    ghost predicate InSync()
      reads this
    {
      index == Build(tok, table)
    }

    constructor (tok: Tokenizer)
      ensures InSync() && table == map[] && this.tok == tok
    {
      table, index := map[], multiset{};
      this.tok := tok;
    }

    /** `INSERT INTO messages_fts(rowid, content, title) VALUES (...)` */
    method IndexInsert(id: RowId, row: Row)
      modifies this`index
      ensures index == old(index) + RowPostings(tok, id, row)
    {
      index := index + RowPostings(tok, id, row);
    }

    /** `INSERT INTO messages_fts(messages_fts, ...) VALUES ('delete', ...)`.
        It is only sound with the values that were indexed for the row. */
    method IndexDelete(id: RowId, row: Row)
      requires RowPostings(tok, id, row) == Filed(index, id)
      modifies this`index
      ensures index == old(index) - RowPostings(tok, id, row)
    {
      index := index - RowPostings(tok, id, row);
    }

    method InsertRow(id: RowId, row: Row)
      requires InSync()
      modifies this
      ensures InSync() && table == TableStep(old(table), Insert(id, row))
    {
      if id in table {
        return;
      }
      BuildWith(tok, table, id, row);
      table := table[id := row];
      IndexInsert(id, row);
    }

    method DeleteRow(id: RowId)
      requires InSync()
      modifies this
      ensures InSync() && table == TableStep(old(table), Delete(id))
    {
      if id !in table {
        return;
      }
      var row := table[id];
      BuildWithout(tok, table, id);
      FiledIsRow(tok, table, id);
      table := table - {id};
      IndexDelete(id, row);
    }

    method UpdateRow(oldId: RowId, newId: RowId, row: Row)
      requires InSync()
      modifies this
      ensures InSync() && table == TableStep(old(table), Update(oldId, newId, row))
    {
      if oldId !in table || (newId != oldId && newId in table) {
        return;
      }
      var was := table[oldId];
      FiledIsRow(tok, table, oldId);
      BuildUpdated(tok, table, oldId, newId, row);
      table := (table - {oldId})[newId := row];
      IndexDelete(oldId, was);
      IndexInsert(newId, row);
    }
  }

  // ----------------------------------------------- the index built from scratch

  /** The entries of the index that are filed under one row id. */
  ghost function Filed(index: Index, id: RowId): (r: Index)
    ensures forall p :: r[p] == if p.rowid == id then index[p] else 0
    decreases |index|
  {
    if index == multiset{} then multiset{}
    else
      var p :| p in index;
      var rest := Filed(index[p := 0], id);
      if p.rowid == id then rest[p := index[p]] else rest
  }

  lemma BuildUpdated(tok: Tokenizer, table: Table, oldId: RowId, newId: RowId, row: Row)
    requires oldId in table && (newId == oldId || newId !in table)
    ensures Build(tok, (table - {oldId})[newId := row])
            == Build(tok, table) - RowPostings(tok, oldId, table[oldId]) + RowPostings(tok, newId, row)
  {
    hide RowPostings, Build;
    BuildWithout(tok, table, oldId);
    BuildWith(tok, table - {oldId}, newId, row);
  }

  lemma {:induction false} TokenPostingsAreOfRow(tokens: seq<Token>, id: RowId, column: Column, from: nat)
    ensures forall p :: p in TokenPostings(tokens, id, column, from) ==>
              p.rowid == id && p.column == column && p.position >= from
  {
    if tokens != [] {
      TokenPostingsAreOfRow(tokens[1..], id, column, from + 1);
    }
  }

  lemma RowPostingsAreOfRow(tok: Tokenizer, id: RowId, row: Row)
    ensures forall p :: p in RowPostings(tok, id, row) ==> p.rowid == id
  {
    if row.content.Some? {
      TokenPostingsAreOfRow(tok(row.content.value), id, Content, 0);
    }
    if row.title.Some? {
      TokenPostingsAreOfRow(tok(row.title.value), id, Title, 0);
    }
  }

  /** Entry by entry, the index built from scratch is that of the rows. */
  lemma {:induction false} BuildCount(tok: Tokenizer, table: Table, p: Posting)
    ensures Build(tok, table)[p] == if p.rowid in table then RowPostings(tok, p.rowid, table[p.rowid])[p] else 0
    decreases |table|
  {
    if table.Items != {} {
      var id := AnyRow(table);
      BuildCount(tok, table - {id}, p);
      RowPostingsAreOfRow(tok, id, table[id]);
    }
  }

  lemma BuildWith(tok: Tokenizer, table: Table, id: RowId, row: Row)
    requires id !in table
    ensures Build(tok, table[id := row]) == Build(tok, table) + RowPostings(tok, id, row)
  {
    forall p ensures Build(tok, table[id := row])[p] == (Build(tok, table) + RowPostings(tok, id, row))[p] {
      BuildCount(tok, table[id := row], p);
      BuildCount(tok, table, p);
      RowPostingsAreOfRow(tok, id, row);
    }
  }

  lemma BuildWithout(tok: Tokenizer, table: Table, id: RowId)
    requires id in table
    ensures Build(tok, table - {id}) == Build(tok, table) - RowPostings(tok, id, table[id])
  {
    BuildWith(tok, table - {id}, id, table[id]);
    assert (table - {id})[id := table[id]] == table;
  }

  /** In an index in step with the table, what is filed under a row is exactly
      what the 'delete' command with that row's current text takes away. */
  lemma FiledIsRow(tok: Tokenizer, table: Table, id: RowId)
    requires id in table
    ensures Filed(Build(tok, table), id) == RowPostings(tok, id, table[id])
  {
    RowPostingsAreOfRow(tok, id, table[id]);
    forall p ensures Filed(Build(tok, table), id)[p] == RowPostings(tok, id, table[id])[p] {
      BuildCount(tok, table, p);
    }
  }

  // --------------------------------------------------------------------- runs

  function TriggerStep(tok: Tokenizer, table: Table, index: Index, s: Statement): Index {
    if Refused(table, s) then index
    else match s
      case Insert(id, row) => index + RowPostings(tok, id, row)
      case Update(oldId, newId, row) => index - RowPostings(tok, oldId, table[oldId]) + RowPostings(tok, newId, row)
      case Delete(id) => index - RowPostings(tok, id, table[id])
  }

  function TableAfter(table: Table, run: seq<Statement>): Table
    decreases |run|
  {
    if run == [] then table else TableAfter(TableStep(table, run[0]), run[1..])
  }

  function IndexAfter(tok: Tokenizer, table: Table, index: Index, run: seq<Statement>): Index
    decreases |run|
  {
    if run == [] then index
    else IndexAfter(tok, TableStep(table, run[0]), TriggerStep(tok, table, index, run[0]), run[1..])
  }

  /** After any run of inserts, updates (changes of id included) and deletes,
      an index that started in step equals the index built from scratch. */
  lemma {:induction false} TriggersKeepIndex(tok: Tokenizer, table: Table, run: seq<Statement>)
    ensures IndexAfter(tok, table, Build(tok, table), run) == Build(tok, TableAfter(table, run))
    decreases |run|
  {
    if run != [] {
      StatementKeepsIndex(tok, table, run[0]);
      TriggersKeepIndex(tok, TableStep(table, run[0]), run[1..]);
    }
  }

  lemma StatementKeepsIndex(tok: Tokenizer, table: Table, s: Statement)
    ensures TriggerStep(tok, table, Build(tok, table), s) == Build(tok, TableStep(table, s))
  {
    if !Refused(table, s) {
      match s
      case Insert(id, row) => BuildWith(tok, table, id, row);
      case Delete(id) => BuildWithout(tok, table, id);
      case Update(oldId, newId, row) =>
        BuildWithout(tok, table, oldId);
        BuildWith(tok, table - {oldId}, newId, row);
    }
  }

  /** An index lookup of a token reports the row. */
  ghost predicate Reports(index: Index, token: Token, id: RowId) {
    exists p :: p in index && p.token == token && p.rowid == id
  }

  predicate Mentions(tok: Tokenizer, row: Row, token: Token) {
    || (row.content.Some? && token in tok(row.content.value))
    || (row.title.Some? && token in tok(row.title.value))
  }

  lemma {:induction false} TokenHasPosting(tokens: seq<Token>, id: RowId, column: Column, from: nat, token: Token)
    ensures token in tokens <==> exists k :: Posting(token, id, column, k) in TokenPostings(tokens, id, column, from)
  {
    if tokens != [] {
      TokenHasPosting(tokens[1..], id, column, from + 1, token);
      if tokens[0] == token {
        assert Posting(token, id, column, from) in TokenPostings(tokens, id, column, from);
      } else if token in tokens[1..] {
        var k :| Posting(token, id, column, k) in TokenPostings(tokens[1..], id, column, from + 1);
        assert Posting(token, id, column, k) in TokenPostings(tokens, id, column, from);
      }
    }
  }

  lemma ColumnHasPosting(tok: Tokenizer, id: RowId, column: Column, text: Option<string>, token: Token)
    ensures (text.Some? && token in tok(text.value))
       <==> exists k :: Posting(token, id, column, k) in ColumnPostings(tok, id, column, text)
  {
    if text.Some? {
      TokenHasPosting(tok(text.value), id, column, 0, token);
    }
  }

  /** Searching the maintained index after any run finds exactly the rows of
      the table whose content or title contains the token. */
  lemma SearchIsExact(tok: Tokenizer, run: seq<Statement>, token: Token, id: RowId)
    ensures var table := TableAfter(map[], run);
            Reports(IndexAfter(tok, map[], multiset{}, run), token, id) <==>
                id in table && Mentions(tok, table[id], token)
  {
    var table := TableAfter(map[], run);
    TriggersKeepIndex(tok, map[], run);
    var index := Build(tok, table);
    forall p ensures index[p] == if p.rowid in table then RowPostings(tok, p.rowid, table[p.rowid])[p] else 0 {
      BuildCount(tok, table, p);
    }
    if id in table {
      var row := table[id];
      ColumnHasPosting(tok, id, Content, row.content, token);
      ColumnHasPosting(tok, id, Title, row.title, token);
      RowMatch(tok, table, index, id, token);
    }
  }

  lemma RowMatch(tok: Tokenizer, table: Table, index: Index, id: RowId, token: Token)
    requires id in table
    requires forall p :: index[p] == if p.rowid in table then RowPostings(tok, p.rowid, table[p.rowid])[p] else 0
    ensures Reports(index, token, id) <==>
              || (exists k :: Posting(token, id, Content, k) in ColumnPostings(tok, id, Content, table[id].content))
              || (exists k :: Posting(token, id, Title, k) in ColumnPostings(tok, id, Title, table[id].title))
  {
    var row := table[id];
    if Reports(index, token, id) {
      var p :| p in index && p.token == token && p.rowid == id;
      assert p in RowPostings(tok, id, row);
      if row.content.Some? {
        TokenPostingsAreOfRow(tok(row.content.value), id, Content, 0);
      }
      if row.title.Some? {
        TokenPostingsAreOfRow(tok(row.title.value), id, Title, 0);
      }
      assert p == Posting(token, id, p.column, p.position);
    }
    if k :| Posting(token, id, Content, k) in ColumnPostings(tok, id, Content, row.content) {
      assert Posting(token, id, Content, k) in index;
    }
    if k :| Posting(token, id, Title, k) in ColumnPostings(tok, id, Title, row.title) {
      assert Posting(token, id, Title, k) in index;
    }
  }

  // ------------------------------------------------------- upgraded databases

  /** The virtual table is created empty and never rebuilt, so on a database
      that already holds messages the index starts in step exactly when none
      of them has a token in its content or title. */
  lemma UpgradeStartsInStep(tok: Tokenizer, table: Table)
    ensures multiset{} == Build(tok, table) <==> forall id, token :: id in table ==> !Mentions(tok, table[id], token)
  {
    forall id, token | id in table && Mentions(tok, table[id], token) ensures Build(tok, table) != multiset{} {
      ColumnHasPosting(tok, id, Content, table[id].content, token);
      ColumnHasPosting(tok, id, Title, table[id].title, token);
      RowPostingsAreOfRow(tok, id, table[id]);
      var p :| p in RowPostings(tok, id, table[id]);
      BuildCount(tok, table, p);
    }
    forall p ensures p in Build(tok, table) ==> p.rowid in table && Mentions(tok, table[p.rowid], p.token) {
      BuildCount(tok, table, p);
      if p.rowid in table {
        PostingIsMentioned(tok, p, table[p.rowid]);
      }
    }
    if Build(tok, table) != multiset{} {
      var p :| p in Build(tok, table);
      assert Mentions(tok, table[p.rowid], p.token);
    }
  }

  lemma PostingIsMentioned(tok: Tokenizer, p: Posting, row: Row)
    ensures p in RowPostings(tok, p.rowid, row) ==> Mentions(tok, row, p.token)
  {
    if row.content.Some? {
      TokenPostingsAreOfRow(tok(row.content.value), p.rowid, Content, 0);
    }
    if row.title.Some? {
      TokenPostingsAreOfRow(tok(row.title.value), p.rowid, Title, 0);
    }
    assert p == Posting(p.token, p.rowid, p.column, p.position);
    ColumnHasPosting(tok, p.rowid, Content, row.content, p.token);
    ColumnHasPosting(tok, p.rowid, Title, row.title, p.token);
  }
}
