/**
 QueryExperimentModels of data/experiment.go: the SQL text and its parameter list are grown clause
 by clause, and the database reads them back by position.
 */
module ExperimentQuery {
  import opened ExperimentTable
  import opened Options
  import opened Sequences
  import Decimal
  import Strings

  /** The pieces that Sprintf appends to the statement. */
  datatype Fragment = SelectAll | AndStatus | OrderAsc | OrderDesc | LimitPair

  function Text(f: Fragment): string {
    match f
    case SelectAll => "SELECT * FROM experiment where 1=1"
    case AndStatus => " and status = ?"
    case OrderAsc => " order by id asc"
    case OrderDesc => " order by id desc"
    case LimitPair => " limit ?,?"
  }

  function SqlText(sql: seq<Fragment>): string {
    if sql == [] then "" else Text(sql[0]) + SqlText(sql[1..])
  }

  function Placeholders(text: string): nat {
    multiset(text)['?']
  }

  /** What a query yields: database/sql counts the arguments first; a step that fails ends the scan. */
  datatype Scan = ArgumentError | Scanned(rows: seq<Row>, stepFailed: bool)

  function WithStatus(rows: seq<Row>, status: string): seq<Row> {
    if rows == [] then []
    else (if rows[0].status == status then [rows[0]] else []) + WithStatus(rows[1..], status)
  }

  function InsertById(row: Row, sorted: seq<Row>): seq<Row> {
    if sorted == [] || row.id <= sorted[0].id then [row] + sorted else [sorted[0]] + InsertById(row, sorted[1..])
  }

  function SortById(rows: seq<Row>): seq<Row> {
    if rows == [] then [] else InsertById(rows[0], SortById(rows[1..]))
  }

  /** LIMIT offset, count: a negative offset counts as 0, a negative count as no bound. */
  function Window(rows: seq<Row>, offset: int, count: int): (w: seq<Row>)
    ensures |w| <= |rows|
  {
    var from := if offset < 0 then 0 else Min(offset, |rows|);
    if count < 0 then rows[from..] else rows[from..Min(from + count, |rows|)]
  }

  /** The database runs the clauses in order and takes each clause's arguments from the front of the list. */
  function Run(sql: seq<Fragment>, args: seq<string>, toInt: string -> Option<int>, rows: seq<Row>): Scan {
    if sql == [] then Scanned(rows, false)
    else
      match sql[0]
      case SelectAll => Run(sql[1..], args, toInt, rows)
      case AndStatus =>
        if args == [] then ArgumentError else Run(sql[1..], args[1..], toInt, WithStatus(rows, args[0]))
      case OrderAsc => Run(sql[1..], args, toInt, SortById(rows))
      case OrderDesc => Run(sql[1..], args, toInt, Reverse(SortById(rows)))
      case LimitPair =>
        if |args| < 2 then ArgumentError
        else
          var offset, count := toInt(args[0]), toInt(args[1]);
          if offset.None? || count.None? then Scanned([], true)
          else Run(sql[1..], args[2..], toInt, Window(rows, offset.value, count.value))
  }

  function Execute(sql: seq<Fragment>, args: seq<string>, toInt: string -> Option<int>, rows: seq<Row>): Scan {
    if Placeholders(SqlText(sql)) != |args| then ArgumentError else Run(sql, args, toInt, rows)
  }

  /** Only a lower-case first letter changes, to its upper case. */
  function UpperFirst(s: string): (r: string)
    requires s != ""
    ensures |r| == |s| && r[1..] == s[1..] && Strings.EqualFold(r, s)
    ensures !('a' <= r[0] <= 'z') && ('a' <= s[0] <= 'z' || r == s)
  {
    [if 'a' <= s[0] <= 'z' then s[0] - 'a' + 'A' else s[0]] + s[1..]
  }

  /** The rows a caller asks for: those of the status, in the order of the flag. */
  function Selected(rows: seq<Row>, status: string, asc: bool): seq<Row> {
    var chosen := if status == "" then rows else WithStatus(rows, UpperFirst(status));
    if asc then chosen else Reverse(chosen)
  }

  /** "count" or "offset,count"; pieces after the second are ignored. */
  function OffsetAndCount(limit: string): (string, string) {
    var values := Strings.Split(limit, ',');
    if |values| > 1 then (values[0], values[1]) else ("0", values[0])
  }

  /** The two parts of a limit, with or without more after them, and the one part of a limit without a comma. */
  lemma LimitParts(offset: string, count: string, more: string)
    requires ',' !in offset && ',' !in count
    ensures OffsetAndCount(offset + "," + count) == (offset, count)
    ensures OffsetAndCount(offset + "," + count + "," + more) == (offset, count)
    ensures OffsetAndCount(count) == ("0", count)
  {
    Strings.SplitWithout(count, ',');
    Strings.SplitAfter(offset, ',', count);
    assert offset + "," + count == offset + [','] + count;
    Strings.SplitAfter(count, ',', more);
    Strings.SplitAfter(offset, ',', count + [','] + more);
    assert offset + "," + count + "," + more == offset + [','] + (count + [','] + more);
  }

  /** Row by row: a window starts at its offset, or at 0, and is as long as its count allows, or all that is left. */
  lemma WindowRows(rows: seq<Row>, offset: int, count: int)
    ensures var w, from := Window(rows, offset, count), if offset < 0 then 0 else offset;
            && (forall i | 0 <= i < |w| :: from + i < |rows| && w[i] == rows[from + i])
            && (forall i | from <= i < |rows| && (count < 0 || i < from + count) ::
                  i - from < |w| && w[i - from] == rows[i])
            && (count >= 0 ==> |w| <= count)
  {
  }

  lemma {:induction false} InsertKeepsRows(row: Row, sorted: seq<Row>)
    ensures multiset(InsertById(row, sorted)) == multiset{row} + multiset(sorted)
  {
    if sorted != [] {
      assert sorted == [sorted[0]] + sorted[1..];
      InsertKeepsRows(row, sorted[1..]);
    }
  }

  ghost predicate ByIds(rows: seq<Row>) {
    forall i, j | 0 <= i < j < |rows| :: rows[i].id <= rows[j].id
  }

  lemma InsertedAreIn(row: Row, sorted: seq<Row>, x: Row)
    requires x in InsertById(row, sorted)
    ensures x == row || x in sorted
  {
    InsertKeepsRows(row, sorted);
    assert x in multiset(InsertById(row, sorted));
  }

  lemma HeadBefore(first: Row, rest: seq<Row>)
    requires ByIds(rest) && forall x | x in rest :: first.id <= x.id
    ensures ByIds([first] + rest)
  {
  }

  lemma {:induction false} InsertKeepsOrder(row: Row, sorted: seq<Row>)
    requires ByIds(sorted)
    ensures ByIds(InsertById(row, sorted))
  {
    if sorted == [] {
    } else if row.id <= sorted[0].id {
      HeadBefore(row, sorted);
    } else {
      InsertKeepsOrder(row, sorted[1..]);
      var rest := InsertById(row, sorted[1..]);
      forall x | x in rest ensures sorted[0].id <= x.id {
        InsertedAreIn(row, sorted[1..], x);
      }
      HeadBefore(sorted[0], rest);
    }
  }

  /** ORDER BY id: the same rows, ascending. */
  lemma {:induction false} SortByIdSorts(rows: seq<Row>)
    ensures var r := SortById(rows);
            multiset(r) == multiset(rows) && forall i, j | 0 <= i < j < |r| :: r[i].id <= r[j].id
  {
    if rows != [] {
      SortByIdSorts(rows[1..]);
      InsertKeepsRows(rows[0], SortById(rows[1..]));
      InsertKeepsOrder(rows[0], SortById(rows[1..]));
      assert rows == [rows[0]] + rows[1..];
    }
  }

  /** What the query means: the selected rows cut to the window, or nothing when its numbers cannot be read. */
  function Meaning(rows: seq<Row>, status: string, limit: string, asc: bool, toInt: string -> Option<int>): seq<Row> {
    var selected := Selected(rows, status, asc);
    if limit == "" then selected
    else
      var offset, count := toInt(OffsetAndCount(limit).0), toInt(OffsetAndCount(limit).1);
      if offset.None? || count.None? then [] else Window(selected, offset.value, count.value)
  }

  predicate LimitUnreadable(limit: string, toInt: string -> Option<int>) {
    limit != "" && (toInt(OffsetAndCount(limit).0).None? || toInt(OffsetAndCount(limit).1).None?)
  }

  function Arity(f: Fragment): nat {
    match f case AndStatus => 1 case LimitPair => 2 case _ => 0
  }

  lemma NoPlaceholder(text: string)
    requires '?' !in text
    ensures Placeholders(text) == 0
  {
  }

  lemma StatusPlaceholder()
    ensures Placeholders(Text(AndStatus)) == 1
  {
  }

  lemma LimitPlaceholders()
    ensures Placeholders(Text(LimitPair)) == 2
  {
  }

  lemma FragmentPlaceholders(f: Fragment)
    ensures Placeholders(Text(f)) == Arity(f)
  {
    match f
    case SelectAll => NoPlaceholder(Text(SelectAll));
    case AndStatus => StatusPlaceholder();
    case OrderAsc => NoPlaceholder(Text(OrderAsc));
    case OrderDesc => NoPlaceholder(Text(OrderDesc));
    case LimitPair => LimitPlaceholders();
  }

  function TotalArity(sql: seq<Fragment>): nat {
    if sql == [] then 0 else Arity(sql[0]) + TotalArity(sql[1..])
  }

  lemma {:induction false} SqlPlaceholders(sql: seq<Fragment>)
    ensures Placeholders(SqlText(sql)) == TotalArity(sql)
  {
    if sql != [] {
      FragmentPlaceholders(sql[0]);
      SqlPlaceholders(sql[1..]);
    }
  }

  lemma {:induction false} SortOfAscending(rows: seq<Row>)
    requires Ascending(rows)
    ensures SortById(rows) == rows
  {
    if rows != [] {
      SortOfAscending(rows[1..]);
    }
  }

  lemma {:induction false} WithStatusIn(rows: seq<Row>, status: string)
    ensures forall r :: r in WithStatus(rows, status) <==> r in rows && r.status == status
  {
    if rows != [] {
      WithStatusIn(rows[1..], status);
    }
  }

  lemma {:induction false} WithStatusAscending(rows: seq<Row>, status: string)
    requires Ascending(rows)
    ensures Ascending(WithStatus(rows, status))
  {
    if rows != [] {
      var rest := WithStatus(rows[1..], status);
      WithStatusAscending(rows[1..], status);
      WithStatusIn(rows[1..], status);
      forall i | 0 <= i < |rest| ensures rows[0].id < rest[i].id {
        assert rest[i] in rows[1..];
      }
    }
  }

  /** The statement and its arguments, as values. */
  function OrderAndLimit(limit: string, asc: bool): seq<Fragment> {
    [if asc then OrderAsc else OrderDesc] + if limit == "" then [] else [LimitPair]
  }

  function Clauses(status: string, limit: string, asc: bool): seq<Fragment> {
    [SelectAll] + (if status == "" then [] else [AndStatus]) + OrderAndLimit(limit, asc)
  }

  function LimitArguments(limit: string): seq<string> {
    if limit == "" then [] else [OffsetAndCount(limit).0, OffsetAndCount(limit).1]
  }

  function Arguments(status: string, limit: string): seq<string> {
    (if status == "" then [] else [UpperFirst(status)]) + LimitArguments(limit)
  }

  lemma RunOrdered(order: Fragment, tail: seq<Fragment>, args: seq<string>, toInt: string -> Option<int>,
                   rows: seq<Row>)
    requires Ascending(rows) && (order == OrderAsc || order == OrderDesc)
    ensures Run([order] + tail, args, toInt, rows)
            == Run(tail, args, toInt, if order == OrderAsc then rows else Reverse(rows))
  {
    SortOfAscending(rows);
    assert ([order] + tail)[1..] == tail;
  }

  lemma RunLimit(args: seq<string>, toInt: string -> Option<int>, rows: seq<Row>)
    requires |args| == 2
    ensures var offset, count := toInt(args[0]), toInt(args[1]);
            Run([LimitPair], args, toInt, rows)
            == if offset.None? || count.None? then Scanned([], true)
               else Scanned(Window(rows, offset.value, count.value), false)
  {
    assert [LimitPair][1..] == [];
  }

  lemma RunOrderAndLimit(limit: string, asc: bool, toInt: string -> Option<int>, rows: seq<Row>)
    requires Ascending(rows)
    ensures var scan := Run(OrderAndLimit(limit, asc), LimitArguments(limit), toInt, rows);
            scan == Scanned(Meaning(rows, "", limit, asc, toInt), LimitUnreadable(limit, toInt))
  {
    var tail := if limit == "" then [] else [LimitPair];
    var selected := if asc then rows else Reverse(rows);
    RunOrdered(OrderAndLimit(limit, asc)[0], tail, LimitArguments(limit), toInt, rows);
    if limit != "" {
      RunLimit(LimitArguments(limit), toInt, selected);
    }
  }

  lemma RunClauses(status: string, limit: string, asc: bool, toInt: string -> Option<int>, rows: seq<Row>)
    requires Ascending(rows)
    ensures var scan := Run(Clauses(status, limit, asc), Arguments(status, limit), toInt, rows);
            scan == Scanned(Meaning(rows, status, limit, asc, toInt), LimitUnreadable(limit, toInt))
  {
    var sql, tail := Clauses(status, limit, asc), OrderAndLimit(limit, asc);
    if status == "" {
      assert sql[1..] == tail && Arguments(status, limit) == LimitArguments(limit);
      RunOrderAndLimit(limit, asc, toInt, rows);
    } else {
      var chosen := WithStatus(rows, UpperFirst(status));
      WithStatusAscending(rows, UpperFirst(status));
      assert sql[1..][1..] == tail && Arguments(status, limit)[1..] == LimitArguments(limit);
      RunOrderAndLimit(limit, asc, toInt, chosen);
    }
  }

  lemma {:induction false} ArityConcat(a: seq<Fragment>, b: seq<Fragment>)
    ensures TotalArity(a + b) == TotalArity(a) + TotalArity(b)
  {
    if a == [] {
      assert a + b == b;
    } else {
      ArityConcat(a[1..], b);
      assert (a + b)[1..] == a[1..] + b;
    }
  }

  lemma ClausesMatchArguments(status: string, limit: string, asc: bool)
    ensures TotalArity(Clauses(status, limit, asc)) == |Arguments(status, limit)|
  {
    var head := [SelectAll] + if status == "" then [] else [AndStatus];
    ArityConcat(head, OrderAndLimit(limit, asc));
    ArityConcat([SelectAll], if status == "" then [] else [AndStatus]);
    ArityConcat([OrderAndLimit(limit, asc)[0]], if limit == "" then [] else [LimitPair]);
  }

  /**
   Read back by position, the built statement yields exactly the rows that were asked for; the scan
   fails exactly when the database cannot read one of the limit's numbers.
   */
  lemma BuiltQueryMeans(status: string, limit: string, asc: bool)
    ensures Placeholders(SqlText(Clauses(status, limit, asc))) == |Arguments(status, limit)|
    ensures forall toInt: string -> Option<int>, rows: seq<Row> | Ascending(rows) ::
              var scan := Execute(Clauses(status, limit, asc), Arguments(status, limit), toInt, rows);
              scan == Scanned(Meaning(rows, status, limit, asc, toInt), LimitUnreadable(limit, toInt))
  {
    SqlPlaceholders(Clauses(status, limit, asc));
    ClausesMatchArguments(status, limit, asc);
    forall toInt: string -> Option<int>, rows: seq<Row> | Ascending(rows)
      ensures var scan := Execute(Clauses(status, limit, asc), Arguments(status, limit), toInt, rows);
              scan == Scanned(Meaning(rows, status, limit, asc, toInt), LimitUnreadable(limit, toInt))
    {
      RunClauses(status, limit, asc, toInt, rows);
    }
  }

  /** A one-part limit that the database cannot read: no row comes back, whichever were selected, and the scan fails. */
  lemma UnreadableLimitIsSilent(status: string, limit: string, asc: bool, toInt: string -> Option<int>, rows: seq<Row>)
    requires Ascending(rows) && limit != "" && ',' !in limit && toInt(limit).None?
    ensures Execute(Clauses(status, limit, asc), Arguments(status, limit), toInt, rows) == Scanned([], true)
  {
    BuiltQueryMeans(status, limit, asc);
    Strings.SplitWithout(limit, ',');
  }

  lemma Joined(a: string, b: string, c: string, d: string)
    ensures a + (b + (c + d)) == a + b + c + d
  {
  }

  lemma TextOfOrder(limit: string, asc: bool)
    ensures SqlText(OrderAndLimit(limit, asc))
            == (if asc then " order by id asc" else " order by id desc") + if limit == "" then "" else " limit ?,?"
  {
    TextOfTail(limit);
    TextOfHead(if asc then OrderAsc else OrderDesc, if limit == "" then [] else [LimitPair]);
  }

  lemma TextOfStatus(status: string, rest: seq<Fragment>)
    ensures SqlText((if status == "" then [] else [AndStatus]) + rest)
            == (if status == "" then "" else " and status = ?") + SqlText(rest)
  {
    if status == "" {
      assert [] + rest == rest;
    } else {
      TextOfHead(AndStatus, rest);
    }
  }

  /** The statement's text. */
  lemma StatementText(status: string, limit: string, asc: bool)
    ensures SqlText(Clauses(status, limit, asc))
            == "SELECT * FROM experiment where 1=1" + (if status == "" then "" else " and status = ?")
               + (if asc then " order by id asc" else " order by id desc") + if limit == "" then "" else " limit ?,?"
  {
    var order := OrderAndLimit(limit, asc);
    var middle := (if status == "" then [] else [AndStatus]) + order;
    TextOfOrder(limit, asc);
    TextOfStatus(status, order);
    TextOfHead(SelectAll, middle);
    assert Clauses(status, limit, asc) == [SelectAll] + middle;
    Joined(Text(SelectAll), if status == "" then "" else " and status = ?",
           if asc then " order by id asc" else " order by id desc", if limit == "" then "" else " limit ?,?");
  }

  lemma TextOfHead(f: Fragment, rest: seq<Fragment>)
    ensures SqlText([f] + rest) == Text(f) + SqlText(rest)
  {
    assert ([f] + rest)[1..] == rest;
  }

  lemma TextOfTail(limit: string)
    ensures SqlText(if limit == "" then [] else [LimitPair]) == if limit == "" then "" else " limit ?,?"
  {
    assert [LimitPair][1..] == [];
  }

  method BuildQuery(status: string, limit: string, asc: bool) returns (sql: seq<Fragment>, args: seq<string>)
    ensures sql == Clauses(status, limit, asc) && args == Arguments(status, limit)
  {
    sql, args := [SelectAll], [];
    if status != "" {
      sql := sql + [AndStatus];
      args := args + [UpperFirst(status)];
    }
    if asc {
      sql := sql + [OrderAsc];
    } else {
      sql := sql + [OrderDesc];
    }
    if limit != "" {
      var values := Strings.Split(limit, ',');
      var offset, count := "0", "0";
      if |values| > 1 {
        offset := values[0];
        count := values[1];
      } else {
        count := values[0];
      }
      sql := sql + [LimitPair];
      args := args + [offset, count];
    }
  }

  /** toInt is the database's reading of text bound to LIMIT; a failed step only ends the scan. */
  method QueryExperimentModels(store: ExperimentStore, status: string, limit: string, asc: bool,
                               toInt: string -> Option<int>)
    returns (models: Option<seq<ExperimentModel>>)
    requires store.Valid()
    ensures models.Some?
    ensures var rows := Meaning(store.rows, status, limit, asc, toInt);
            |models.value| == |rows| && forall i | 0 <= i < |rows| :: models.value[i] == ModelOf(rows[i])
  {
    var sql, args := BuildQuery(status, limit, asc);
    BuiltQueryMeans(status, limit, asc);
    var scan := Execute(sql, args, toInt, store.rows);
    if scan.ArgumentError? {
      return None;
    }
    var scanned := ExperimentModelsFrom(scan.rows);
    return Some(scanned);
  }

  /** The selected rows are the rows of the wanted status, all of them, by ascending id or backwards. */
  lemma SelectedRows(rows: seq<Row>, status: string)
    requires Ascending(rows)
    ensures forall r :: r in Selected(rows, status, true)
                        <==> r in rows && (status == "" || r.status == UpperFirst(status))
    ensures Ascending(Selected(rows, status, true))
    ensures Selected(rows, status, false) == Reverse(Selected(rows, status, true))
  {
    if status != "" {
      WithStatusIn(rows, UpperFirst(status));
      WithStatusAscending(rows, UpperFirst(status));
    }
  }

  /** The limit parameter of the page that starts at offset. */
  function PageLimit(offset: nat, size: nat): string {
    Decimal.FormatInt(offset) + "," + Decimal.FormatInt(size)
  }

  /** What a request for the page at an offset returns. */
  function PageAt(rows: seq<Row>, status: string, asc: bool, toInt: string -> Option<int>, size: nat): nat -> seq<Row> {
    (offset: nat) => Meaning(rows, status, PageLimit(offset, size), asc, toInt)
  }

  /** What successive page requests from offset on return, joined. */
  function Pages(page: nat -> seq<Row>, offset: nat, size: nat, pages: nat): seq<Row>
    decreases pages
  {
    if pages == 0 then [] else page(offset) + Pages(page, offset + size, size, pages - 1)
  }

  /** The database reads a 64-bit integer back from its decimal text. */
  ghost predicate ReadsDecimals(toInt: string -> Option<int>) {
    forall n | Decimal.IsInt64(n) :: toInt(Decimal.FormatInt(n)) == Some(n)
  }

  lemma PageWindow(rows: seq<Row>, status: string, asc: bool, toInt: string -> Option<int>, offset: nat, size: nat)
    requires ReadsDecimals(toInt) && Decimal.IsInt64(offset) && Decimal.IsInt64(size)
    ensures Meaning(rows, status, PageLimit(offset, size), asc, toInt)
            == Window(Selected(rows, status, asc), offset, size)
  {
    var first, second := Decimal.FormatInt(offset), Decimal.FormatInt(size);
    Strings.SplitAfter(first, ',', second);
    Strings.SplitWithout(second, ',');
    assert PageLimit(offset, size) == first + [','] + second;
    assert OffsetAndCount(PageLimit(offset, size)) == (first, second);
  }

  /** A limit that is one number keeps the first so many of the selected rows. */
  lemma CountLimitTakes(rows: seq<Row>, status: string, asc: bool, toInt: string -> Option<int>, count: nat)
    requires ReadsDecimals(toInt) && Decimal.IsInt64(count)
    ensures var selected := Selected(rows, status, asc);
            Meaning(rows, status, Decimal.FormatInt(count), asc, toInt) == selected[..Min(count, |selected|)]
  {
    var text := Decimal.FormatInt(count);
    Strings.SplitWithout(text, ',');
    assert OffsetAndCount(text) == ("0", text);
    assert Decimal.FormatInt(0) == "0";
  }

  /** Where the pages from offset on end. */
  function EndOfPages(offset: nat, size: nat, pages: nat): (end: nat)
    ensures end >= offset
    decreases pages
  {
    if pages == 0 then offset else EndOfPages(offset + size, size, pages - 1)
  }

  lemma {:induction false} EndOfPagesIs(offset: nat, size: nat, pages: nat)
    ensures EndOfPages(offset, size, pages) == offset + pages * size
    decreases pages
  {
    if pages > 0 {
      EndOfPagesIs(offset + size, size, pages - 1);
      assert pages * size == size + (pages - 1) * size;
    }
  }

  lemma WindowExtends(rows: seq<Row>, offset: nat, size: nat, end: nat)
    requires offset + size <= end
    ensures Window(rows, offset, size) + rows[Min(offset + size, |rows|)..Min(end, |rows|)]
            == rows[Min(offset, |rows|)..Min(end, |rows|)]
  {
  }

  lemma {:induction false} WindowsJoin(page: nat -> seq<Row>, selected: seq<Row>, offset: nat, size: nat, pages: nat,
                                       end: nat)
    requires end == EndOfPages(offset, size, pages)
    requires forall o: nat | o <= end :: page(o) == Window(selected, o, size)
    ensures Pages(page, offset, size, pages) == selected[Min(offset, |selected|)..Min(end, |selected|)]
    decreases pages
  {
    if pages > 0 {
      WindowsJoin(page, selected, offset + size, size, pages - 1, end);
      WindowExtends(selected, offset, size, end);
    }
  }

  /** Successive pages return every selected row once, in order, exactly when they reach past the last one. */
  lemma PagesCover(rows: seq<Row>, status: string, asc: bool, toInt: string -> Option<int>, size: nat, pages: nat)
    requires ReadsDecimals(toInt) && Decimal.IsInt64(pages * size) && Decimal.IsInt64(size)
    ensures Pages(PageAt(rows, status, asc, toInt, size), 0, size, pages) == Selected(rows, status, asc)
            <==> |Selected(rows, status, asc)| <= pages * size
  {
    var end, selected := EndOfPages(0, size, pages), Selected(rows, status, asc);
    var page := PageAt(rows, status, asc, toInt, size);
    EndOfPagesIs(0, size, pages);
    forall o: nat | o <= end ensures page(o) == Window(selected, o, size) {
      PageWindow(rows, status, asc, toInt, o, size);
    }
    WindowsJoin(page, selected, 0, size, pages, end);
    assert |selected[0..Min(end, |selected|)]| == Min(end, |selected|);
  }
}
