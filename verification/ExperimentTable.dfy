/**
 The experiment table of data/experiment.go: an id-ordered sequence of rows with a unique uid
 column and auto-increment ids, and the map from uid to row that it stands for.
 */
module ExperimentTable {
  import opened Options

  /** What the flag column holds: the joined arguments of a script, or the JSON parameters of a burn. */
  datatype Flag = Arguments(text: string) | Parameters(percent: int, pid: string)

  datatype ExperimentModel = ExperimentModel(
    uid: string, command: string, cmdType: string, subCommand: string, flag: Flag,
    status: string, error: string, createTime: string, updateTime: string)

  datatype Row = Row(
    id: nat, uid: string, command: string, cmdType: string, subCommand: string, flag: Flag,
    status: string, error: string, createTime: string, updateTime: string)

  datatype Table = Table(rows: seq<Row>, nextId: nat) {
    ghost predicate Valid() {
      Ascending(rows) && Distinct(rows) && forall i | 0 <= i < |rows| :: rows[i].id < nextId
    }
  }

  const EMPTY_TABLE := Table([], 1)

  ghost predicate Ascending(rows: seq<Row>) {
    forall i, j | 0 <= i < j < |rows| :: rows[i].id < rows[j].id
  }

  ghost predicate Distinct(rows: seq<Row>) {
    forall i, j | 0 <= i < j < |rows| :: rows[i].uid != rows[j].uid
  }

  /** The map that a table stands for. */
  function View(rows: seq<Row>): map<string, Row> {
    if rows == [] then map[]
    else
      var last := rows[|rows| - 1];
      View(rows[..|rows| - 1])[last.uid := last]
  }

  function NewRow(id: nat, m: ExperimentModel): Row {
    Row(id, m.uid, m.command, m.cmdType, m.subCommand, m.flag, m.status, m.error, m.createTime, m.updateTime)
  }

  function ModelOf(row: Row): ExperimentModel {
    ExperimentModel(row.uid, row.command, row.cmdType, row.subCommand, row.flag,
                    row.status, row.error, row.createTime, row.updateTime)
  }

  /** INSERT INTO experiment: a uid that is already there violates the unique column. */
  function Insert(t: Table, m: ExperimentModel): Table {
    if m.uid in View(t.rows) then t else Table(t.rows + [NewRow(t.nextId, m)], t.nextId + 1)
  }

  function Touched(row: Row, status: string, error: string, now: string): Row {
    row.(status := status, error := error, updateTime := now)
  }

  /** UPDATE experiment SET status, error, update_time WHERE uid = ? on every row. */
  function UpdateRows(rows: seq<Row>, uid: string, status: string, error: string, now: string): seq<Row> {
    if rows == [] then []
    else
      var last := rows[|rows| - 1];
      UpdateRows(rows[..|rows| - 1], uid, status, error, now)
      + [if last.uid == uid then Touched(last, status, error, now) else last]
  }

  function Update(t: Table, uid: string, status: string, error: string, now: string): Table {
    t.(rows := UpdateRows(t.rows, uid, status, error, now))
  }

  /** WHERE uid = ?, in id order. */
  function Matching(rows: seq<Row>, uid: string): seq<Row> {
    if rows == [] then []
    else
      var last := rows[|rows| - 1];
      Matching(rows[..|rows| - 1], uid) + if last.uid == uid then [last] else []
  }

  lemma {:induction false} ViewHolds(rows: seq<Row>)
    requires Distinct(rows)
    ensures forall i | 0 <= i < |rows| :: rows[i].uid in View(rows) && View(rows)[rows[i].uid] == rows[i]
  {
    if rows != [] {
      ViewHolds(rows[..|rows| - 1]);
    }
  }

  lemma {:induction false} ViewKey(rows: seq<Row>, uid: string) returns (i: nat)
    requires uid in View(rows)
    ensures i < |rows| && rows[i].uid == uid && View(rows)[uid] == rows[i]
  {
    i := |rows| - 1;
    if rows[i].uid != uid {
      i := ViewKey(rows[..i], uid);
    }
  }

  lemma InsertKeepsValid(t: Table, m: ExperimentModel)
    requires t.Valid()
    ensures Insert(t, m).Valid()
  {
    ViewHolds(t.rows);
  }

  /** Inserting adds one binding to the map, or changes nothing at all when the uid is taken. */
  lemma InsertRefines(t: Table, m: ExperimentModel)
    requires t.Valid()
    ensures Insert(t, m).Valid()
    ensures m.uid in View(t.rows) ==> Insert(t, m) == t
    ensures m.uid !in View(t.rows) ==> View(Insert(t, m).rows) == View(t.rows)[m.uid := NewRow(t.nextId, m)]
    ensures t.rows <= Insert(t, m).rows
  {
    InsertKeepsValid(t, m);
    var rows := t.rows + [NewRow(t.nextId, m)];
    assert rows[..|rows| - 1] == t.rows;
  }

  lemma LastIsNew(rows: seq<Row>)
    requires Distinct(rows) && rows != []
    ensures rows[|rows| - 1].uid !in View(rows[..|rows| - 1])
  {
    var n := |rows| - 1;
    if rows[n].uid in View(rows[..n]) {
      var i := ViewKey(rows[..n], rows[n].uid);
    }
  }

  lemma {:induction false} UpdateRowsAt(rows: seq<Row>, uid: string, status: string, error: string, now: string)
    ensures var after := UpdateRows(rows, uid, status, error, now);
            && |after| == |rows|
            && forall i | 0 <= i < |rows| ::
                 after[i] == if rows[i].uid == uid then Touched(rows[i], status, error, now) else rows[i]
  {
    if rows != [] {
      UpdateRowsAt(rows[..|rows| - 1], uid, status, error, now);
    }
  }

  lemma {:induction false} UpdateRowsView(rows: seq<Row>, uid: string, status: string, error: string, now: string)
    requires Distinct(rows)
    ensures View(UpdateRows(rows, uid, status, error, now))
            == if uid in View(rows)
               then View(rows)[uid := Touched(View(rows)[uid], status, error, now)]
               else View(rows)
  {
    if rows != [] {
      var n := |rows| - 1;
      var init, last, after := rows[..n], rows[n], UpdateRows(rows, uid, status, error, now);
      UpdateRowsView(init, uid, status, error, now);
      LastIsNew(rows);
      UpdateRowsAt(init, uid, status, error, now);
      assert after[..n] == UpdateRows(init, uid, status, error, now);
    }
  }

  lemma UpdateKeepsValid(t: Table, uid: string, status: string, error: string, now: string)
    requires t.Valid()
    ensures Update(t, uid, status, error, now).Valid()
  {
    UpdateRowsAt(t.rows, uid, status, error, now);
    var after := UpdateRows(t.rows, uid, status, error, now);
    forall i | 0 <= i < |after| ensures after[i].id == t.rows[i].id && after[i].uid == t.rows[i].uid {
    }
  }

  /** Updating changes the status, error and update time of that uid's binding and nothing else. */
  lemma UpdateRefines(t: Table, uid: string, status: string, error: string, now: string)
    requires t.Valid()
    ensures Update(t, uid, status, error, now).Valid()
    ensures var v := View(t.rows);
            View(Update(t, uid, status, error, now).rows)
            == if uid in v then v[uid := Touched(v[uid], status, error, now)] else v
  {
    UpdateKeepsValid(t, uid, status, error, now);
    UpdateRowsView(t.rows, uid, status, error, now);
  }

  /** Ids are 1, 2, 3 and so on in insertion order, without gaps. */
  ghost predicate Numbered(t: Table) {
    t.nextId == |t.rows| + 1 && forall i | 0 <= i < |t.rows| :: t.rows[i].id == i + 1
  }

  lemma InsertKeepsNumbered(t: Table, m: ExperimentModel)
    requires Numbered(t)
    ensures Numbered(Insert(t, m))
  {
  }

  lemma UpdateKeepsNumbered(t: Table, uid: string, status: string, error: string, now: string)
    requires Numbered(t)
    ensures Numbered(Update(t, uid, status, error, now))
  {
    UpdateRowsAt(t.rows, uid, status, error, now);
  }

  /** The same column by column: three are set, seven stay, and so does every other row. */
  lemma UpdatedColumns(t: Table, uid: string, status: string, error: string, now: string)
    requires t.Valid()
    ensures var before, after := View(t.rows), View(Update(t, uid, status, error, now).rows);
            && after.Keys == before.Keys
            && (forall u | u in before && u != uid :: after[u] == before[u])
            && (uid in before ==>
                  var r := before[uid];
                  after[uid] == Row(r.id, r.uid, r.command, r.cmdType, r.subCommand, r.flag,
                                    status, error, r.createTime, now))
  {
    UpdateRefines(t, uid, status, error, now);
  }

  /** A query after the update reads the new status, error and time with the old rest, or still nothing. */
  lemma UpdateThenRead(t: Table, uid: string, status: string, error: string, now: string)
    requires t.Valid()
    ensures var rows := Matching(Update(t, uid, status, error, now).rows, uid);
            if uid in View(t.rows) then
              var m := ModelOf(View(t.rows)[uid]);
              && |rows| == 1
              && ModelOf(rows[0]) == ExperimentModel(m.uid, m.command, m.cmdType, m.subCommand, m.flag,
                                                     status, error, m.createTime, now)
            else rows == []
  {
    UpdateRefines(t, uid, status, error, now);
    MatchingRefines(Update(t, uid, status, error, now).rows, uid);
  }

  /** An update after the insert shows in the new row. */
  lemma InsertThenUpdate(t: Table, m: ExperimentModel, status: string, error: string, now: string)
    requires t.Valid() && m.uid !in View(t.rows)
    ensures View(Update(Insert(t, m), m.uid, status, error, now).rows)
            == View(t.rows)[m.uid := Row(t.nextId, m.uid, m.command, m.cmdType, m.subCommand, m.flag,
                                         status, error, m.createTime, now)]
  {
    InsertRefines(t, m);
    UpdateRefines(Insert(t, m), m.uid, status, error, now);
  }

  /** An update before the insert is lost. */
  lemma UpdateThenInsert(t: Table, m: ExperimentModel, status: string, error: string, now: string)
    requires t.Valid() && m.uid !in View(t.rows)
    ensures View(Insert(Update(t, m.uid, status, error, now), m).rows)
            == View(t.rows)[m.uid := Row(t.nextId, m.uid, m.command, m.cmdType, m.subCommand, m.flag,
                                         m.status, m.error, m.createTime, m.updateTime)]
  {
    UpdateRefines(t, m.uid, status, error, now);
    InsertRefines(Update(t, m.uid, status, error, now), m);
  }

  lemma {:induction false} MatchingRefines(rows: seq<Row>, uid: string)
    requires Distinct(rows)
    ensures Matching(rows, uid) == if uid in View(rows) then [View(rows)[uid]] else []
  {
    if rows != [] {
      MatchingRefines(rows[..|rows| - 1], uid);
      LastIsNew(rows);
    }
  }

  /** A model read back after its insert is the model that was inserted, field by field. */
  lemma InsertThenRead(t: Table, m: ExperimentModel)
    requires t.Valid() && m.uid !in View(t.rows)
    ensures var rows := Matching(Insert(t, m).rows, m.uid);
            |rows| == 1 && ModelOf(rows[0]) == m && rows[0].id == t.nextId
  {
    InsertRefines(t, m);
    MatchingRefines(Insert(t, m).rows, m.uid);
  }

  /** data.Source with its experiment table. */
  class ExperimentStore {
    var rows: seq<Row>
    var nextId: nat

    ghost predicate Valid()
      reads this
    {
      Table(rows, nextId).Valid()
    }

    ghost function Contents(): map<string, Row>
      reads this
    {
      View(rows)
    }

    constructor ()
      ensures Valid() && Contents() == map[] && rows == [] && nextId == 1
    {
      rows, nextId := [], 1;
    }

    method InsertExperimentModel(model: ExperimentModel) returns (ok: bool)
      requires Valid()
      modifies this
      ensures Valid()
      ensures Table(rows, nextId) == Insert(old(Table(rows, nextId)), model)
      ensures ok <==> model.uid !in old(Contents())
      ensures ok ==> Contents() == old(Contents())[model.uid := NewRow(old(nextId), model)] && nextId == old(nextId) + 1
      ensures !ok ==> rows == old(rows) && nextId == old(nextId)
    {
      InsertRefines(Table(rows, nextId), model);
      var taken := Matching(rows, model.uid);
      MatchingRefines(rows, model.uid);
      ok := taken == [];
      if ok {
        rows, nextId := rows + [NewRow(nextId, model)], nextId + 1;
      }
    }

    method UpdateExperimentModelByUid(uid: string, status: string, errMsg: string, now: string)
      requires Valid()
      modifies this`rows
      ensures Valid()
      ensures Table(rows, nextId) == Update(old(Table(rows, nextId)), uid, status, errMsg, now)
      ensures Contents().Keys == old(Contents()).Keys
      ensures forall u | u in Contents() && u != uid :: Contents()[u] == old(Contents())[u]
      ensures uid in Contents() ==>
                var r := old(Contents())[uid];
                Contents()[uid] == Row(r.id, r.uid, r.command, r.cmdType, r.subCommand, r.flag,
                                       status, errMsg, r.createTime, now)
    {
      UpdatedColumns(Table(rows, nextId), uid, status, errMsg, now);
      UpdateRefines(Table(rows, nextId), uid, status, errMsg, now);
      rows := UpdateRows(rows, uid, status, errMsg, now);
    }

    method QueryExperimentModelByUid(uid: string) returns (model: Option<ExperimentModel>)
      requires Valid()
      ensures model == if uid in Contents() then Some(ModelOf(Contents()[uid])) else None
    {
      MatchingRefines(rows, uid);
      var models := ExperimentModelsFrom(Matching(rows, uid));
      if |models| == 0 {
        return None;
      }
      return Some(models[0]);
    }
  }

  /** getExperimentModelsFrom: one model a scanned row, in scan order. */
  method ExperimentModelsFrom(rows: seq<Row>) returns (models: seq<ExperimentModel>)
    ensures |models| == |rows|
    ensures forall i | 0 <= i < |rows| :: models[i] == ModelOf(rows[i])
  {
    models := [];
    for k := 0 to |rows|
      invariant |models| == k
      invariant forall i | 0 <= i < k :: models[i] == ModelOf(rows[i])
    {
      var r := rows[k];
      models := models + [ExperimentModel(
        r.uid, r.command, r.cmdType, r.subCommand, r.flag, r.status, r.error, r.createTime, r.updateTime)];
    }
  }
}
