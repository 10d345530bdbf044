/** The scan of a documentation page for its model table: headings open and close the Models
    section, and every table with the right columns inside it must say the same. */
module Document {
  import Seqs

  datatype Cell = Cell(text: string, code: string, codes: nat, merged: bool)

  type Row = seq<Cell>

  datatype Info = Info(id: string, name: string)

  /** Headings and tables of the page in document order. */
  datatype Element = Heading(level: int, isModels: bool) | Table(rows: seq<Row>)

  /** Text rules of the environment: lower case, length in bytes, and the shape of a model ID. */
  datatype Text = Text(lower: string -> string, size: string -> nat, isModelId: string -> bool)

  const MAX_NAME := 256

  datatype Parsed = Unrelated | Invalid | Models(models: seq<Info>)

  datatype Option<T> = None | Some(value: T)

  datatype Error = NoTable | BadTable | Conflict | NoHeading

  datatype Result<T> = Ok(value: T) | Err(error: Error)

  // ---------------------------------------------------------------- one table

  /** The last of the two columns with a given header, or -1. */
  function Column(header: Row, title: string, text: Text): int
    requires |header| == 2
  {
    if text.lower(header[1].text) == title then 1 else if text.lower(header[0].text) == title then 0 else -1
  }

  function ReadRow(row: Row, nameColumn: int, idColumn: int, text: Text): Option<Info>
    requires 0 <= nameColumn < 2 && 0 <= idColumn < 2
  {
    if |row| != 2 || row[0].merged || row[1].merged then None
    else
      var name, cell := row[nameColumn].text, row[idColumn];
      if name == "" || text.size(name) > MAX_NAME || cell.codes != 1 || !text.isModelId(cell.code) || cell.text != cell.code
      then None
      else Some(Info(cell.code, name))
  }

  function Names(models: seq<Info>): map<string, string>
    decreases |models|
  {
    if models == [] then map[]
    else Names(models[..|models| - 1])[models[|models| - 1].id := models[|models| - 1].name]
  }

  /** How the rows of one table are read. */
  type Reader = Row -> Option<Info>

  function ReaderOf(nameColumn: int, idColumn: int, text: Text): Reader
    requires 0 <= nameColumn < 2 && 0 <= idColumn < 2
  {
    (row: Row) => ReadRow(row, nameColumn, idColumn, text)
  }

  /** The first `n` rows below the header: each valid, a repeated ID only with the same name. */
  function ReadRows(rows: seq<Row>, n: nat, read: Reader): Option<seq<Info>>
    requires n <= |rows|
  {
    if n == 0 then Some([])
    else
      match ReadRows(rows, n - 1, read)
      case None => None
      case Some(models) => AddRow(models, read(rows[n - 1]))
  }

  function AddRow(models: seq<Info>, row: Option<Info>): Option<seq<Info>> {
    match row
    case None => None
    case Some(info) =>
      if info.id !in Names(models) then Some(models + [info])
      else if Names(models)[info.id] != info.name then None
      else Some(models)
  }

  lemma NamesSnoc(models: seq<Info>, info: Info)
    ensures Names(models + [info]) == Names(models)[info.id := info.name]
  {
    assert (models + [info])[..|models|] == models;
  }

  function ParseTable(rows: seq<Row>, text: Text): Parsed {
    if rows == [] || |rows[0]| != 2 then Unrelated
    else
      var nameColumn, idColumn := Column(rows[0], "model", text), Column(rows[0], "model id", text);
      if nameColumn < 0 || idColumn < 0 then Unrelated
      else if |rows| == 1 then Invalid
      else
        match ReadRows(rows[1..], |rows| - 1, ReaderOf(nameColumn, idColumn, text))
        case None => Invalid
        case Some(models) => Models(models)
  }

  method ParseDocumentTable(rows: seq<Row>, text: Text) returns (parsed: Parsed)
    ensures parsed == ParseTable(rows, text)
  {
    if |rows| == 0 || |rows[0]| != 2 {
      return Unrelated;
    }
    var nameColumn, idColumn := -1, -1;
    for i := 0 to 2
      invariant nameColumn == if i == 2 then Column(rows[0], "model", text)
                              else if i == 1 && text.lower(rows[0][0].text) == "model" then 0 else -1
      invariant idColumn == if i == 2 then Column(rows[0], "model id", text)
                            else if i == 1 && text.lower(rows[0][0].text) == "model id" then 0 else -1
    {
      if text.lower(rows[0][i].text) == "model" {
        nameColumn := i;
      } else if text.lower(rows[0][i].text) == "model id" {
        idColumn := i;
      }
    }
    if nameColumn < 0 || idColumn < 0 {
      return Unrelated;
    }
    if |rows| == 1 {
      return Invalid;
    }
    var models := ReadBody(rows[1..], ReaderOf(nameColumn, idColumn, text));
    parsed := if models.Some? then Models(models.value) else Invalid;
  }

  method ReadBody(body: seq<Row>, read: Reader) returns (result: Option<seq<Info>>)
    ensures result == ReadRows(body, |body|, read)
  {
    var models: seq<Info>, seen: map<string, string> := [], map[];
    for n := 0 to |body|
      invariant ReadRows(body, n, read) == Some(models) && seen == Names(models)
    {
      var row := read(body[n]);
      assert ReadRows(body, n + 1, read) == AddRow(models, row);
      if AddRow(models, row).None? {
        BadRowSpoils(body, n + 1, |body|, read);
      }
      if row.None? {
        return None;
      }
      var info := row.value;
      if info.id in seen {
        if seen[info.id] != info.name {
          return None;
        }
        continue;
      }
      NamesSnoc(models, info);
      seen := seen[info.id := info.name];
      models := models + [info];
    }
    result := Some(models);
  }

  lemma {:induction false} BadRowSpoils(rows: seq<Row>, n: nat, m: nat, read: Reader)
    requires n <= m <= |rows| && ReadRows(rows, n, read).None?
    ensures ReadRows(rows, m, read).None?
    decreases m
  {
    if n < m {
      BadRowSpoils(rows, n, m - 1, read);
    }
  }

  // ---------------------------------------------------------------- comparing tables

  /** Every model is listed once and has a name. */
  ghost predicate Distinct(models: seq<Info>) {
    && (forall i :: 0 <= i < |models| ==> models[i].name != "")
    && (forall i, j :: 0 <= i < j < |models| ==> models[i].id != models[j].id)
  }

  function NameIn(models: map<string, string>, id: string): string {
    if id in models then models[id] else ""
  }

  predicate SameModels(a: seq<Info>, b: seq<Info>) {
    |a| == |b| && forall i :: 0 <= i < |b| ==> NameIn(Names(a), b[i].id) == b[i].name
  }

  method SameDocumentModels(a: seq<Info>, b: seq<Info>) returns (same: bool)
    ensures same == SameModels(a, b)
  {
    if |a| != |b| {
      return false;
    }
    var byId: map<string, string> := map[];
    for i := 0 to |a|
      invariant byId == Names(a[..i])
    {
      assert a[..i + 1][..i] == a[..i];
      byId := byId[a[i].id := a[i].name];
    }
    assert a[..|a|] == a;
    for i := 0 to |b|
      invariant forall k :: 0 <= k < i ==> NameIn(Names(a), b[k].id) == b[k].name
    {
      if NameIn(byId, b[i].id) != b[i].name {
        return false;
      }
    }
    same := true;
  }

  lemma {:induction false} NamesHold(models: seq<Info>)
    requires Distinct(models)
    ensures forall i :: 0 <= i < |models| ==> models[i].id in Names(models) && Names(models)[models[i].id] == models[i].name
    decreases |models|
  {
    if models != [] {
      NamesHold(models[..|models| - 1]);
    }
  }

  lemma {:induction false} NamesCount(models: seq<Info>)
    requires Distinct(models)
    ensures |Names(models)| == |models|
    decreases |models|
  {
    if models != [] {
      var front, last := models[..|models| - 1], models[|models| - 1];
      NamesCount(front);
      NamesAreListed(front);
      MapGrows(Names(front), last.id, last.name);
    }
  }

  lemma MapGrows(m: map<string, string>, k: string, v: string)
    requires k !in m
    ensures |m[k := v]| == |m| + 1
  {
  }

  lemma {:induction false} NamesAreListed(models: seq<Info>)
    ensures forall id :: id in Names(models) ==> exists i :: 0 <= i < |models| && models[i].id == id
    decreases |models|
  {
    if models != [] {
      var front := models[..|models| - 1];
      NamesAreListed(front);
      forall id | id in Names(models) ensures exists i :: 0 <= i < |models| && models[i].id == id {
        if id in Names(front) {
          var i :| 0 <= i < |front| && front[i].id == id;
          assert models[i].id == id;
        } else {
          assert models[|models| - 1].id == id;
        }
      }
    }
  }

  lemma SubsetOfSameSize<T>(a: set<T>, b: set<T>)
    requires a <= b && |a| == |b|
    ensures a == b
  {
    assert |b - a| == |b| - |a|;
    assert b == a + (b - a);
  }

  /** On lists without repetitions the comparison, which looks only from one side, decides
      equality of the two maps from ID to name. */
  lemma SameModelsIsEquality(a: seq<Info>, b: seq<Info>)
    requires Distinct(a) && Distinct(b)
    ensures SameModels(a, b) <==> Names(a) == Names(b)
  {
    NamesHold(a);
    NamesHold(b);
    NamesCount(a);
    NamesCount(b);
    NamesAreListed(b);
    if SameModels(a, b) {
      forall id | id in Names(b) ensures id in Names(a) && Names(a)[id] == Names(b)[id] {
        var i :| 0 <= i < |b| && b[i].id == id;
        assert NameIn(Names(a), b[i].id) == b[i].name;
      }
      assert |Names(a).Keys| == |Names(a)| && |Names(b).Keys| == |Names(b)|;
      SubsetOfSameSize(Names(b).Keys, Names(a).Keys);
    }
  }

  // ---------------------------------------------------------------- what a table reads as

  /** A reader never reads an empty name. */
  ghost predicate Named(read: Reader) {
    forall row :: read(row).Some? ==> read(row).value.name != ""
  }

  lemma DistinctSnoc(models: seq<Info>, info: Info)
    requires Distinct(models) && info.name != "" && info.id !in Names(models)
    ensures Distinct(models + [info])
  {
    NamesHold(models);
  }

  lemma {:induction false} RowsAreDistinct(rows: seq<Row>, n: nat, read: Reader)
    requires n <= |rows| && Named(read) && ReadRows(rows, n, read).Some?
    ensures Distinct(ReadRows(rows, n, read).value)
  {
    if n > 0 {
      RowsAreDistinct(rows, n - 1, read);
      var models, info := ReadRows(rows, n - 1, read).value, read(rows[n - 1]).value;
      if info.id !in Names(models) {
        DistinctSnoc(models, info);
      }
    }
  }

  /** The row is valid and no earlier row gives its ID another name. */
  ghost predicate RowFits(rows: seq<Row>, i: nat, read: Reader)
    requires i < |rows|
  {
    && read(rows[i]).Some?
    && forall k :: 0 <= k < i && read(rows[k]).Some? && read(rows[k]).value.id == read(rows[i]).value.id
        ==> read(rows[k]) == read(rows[i])
  }

  /** What was read is exactly the map that the first `n` rows spell out. */
  ghost predicate Spells(rows: seq<Row>, n: nat, read: Reader, names: map<string, string>)
    requires n <= |rows|
  {
    && (forall i :: 0 <= i < n ==> read(rows[i]).Some? && read(rows[i]).value.id in names)
    && (forall i :: 0 <= i < n ==> names[read(rows[i]).value.id] == read(rows[i]).value.name)
    && (forall id :: id in names ==> exists i :: 0 <= i < n && read(rows[i]) == Some(Info(id, names[id])))
  }

  lemma NextRow(rows: seq<Row>, n: nat, read: Reader)
    requires n < |rows| && ReadRows(rows, n, read).Some?
    requires Spells(rows, n, read, Names(ReadRows(rows, n, read).value))
    ensures ReadRows(rows, n + 1, read).Some? <==> RowFits(rows, n, read)
    ensures ReadRows(rows, n + 1, read).Some? ==>
      Names(ReadRows(rows, n + 1, read).value) ==
      Names(ReadRows(rows, n, read).value)[read(rows[n]).value.id := read(rows[n]).value.name]
  {
  }

  lemma SpellsSnoc(rows: seq<Row>, n: nat, read: Reader, names: map<string, string>)
    requires n < |rows| && Spells(rows, n, read, names) && RowFits(rows, n, read)
    ensures Spells(rows, n + 1, read, names[read(rows[n]).value.id := read(rows[n]).value.name])
  {
  }

  ghost predicate AllFit(rows: seq<Row>, n: nat, read: Reader)
    requires n <= |rows|
  {
    forall i :: 0 <= i < n ==> RowFits(rows, i, read)
  }

  lemma AllFitSnoc(rows: seq<Row>, n: nat, read: Reader)
    requires n < |rows|
    ensures AllFit(rows, n + 1, read) <==> AllFit(rows, n, read) && RowFits(rows, n, read)
  {
  }

  lemma RowGrows(rows: seq<Row>, n: nat, read: Reader)
    requires n < |rows| && ReadRows(rows, n, read).Some?
    requires Spells(rows, n, read, Names(ReadRows(rows, n, read).value))
    ensures ReadRows(rows, n + 1, read).Some? <==> RowFits(rows, n, read)
    ensures ReadRows(rows, n + 1, read).Some? ==> Spells(rows, n + 1, read, Names(ReadRows(rows, n + 1, read).value))
  {
    NextRow(rows, n, read);
    if RowFits(rows, n, read) {
      SpellsSnoc(rows, n, read, Names(ReadRows(rows, n, read).value));
    }
  }

  /** Rows are read exactly when each is valid and no ID has two names, and what is read is the
      map the rows spell out: nothing is dropped, nothing added. */
  ghost predicate Spelt(rows: seq<Row>, n: nat, read: Reader)
    requires n <= |rows|
  {
    match ReadRows(rows, n, read)
    case None => !AllFit(rows, n, read)
    case Some(models) => AllFit(rows, n, read) && Spells(rows, n, read, Names(models))
  }

  lemma NextSpelt(rows: seq<Row>, n: nat, read: Reader)
    requires n < |rows| && Spelt(rows, n, read)
    ensures Spelt(rows, n + 1, read)
  {
    AllFitSnoc(rows, n, read);
    if ReadRows(rows, n, read).Some? {
      RowGrows(rows, n, read);
    } else {
      BadRowSpoils(rows, n, n + 1, read);
    }
  }

  lemma NothingSpelt(rows: seq<Row>, read: Reader)
    ensures Spelt(rows, 0, read)
  {
  }

  lemma RowsSpellMap(rows: seq<Row>, n: nat, read: Reader)
    requires n <= |rows|
    ensures Spelt(rows, n, read)
  {
    var p := (k: nat) => k <= |rows| && Spelt(rows, k, read);
    NothingSpelt(rows, read);
    forall k | 0 <= k < n ensures Seqs.Carries(p, k) {
      if Spelt(rows, k, read) {
        NextSpelt(rows, k, read);
      }
    }
    Seqs.Reaches(p, n);
  }

  /** A table that reads as models lists each ID once, with a name, and lists something. */
  lemma TableIsDistinct(rows: seq<Row>, text: Text)
    requires ParseTable(rows, text).Models?
    ensures Distinct(ParseTable(rows, text).models) && ParseTable(rows, text).models != []
  {
    var read := ReaderOf(Column(rows[0], "model", text), Column(rows[0], "model id", text), text);
    RowsAreDistinct(rows[1..], |rows| - 1, read);
    RowsSpellMap(rows[1..], |rows| - 1, read);
    assert AllFit(rows[1..], |rows| - 1, read) && RowFits(rows[1..], 0, read);
  }

  // ---------------------------------------------------------------- what a table says

  /** A row of two plain cells: a name of at most 256 bytes, and a cell that is nothing but one code
      with a model ID in it. */
  predicate ValidRow(row: Row, name: int, id: int, text: Text)
    requires 0 <= name < 2 && 0 <= id < 2
  {
    && |row| == 2 && !row[0].merged && !row[1].merged
    && row[name].text != "" && text.size(row[name].text) <= 256
    && row[id].codes == 1 && row[id].text == row[id].code && text.isModelId(row[id].code)
  }

  lemma RowReads(row: Row, name: int, id: int, text: Text)
    requires 0 <= name < 2 && 0 <= id < 2
    ensures ReadRow(row, name, id, text).Some? <==> ValidRow(row, name, id, text)
    ensures ValidRow(row, name, id, text) ==> ReadRow(row, name, id, text) == Some(Info(row[id].code, row[name].text))
  {
  }

  predicate AllValid(body: seq<Row>, name: int, id: int, text: Text)
    requires 0 <= name < 2 && 0 <= id < 2
  {
    forall k :: 0 <= k < |body| ==> ValidRow(body[k], name, id, text)
  }

  predicate TwoCells(body: seq<Row>) {
    forall k :: 0 <= k < |body| ==> |body[k]| == 2
  }

  /** No two rows give an ID different names. */
  ghost predicate Consistent(body: seq<Row>, name: int, id: int)
    requires 0 <= name < 2 && 0 <= id < 2 && TwoCells(body)
  {
    forall j, k :: 0 <= j < k < |body| && body[j][id].code == body[k][id].code ==> body[j][name].text == body[k][name].text
  }

  /** The models are the map from ID to name that the rows spell out. */
  ghost predicate Listed(models: seq<Info>, body: seq<Row>, name: int, id: int)
    requires 0 <= name < 2 && 0 <= id < 2 && TwoCells(body)
  {
    && (forall k :: 0 <= k < |body| ==>
          body[k][id].code in Names(models) && Names(models)[body[k][id].code] == body[k][name].text)
    && (forall i :: i in Names(models) ==>
          exists k :: 0 <= k < |body| && body[k][id].code == i && body[k][name].text == Names(models)[i])
  }

  lemma RowsRead(body: seq<Row>, name: int, id: int, text: Text)
    requires 0 <= name < 2 && 0 <= id < 2 && AllValid(body, name, id, text)
    ensures TwoCells(body)
    ensures forall k :: 0 <= k < |body| ==>
      ReaderOf(name, id, text)(body[k]) == Some(Info(body[k][id].code, body[k][name].text))
  {
    forall k | 0 <= k < |body|
      ensures |body[k]| == 2 && ReaderOf(name, id, text)(body[k]) == Some(Info(body[k][id].code, body[k][name].text))
    {
      RowReads(body[k], name, id, text);
    }
  }

  lemma AllFitMeans(body: seq<Row>, name: int, id: int, text: Text)
    requires 0 <= name < 2 && 0 <= id < 2 && AllValid(body, name, id, text) && TwoCells(body)
    ensures AllFit(body, |body|, ReaderOf(name, id, text)) <==> Consistent(body, name, id)
  {
    var read := ReaderOf(name, id, text);
    RowsRead(body, name, id, text);
    if AllFit(body, |body|, read) {
      forall j, k | 0 <= j < k < |body| && body[j][id].code == body[k][id].code
        ensures body[j][name].text == body[k][name].text
      {
        assert RowFits(body, k, read) && read(body[j]).value.id == read(body[k]).value.id;
      }
    }
  }

  lemma AllFitIsValid(body: seq<Row>, name: int, id: int, text: Text)
    requires 0 <= name < 2 && 0 <= id < 2 && AllFit(body, |body|, ReaderOf(name, id, text))
    ensures AllValid(body, name, id, text)
  {
    var read := ReaderOf(name, id, text);
    forall k | 0 <= k < |body| ensures ValidRow(body[k], name, id, text) {
      assert RowFits(body, k, read);
      RowReads(body[k], name, id, text);
    }
  }

  lemma SpellsMeans(models: seq<Info>, body: seq<Row>, name: int, id: int, text: Text)
    requires 0 <= name < 2 && 0 <= id < 2 && AllValid(body, name, id, text) && TwoCells(body)
    requires Spells(body, |body|, ReaderOf(name, id, text), Names(models))
    ensures Listed(models, body, name, id)
  {
    RowsRead(body, name, id, text);
  }

  /** What the rows under the headings come to. */
  ghost predicate BodySays(read: Option<seq<Info>>, body: seq<Row>, name: int, id: int, text: Text)
    requires 0 <= name < 2 && 0 <= id < 2
  {
    && (read.Some? <==> AllValid(body, name, id, text) && TwoCells(body) && Consistent(body, name, id))
    && (read.Some? ==> Listed(read.value, body, name, id))
  }

  lemma BodyMeans(body: seq<Row>, name: int, id: int, text: Text)
    requires 0 <= name < 2 && 0 <= id < 2
    ensures BodySays(ReadRows(body, |body|, ReaderOf(name, id, text)), body, name, id, text)
  {
    var read := ReaderOf(name, id, text);
    RowsSpellMap(body, |body|, read);
    if AllValid(body, name, id, text) {
      RowsRead(body, name, id, text);
      AllFitMeans(body, name, id, text);
    }
    if ReadRows(body, |body|, read).Some? {
      AllFitIsValid(body, name, id, text);
      RowsRead(body, name, id, text);
      SpellsMeans(ReadRows(body, |body|, read).value, body, name, id, text);
    }
  }

  /** A table whose two headings are a model column and an ID column is read exactly when it has
      rows, all of them are valid and no ID has two names; it then lists what they spell out. */
  lemma TableMeans(rows: seq<Row>, name: int, id: int, text: Text)
    requires rows != [] && |rows[0]| == 2 && 0 <= name < 2 && id == 1 - name
    requires text.lower(rows[0][name].text) == "model" && text.lower(rows[0][id].text) == "model id"
    ensures |rows| == 1 ==> ParseTable(rows, text).Invalid?
    ensures |rows| > 1 ==> var parsed := ParseTable(rows, text);
      && !parsed.Unrelated?
      && BodySays(if parsed.Models? then Some(parsed.models) else None, rows[1..], name, id, text)
  {
    assert Column(rows[0], "model", text) == name && Column(rows[0], "model id", text) == id;
    BodyMeans(rows[1..], name, id, text);
  }

  /** Any other table is none of a model list. */
  lemma OtherTable(rows: seq<Row>, text: Text)
    ensures ParseTable(rows, text).Unrelated? <==>
      !(rows != [] && |rows[0]| == 2 && {text.lower(rows[0][0].text), text.lower(rows[0][1].text)} == {"model", "model id"})
  {
    if rows != [] && |rows[0]| == 2 {
      var a, b := text.lower(rows[0][0].text), text.lower(rows[0][1].text);
      assert a in {a, b} && b in {a, b} && "model" in {"model", "model id"} && "model id" in {"model", "model id"};
      assert |"model"| != |"model id"|;
    }
  }
}
