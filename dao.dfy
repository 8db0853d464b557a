/** `TipoViviendaDAO`: the dwelling-type record store. It keeps an
    in-memory index keyed by identifier and mirrors it to one CSV file,
    which `save` overwrites and `refresh` reloads. */
module Dao {
  import opened Wrappers
  import opened Entidad
  import opened Indice

  /** One data row of the CSV file: a record, or a row that does not
      deserialize into one (a missing column, a number that does not parse,
      an unknown category tag). */
  datatype Row = Parsed(record: TipoVivienda) | Malformed

  /** What the file's path holds: nothing that can be opened for reading,
      or data rows in order. */
  datatype FileContents = Unreadable | Rows(rows: seq<Row>)

  /** How writing the file turns out, as the operating system decides:
      it succeeds, the file cannot be created, or an I/O error strikes after
      `written` records have reached the file (a failure at the final flush
      when `written` is at least the number of records). */
  datatype WriteFault = NoFault | CannotOpen | FailsAfter(written: nat)

  datatype SaveError = OpenError | WriteError

  /** The rows that saving `datos` writes: one per record, in order. */
  function Encode(datos: seq<TipoVivienda>): (rows: seq<Row>)
    ensures |rows| == |datos|
    ensures forall i | 0 <= i < |datos| :: rows[i] == Parsed(datos[i])
  {
    if datos == [] then [] else Encode(datos[..|datos| - 1]) + [Parsed(datos[|datos| - 1])]
  }

  /** Number of rows before the first malformed one. */
  function FirstMalformed(rows: seq<Row>): (k: nat)
    ensures k <= |rows|
    ensures forall j | 0 <= j < k :: rows[j].Parsed?
    ensures k < |rows| ==> rows[k].Malformed?
  {
    if rows == [] || rows[0].Malformed? then 0 else 1 + FirstMalformed(rows[1..])
  }

  function Records(rows: seq<Row>): (rs: seq<TipoVivienda>)
    requires forall j | 0 <= j < |rows| :: rows[j].Parsed?
    ensures |rs| == |rows|
    ensures forall j | 0 <= j < |rows| :: rs[j] == rows[j].record
  {
    if rows == [] then [] else Records(rows[..|rows| - 1]) + [rows[|rows| - 1].record]
  }

  /** The file opens and every row deserializes. */
  predicate Loadable(c: FileContents) {
    c.Rows? && FirstMalformed(c.rows) == |c.rows|
  }

  /** The records a load inserts before it stops: all of them when the
      file is loadable, those before the first malformed row otherwise. */
  function LoadedRecords(c: FileContents): seq<TipoVivienda> {
    match c
    case Unreadable => []
    case Rows(rows) => Records(rows[..FirstMalformed(rows)])
  }

  /** The file after saving `datos` over `before`. `File::create` empties
      the file before the first record is written, so a write error leaves
      the records written so far and an open error leaves the file as it
      was. Whatever the fault, a file that was opened loads back a prefix
      of `datos`, and all of it when nothing failed. */
  function Written(before: FileContents, datos: seq<TipoVivienda>, fault: WriteFault): (after: FileContents)
    ensures fault == CannotOpen ==> after == before
    ensures fault != CannotOpen ==> Loadable(after) && LoadedRecords(after) <= datos
    ensures fault == NoFault ==> LoadedRecords(after) == datos
  {
    match fault
    case NoFault =>
      LoadEncoded(datos);
      Rows(Encode(datos))
    case CannotOpen => before
    case FailsAfter(n) =>
      var k := if n < |datos| then n else |datos|;
      LoadEncoded(datos[..k]);
      Rows(Encode(datos[..k]))
  }

  lemma RecordsExtend(rows: seq<Row>, i: nat)
    requires i < |rows| && forall j | 0 <= j <= i :: rows[j].Parsed?
    ensures Records(rows[..i + 1]) == Records(rows[..i]) + [rows[i].record]
  {
    assert rows[..i + 1][..i] == rows[..i];
  }

  /** A load that stops after `i` good rows, at the end of the file or at
      a malformed row, has inserted those `i` records, and has succeeded
      exactly when it reached the end. */
  lemma LoadStopsAt(rows: seq<Row>, i: nat)
    requires i <= |rows| && forall j | 0 <= j < i :: rows[j].Parsed?
    requires i < |rows| ==> rows[i].Malformed?
    ensures Loadable(Rows(rows)) <==> i == |rows|
    ensures LoadedRecords(Rows(rows)) == Records(rows[..i])
  {
  }

  /** One malformed row anywhere makes the whole load fail: there is no
      default for an unknown category tag. */
  lemma MalformedRowFailsLoad(rows: seq<Row>, i: nat)
    requires i < |rows| && rows[i].Malformed?
    ensures !Loadable(Rows(rows))
  {
  }

  /** A file saved from `datos` loads back exactly `datos`, in order. */
  lemma LoadEncoded(datos: seq<TipoVivienda>)
    ensures Loadable(Rows(Encode(datos)))
    ensures LoadedRecords(Rows(Encode(datos))) == datos
  {
    var rows := Encode(datos);
    assert rows[..|rows|] == rows;
  }

  /** The backing file `./src/csv/tipo-vivienda.csv`; `save` and `refresh`
      both name this one path. */
  class CsvFile {
    var contents: FileContents

    constructor (contents: FileContents)
      ensures this.contents == contents
    {
      this.contents := contents;
    }
  }

  class TipoViviendaDAO {
    var indice: map<string, TipoVivienda>
    const file: CsvFile

    /** Each key maps to the record carrying that key. */
    ghost predicate Valid()
      reads this
    {
      Keyed(indice)
    }

    /** The struct literal `TipoViviendaDAO { indice: HashMap::new() }`. */
    constructor Empty(file: CsvFile)
      ensures this.file == file && indice == map[]
      ensures Valid()
    {
      this.file := file;
      indice := map[];
    }

    /** `new`: an empty store, then `refresh`. Where the source panics on an
        unreadable file or a malformed row, `ok` is false. */
    static method New(file: CsvFile) returns (dao: TipoViviendaDAO, ok: bool)
      ensures fresh(dao) && dao.file == file && dao.Valid()
      ensures ok <==> Loadable(file.contents)
      ensures dao.indice == BuildIndex(LoadedRecords(file.contents))
    {
      dao := new TipoViviendaDAO.Empty(file);
      ok := dao.Refresh();
    }

    /** `refresh`: clears the index, then inserts the file's records in
        order, so a later row with a repeated identifier replaces an earlier
        one. Where the source panics (the file does not open, or a row does
        not deserialize), `ok` is false and the index holds what was
        inserted before the failure. */
    method Refresh() returns (ok: bool)
      modifies this`indice
      ensures Valid()
      ensures ok <==> Loadable(file.contents)
      ensures indice == BuildIndex(LoadedRecords(file.contents))
    {
      indice := map[];
      if file.contents.Unreadable? {
        return false;
      }
      var rows := file.contents.rows;
      var i := 0;
      while i < |rows| && rows[i].Parsed?
        invariant 0 <= i <= |rows|
        invariant forall j | 0 <= j < i :: rows[j].Parsed?
        invariant indice == BuildIndex(Records(rows[..i]))
      {
        var record := rows[i].record;
        RecordsExtend(rows, i);
        indice := indice[record.identificacion := record];
        i := i + 1;
      }
      ok := i == |rows|;
      LoadStopsAt(rows, i);
    }

    /** `save`: writes `datos` (not the index) to the file, replacing what
        it held; the index is left alone. */
    method Save(datos: seq<TipoVivienda>, fault: WriteFault) returns (result: Outcome<SaveError>)
      modifies file
      ensures result == match fault
                        case NoFault => Pass
                        case CannotOpen => Fail(OpenError)
                        case FailsAfter(_) => Fail(WriteError)
      ensures file.contents == Written(old(file.contents), datos, fault)
    {
      if fault == CannotOpen {
        return Fail(OpenError);
      }
      file.contents := Rows([]);
      var i := 0;
      while i < |datos|
        invariant 0 <= i <= |datos|
        invariant fault.FailsAfter? ==> i <= fault.written
        invariant file.contents == Rows(Encode(datos[..i]))
      {
        if fault == FailsAfter(i) {
          return Fail(WriteError);
        }
        assert datos[..i + 1][..i] == datos[..i];
        file.contents := Rows(file.contents.rows + [Parsed(datos[i])]);
        i := i + 1;
      }
      assert datos[..i] == datos;
      if fault.FailsAfter? {
        return Fail(WriteError);
      }
      return Pass;
    }

    /** `save_and_refresh`: `save`, whose result is dropped, then `refresh`.
        After a clean save the index is exactly the index of `datos`; after
        an open error it is reloaded from the file as it was before. */
    method SaveAndRefresh(datos: seq<TipoVivienda>, fault: WriteFault) returns (ok: bool)
      modifies this`indice, file
      ensures file.contents == Written(old(file.contents), datos, fault)
      ensures Valid()
      ensures ok <==> Loadable(file.contents)
      ensures indice == BuildIndex(LoadedRecords(file.contents))
      ensures fault == NoFault ==> ok && indice == BuildIndex(datos)
      ensures fault == CannotOpen ==> indice == BuildIndex(LoadedRecords(old(file.contents)))
    {
      var _ := Save(datos, fault);
      ok := Refresh();
      if fault == NoFault {
        LoadEncoded(datos);
      }
    }

    /** `asVector`: every record of the index once, in no promised order. */
    method AsVector() returns (datos: seq<TipoVivienda>)
      requires Valid()
      ensures IsSnapshot(datos, indice)
      ensures |datos| == |indice| && multiset(datos) == multiset(indice.Values)
    {
      var rest := indice.Keys;
      datos := [];
      while rest != {}
        invariant rest <= indice.Keys
        invariant forall i | 0 <= i < |datos| ::
                    datos[i].identificacion in indice.Keys - rest && indice[datos[i].identificacion] == datos[i]
        invariant forall k | k in indice.Keys - rest :: indice[k] in datos
        invariant DistinctIds(datos)
        decreases rest
      {
        var k :| k in rest;
        datos := datos + [indice[k]];
        rest := rest - {k};
      }
      SnapshotOfIndex(datos, indice);
    }

    /** `add`: inserts `p` only when its identifier is absent; otherwise the
        index, and the record already stored, stay as they were. */
    method Add(p: TipoVivienda)
      requires Valid()
      modifies this`indice
      ensures Valid()
      ensures p.identificacion in old(indice) ==> indice == old(indice)
      ensures p.identificacion !in old(indice) ==> indice == old(indice)[p.identificacion := p]
    {
      if p.identificacion !in indice {
        indice := indice[p.identificacion := p];
      }
    }

    /** `update`: replaces the record under `p`'s identifier only when that
        identifier is present; it never adds a key. */
    method Update(p: TipoVivienda)
      requires Valid()
      modifies this`indice
      ensures Valid()
      ensures indice.Keys == old(indice).Keys
      ensures p.identificacion in old(indice) ==> indice == old(indice)[p.identificacion := p]
      ensures p.identificacion !in old(indice) ==> indice == old(indice)
    {
      if p.identificacion in indice {
        indice := indice[p.identificacion := p];
      }
    }

    /** `remove`: deletes the entry under `key` and returns it, or returns
        `None` when there was none; every other entry is kept. */
    method Remove(key: string) returns (r: Option<TipoVivienda>)
      requires Valid()
      modifies this`indice
      ensures Valid()
      ensures r == if key in old(indice) then Some(old(indice)[key]) else None
      ensures r.Some? ==> r.value.identificacion == key
      ensures indice == old(indice) - {key}
    {
      if key in indice {
        r := Some(indice[key]);
        indice := indice - {key};
      } else {
        r := None;
      }
    }
  }
}
