/** The store's unit tests at the end of `src/entidad.rs`, as client code
    whose postconditions state what each test checks. Each starts from the
    backing file holding the single record of the test data. */
module Scenarios {
  import opened Wrappers
  import opened Entidad
  import opened DebugFormat
  import opened Screen
  import opened Indice
  import opened Dao

  function SanIsidro(): TipoVivienda {
    TipoVivienda("1", "San Isidro", 4, "1C", "28350", 80, 1, 2, Apartamento)
  }

  function Chile(): TipoVivienda {
    TipoVivienda("2", "Chile", 40, "", "28350", 100, 3, 3, Chalet)
  }

  /** The lines the tests expect `toScreen` to print for the two records. */
  const SanIsidroLine: string := "\"1\",\"San Isidro\",4,\"1C\",\"28350\",80,1,2,Apartamento"
  const ChileLine: string := "\"2\",\"Chile\",40,\"\",\"28350\",100,3,3,Chalet"

  // Each record's line in three steps, each small enough to check on its
  // own: the Debug text of the string fields, then of all nine fields, then
  // the comma-joined pieces as one literal.

  lemma SanIsidroStrings(a: string, b: string, c: string, d: string)
    requires a == "1" && b == "San Isidro" && c == "1C" && d == "28350"
    ensures DebugStr(a) == "\"1\"" && DebugStr(b) == "\"San Isidro\""
    ensures DebugStr(c) == "\"1C\"" && DebugStr(d) == "\"28350\""
  {
    DebugStrPlain(a);
    DebugStrPlain(b);
    DebugStrPlain(c);
    DebugStrPlain(d);
  }

  lemma SanIsidroFields(v: TipoVivienda)
    requires v.identificacion == "1" && v.calle == "San Isidro" && v.numero == 4 && v.piso == "1C"
    requires v.codigoPostal == "28350" && v.metrosCuadrados == 80 && v.numeroAseos == 1
    requires v.numeroHabitaciones == 2 && v.tipo == Apartamento
    ensures ScreenFields(v) == ["\"1\"", "\"San Isidro\"", "4", "\"1C\"", "\"28350\"", "80", "1", "2", "Apartamento"]
  {
    SanIsidroStrings(v.identificacion, v.calle, v.piso, v.codigoPostal);
    assert NatText(80) == NatText(8) + [DigitChar(0)];
    assert DebugInt(v.numero as int) == "4";
    assert DebugInt(v.metrosCuadrados as int) == "80";
    assert DebugInt(v.numeroAseos as int) == "1";
    assert DebugInt(v.numeroHabitaciones as int) == "2";
  }

  lemma SanIsidroText()
    ensures "\"1\"" + "," + "\"San Isidro\"" + "," + "4" + "," + "\"1C\"" + "," + "\"28350\"" + ","
          + "80" + "," + "1" + "," + "2" + "," + "Apartamento" == SanIsidroLine
  {
    assert "\"1\"" + "," + "\"San Isidro\"" == "\"1\",\"San Isidro\"";
    assert "\"1\",\"San Isidro\"" + "," + "4" == "\"1\",\"San Isidro\",4";
    assert "\"1\",\"San Isidro\",4" + "," + "\"1C\"" == "\"1\",\"San Isidro\",4,\"1C\"";
    assert "\"1\",\"San Isidro\",4,\"1C\"" + "," + "\"28350\"" == "\"1\",\"San Isidro\",4,\"1C\",\"28350\"";
    assert "\"1\",\"San Isidro\",4,\"1C\",\"28350\"" + "," + "80" == "\"1\",\"San Isidro\",4,\"1C\",\"28350\",80";
    assert "\"1\",\"San Isidro\",4,\"1C\",\"28350\",80" + "," + "1" == "\"1\",\"San Isidro\",4,\"1C\",\"28350\",80,1";
    assert "\"1\",\"San Isidro\",4,\"1C\",\"28350\",80,1" + "," + "2" == "\"1\",\"San Isidro\",4,\"1C\",\"28350\",80,1,2";
  }

  /** `to_screen_tipo_vivienda`: the line printed for the test record. */
  lemma ToScreenTest(v: TipoVivienda)
    requires v == SanIsidro()
    ensures ToScreen(v) == SanIsidroLine
  {
    SanIsidroFields(v);
    JoinNine("\"1\"", "\"San Isidro\"", "4", "\"1C\"", "\"28350\"", "80", "1", "2", "Apartamento");
    SanIsidroText();
  }

  lemma ChileStrings(a: string, b: string, c: string, d: string)
    requires a == "2" && b == "Chile" && c == "" && d == "28350"
    ensures DebugStr(a) == "\"2\"" && DebugStr(b) == "\"Chile\""
    ensures DebugStr(c) == "\"\"" && DebugStr(d) == "\"28350\""
  {
    DebugStrPlain(a);
    DebugStrPlain(b);
    DebugStrPlain(c);
    DebugStrPlain(d);
  }

  lemma ChileFields(v: TipoVivienda)
    requires v.identificacion == "2" && v.calle == "Chile" && v.numero == 40 && v.piso == ""
    requires v.codigoPostal == "28350" && v.metrosCuadrados == 100 && v.numeroAseos == 3
    requires v.numeroHabitaciones == 3 && v.tipo == Chalet
    ensures ScreenFields(v) == ["\"2\"", "\"Chile\"", "40", "\"\"", "\"28350\"", "100", "3", "3", "Chalet"]
  {
    ChileStrings(v.identificacion, v.calle, v.piso, v.codigoPostal);
    assert NatText(40) == NatText(4) + [DigitChar(0)];
    assert NatText(10) == NatText(1) + [DigitChar(0)];
    assert NatText(100) == NatText(10) + [DigitChar(0)];
    assert DebugInt(v.numero as int) == "40";
    assert DebugInt(v.metrosCuadrados as int) == "100";
    assert DebugInt(v.numeroAseos as int) == "3";
    assert DebugInt(v.numeroHabitaciones as int) == "3";
  }

  lemma ChileText()
    ensures "\"2\"" + "," + "\"Chile\"" + "," + "40" + "," + "\"\"" + "," + "\"28350\"" + ","
          + "100" + "," + "3" + "," + "3" + "," + "Chalet" == ChileLine
  {
    assert "\"2\"" + "," + "\"Chile\"" == "\"2\",\"Chile\"";
    assert "\"2\",\"Chile\"" + "," + "40" == "\"2\",\"Chile\",40";
    assert "\"2\",\"Chile\",40" + "," + "\"\"" == "\"2\",\"Chile\",40,\"\"";
    assert "\"2\",\"Chile\",40,\"\"" + "," + "\"28350\"" == "\"2\",\"Chile\",40,\"\",\"28350\"";
    assert "\"2\",\"Chile\",40,\"\",\"28350\"" + "," + "100" == "\"2\",\"Chile\",40,\"\",\"28350\",100";
    assert "\"2\",\"Chile\",40,\"\",\"28350\",100" + "," + "3" == "\"2\",\"Chile\",40,\"\",\"28350\",100,3";
    assert "\"2\",\"Chile\",40,\"\",\"28350\",100,3" + "," + "3" == "\"2\",\"Chile\",40,\"\",\"28350\",100,3,3";
  }

  /** The line the tests expect for the record they add. */
  lemma ChileScreen(v: TipoVivienda)
    requires v == Chile()
    ensures ToScreen(v) == ChileLine
  {
    ChileFields(v);
    JoinNine("\"2\"", "\"Chile\"", "40", "\"\"", "\"28350\"", "100", "3", "3", "Chalet");
    ChileText();
  }

  /** A listing of the two test records holds both and nothing else. */
  lemma BothListed(datos: seq<TipoVivienda>, indice: Index)
    requires indice == map["1" := SanIsidro(), "2" := Chile()]
    requires |datos| == |indice| && multiset(datos) == multiset(indice.Values)
    ensures |datos| == 2 && SanIsidro() in datos && Chile() in datos
    ensures forall d | d in datos :: d == SanIsidro() || d == Chile()
  {
    assert indice.Keys == {"1", "2"};
    assert indice["1"] in multiset(datos) && indice["2"] in multiset(datos);
    forall d | d in datos
      ensures d == SanIsidro() || d == Chile()
    {
      assert d in multiset(indice.Values);
    }
  }

  /** In such a listing, the record whose identifier is `"2"` prints as the
      tests expect. */
  lemma ChileListed(datos: seq<TipoVivienda>)
    requires forall d | d in datos :: d == SanIsidro() || d == Chile()
    ensures forall d | d in datos && d.identificacion == "2" :: ToScreen(d) == ChileLine
  {
    forall d | d in datos && d.identificacion == "2"
      ensures ToScreen(d) == ChileLine
    {
      ChileScreen(d);
    }
  }

  /** The test file loads, giving an index with the one record. */
  lemma TestFileLoads()
    ensures Loadable(Rows([Parsed(SanIsidro())]))
    ensures BuildIndex(LoadedRecords(Rows([Parsed(SanIsidro())]))) == map["1" := SanIsidro()]
  {
    LoadEncoded([SanIsidro()]);
    assert Encode([SanIsidro()]) == [Parsed(SanIsidro())];
    assert BuildIndex([SanIsidro()]) == BuildIndex([])["1" := SanIsidro()];
  }

  /** `as_vector_tipo_vivienda`: the store lists the file's one record. */
  method AsVectorTest(file: CsvFile) returns (datos: seq<TipoVivienda>)
    requires file.contents == Rows([Parsed(SanIsidro())])
    ensures datos == [SanIsidro()]
    ensures ToScreen(datos[0]) == SanIsidroLine
  {
    var dao, ok := TipoViviendaDAO.New(file);
    TestFileLoads();
    datos := dao.AsVector();
    assert |datos| == 1;
    assert datos[0] in dao.indice.Values;
    ToScreenTest(datos[0]);
  }

  /** `add_tipo_vivienda`: a record with a new identifier is listed after
      `add`, beside the loaded one. */
  method AddTest(file: CsvFile) returns (datos: seq<TipoVivienda>)
    requires file.contents == Rows([Parsed(SanIsidro())])
    ensures |datos| == 2 && SanIsidro() in datos && Chile() in datos
    ensures forall d | d in datos && d.identificacion == "2" :: ToScreen(d) == ChileLine
  {
    var dao, ok := TipoViviendaDAO.New(file);
    TestFileLoads();
    dao.Add(Chile());
    assert dao.indice == map["1" := SanIsidro(), "2" := Chile()];
    datos := dao.AsVector();
    BothListed(datos, dao.indice);
    ChileListed(datos);
  }

  /** `remove_tipo_vivienda`: removing the only record empties the store. */
  method RemoveTest(file: CsvFile) returns (removed: Option<TipoVivienda>, datos: seq<TipoVivienda>)
    requires file.contents == Rows([Parsed(SanIsidro())])
    ensures removed == Some(SanIsidro()) && datos == []
  {
    var dao, ok := TipoViviendaDAO.New(file);
    TestFileLoads();
    removed := dao.Remove("1");
    datos := dao.AsVector();
  }

  /** Removing the same identifier twice: the second call finds nothing
      and leaves the index as the first call left it. */
  method RemoveTwice(dao: TipoViviendaDAO, key: string) returns (first: Option<TipoVivienda>, second: Option<TipoVivienda>)
    requires dao.Valid()
    modifies dao`indice
    ensures first.Some? <==> key in old(dao.indice)
    ensures second == None
    ensures dao.indice == old(dao.indice) - {key}
  {
    first := dao.Remove(key);
    second := dao.Remove(key);
  }

  /** Saving the store's own listing and reloading, as the tests do,
      leaves the index as it was when the save succeeds. */
  method SaveOwnListing(dao: TipoViviendaDAO)
    requires dao.Valid()
    modifies dao`indice, dao.file
    ensures dao.indice == old(dao.indice)
  {
    ghost var before := dao.indice;
    var listing := dao.AsVector();
    var _ := dao.SaveAndRefresh(listing, NoFault);
    SnapshotOfIndex(listing, before);
  }

  /** First half of `save_an_refresh_tipo_vivienda`: add the second record,
      save the store's own listing and reload; the listing afterwards still
      holds the added record. */
  method AddSaveAndList(dao: TipoViviendaDAO) returns (datos: seq<TipoVivienda>)
    requires dao.indice == map["1" := SanIsidro()]
    modifies dao`indice, dao.file
    ensures dao.indice == map["1" := SanIsidro(), "2" := Chile()]
    ensures Chile() in datos
    ensures forall d | d in datos && d.identificacion == "2" :: ToScreen(d) == ChileLine
  {
    dao.Add(Chile());
    ghost var both := dao.indice;
    assert both == map["1" := SanIsidro(), "2" := Chile()];
    var snapshot := dao.AsVector();
    var _ := dao.SaveAndRefresh(snapshot, NoFault);
    SnapshotOfIndex(snapshot, both);
    datos := dao.AsVector();
    BothListed(datos, both);
    ChileListed(datos);
  }

  /** Second half: remove the added record and save the listing again; the
      file is back to its single original row. */
  method RemoveAndSave(dao: TipoViviendaDAO)
    requires dao.indice == map["1" := SanIsidro(), "2" := Chile()]
    modifies dao`indice, dao.file
    ensures dao.file.contents == Rows([Parsed(SanIsidro())])
  {
    var _ := dao.Remove("2");
    assert dao.indice == map["1" := SanIsidro()];
    var snapshot := dao.AsVector();
    assert snapshot == [SanIsidro()] by {
      assert |dao.indice| == 1;
      assert snapshot[0] in dao.indice.Values;
    }
    var _ := dao.SaveAndRefresh(snapshot, NoFault);
    assert Encode([SanIsidro()]) == [Parsed(SanIsidro())];
  }

  /** `save_an_refresh_tipo_vivienda`: both halves in turn, from the test
      file; both saves are taken to succeed, and the test leaves the file as
      it found it. */
  method SaveAndRefreshTest(file: CsvFile) returns (datos: seq<TipoVivienda>)
    requires file.contents == Rows([Parsed(SanIsidro())])
    modifies file
    ensures Chile() in datos
    ensures forall d | d in datos && d.identificacion == "2" :: ToScreen(d) == ChileLine
    ensures file.contents == Rows([Parsed(SanIsidro())])
  {
    var dao, ok := TipoViviendaDAO.New(file);
    TestFileLoads();
    datos := AddSaveAndList(dao);
    RemoveAndSave(dao);
  }
}
