/** `ScreenOutput::toScreen` for a dwelling-type record: the nine fields in
    declaration order, each in its Debug form, separated by commas. The
    model proves that the text loses nothing: it parses back to the record,
    so no two records share a line. */
module Screen {
  import opened Wrappers
  import opened Entidad
  import opened DebugFormat

  /** Texts separated by commas, as the format string `"{:?},{:?},…"` lays
      them out. */
  function Join(fs: seq<string>): string {
    if fs == [] then []
    else if |fs| == 1 then fs[0]
    else fs[0] + "," + Join(fs[1..])
  }

  /** Appending a text to a non-empty list adds it after one more comma. */
  lemma {:induction false} JoinSnoc(fs: seq<string>, x: string)
    requires fs != []
    ensures Join(fs + [x]) == Join(fs) + "," + x
  {
    if |fs| == 1 {
      assert fs + [x] == [fs[0], x];
    } else {
      assert (fs + [x])[1..] == fs[1..] + [x];
      JoinSnoc(fs[1..], x);
    }
  }

  lemma JoinPrefix(fs: seq<string>, k: nat)
    requires 0 < k < |fs|
    ensures Join(fs[..k + 1]) == Join(fs[..k]) + "," + fs[k]
  {
    JoinSnoc(fs[..k], fs[k]);
    assert fs[..k + 1] == fs[..k] + [fs[k]];
  }

  /** Nine texts joined: each one, a comma between each two, nothing at
      either end. */
  lemma JoinNine(a: string, b: string, c: string, d: string, e: string, f: string, g: string, h: string, i: string)
    ensures Join([a, b, c, d, e, f, g, h, i])
         == a + "," + b + "," + c + "," + d + "," + e + "," + f + "," + g + "," + h + "," + i
  {
    var fs := [a, b, c, d, e, f, g, h, i];
    assert fs[..1] == [a];
    JoinPrefix(fs, 1);
    JoinPrefix(fs, 2);
    JoinPrefix(fs, 3);
    JoinPrefix(fs, 4);
    JoinPrefix(fs, 5);
    JoinPrefix(fs, 6);
    JoinPrefix(fs, 7);
    JoinPrefix(fs, 8);
    assert fs[..9] == fs;
  }

  /** The Debug text of each field, in declaration order. The derived Debug
      form of a `Tipo` is its variant name, which is also its `Display` text. */
  function ScreenFields(v: TipoVivienda): seq<string> {
    [DebugStr(v.identificacion), DebugStr(v.calle), DebugInt(v.numero as int),
     DebugStr(v.piso), DebugStr(v.codigoPostal), DebugInt(v.metrosCuadrados as int),
     DebugInt(v.numeroAseos as int), DebugInt(v.numeroHabitaciones as int), Display(v.tipo)]
  }

  /** The record's line of text, from which the record can be read back. */
  function ToScreen(v: TipoVivienda): (line: string)
    ensures ParseScreen(line) == Some(v)
  {
    ScreenRoundTrip(v);
    Join(ScreenFields(v))
  }

  function Comma(s: string): Option<string> {
    if s != [] && s[0] == ',' then Some(s[1..]) else None
  }

  /** A quoted string followed by a comma. */
  function StrField(s: string): Option<(string, string)> {
    var q :- ParseQuoted(s);
    var rest :- Comma(q.1);
    Some((q.0, rest))
  }

  /** A 32-bit integer followed by a comma. */
  function IntField(s: string): Option<(i32, string)> {
    var q :- ParseInt(s);
    if -0x8000_0000 <= q.0 < 0x8000_0000 then
      var rest :- Comma(q.1);
      Some((q.0 as i32, rest))
    else None
  }

  /** Reads a record back from its line of text. */
  function ParseScreen(s: string): Option<TipoVivienda> {
    var f1 :- StrField(s);
    var f2 :- StrField(f1.1);
    var f3 :- IntField(f2.1);
    var f4 :- StrField(f3.1);
    var f5 :- StrField(f4.1);
    var f6 :- IntField(f5.1);
    var f7 :- IntField(f6.1);
    var f8 :- IntField(f7.1);
    match FromStr(f8.1)
    case Ok(t) => Some(TipoVivienda(f1.0, f2.0, f3.0, f4.0, f5.0, f6.0, f7.0, f8.0, t))
    case Err(_) => None
  }

  lemma StrFieldOf(s: string, rest: string)
    ensures StrField(DebugStr(s) + "," + rest) == Some((s, rest))
  {
    QuotedRoundTrip(s, "," + rest);
    assert DebugStr(s) + "," + rest == DebugStr(s) + ("," + rest);
  }

  lemma IntFieldOf(n: i32, rest: string)
    ensures IntField(DebugInt(n as int) + "," + rest) == Some((n, rest))
  {
    IntRoundTrip(n as int, "," + rest);
    assert DebugInt(n as int) + "," + rest == DebugInt(n as int) + ("," + rest);
  }

  /** Reading the comma-separated Debug fields of a record gives back the
      record. */
  lemma ScreenRoundTrip(v: TipoVivienda)
    ensures ParseScreen(Join(ScreenFields(v))) == Some(v)
  {
    var fs := ScreenFields(v);
    assert Join(fs) == fs[0] + "," + Join(fs[1..]);
    assert Join(fs[1..]) == fs[1] + "," + Join(fs[2..]);
    assert Join(fs[2..]) == fs[2] + "," + Join(fs[3..]);
    assert Join(fs[3..]) == fs[3] + "," + Join(fs[4..]);
    assert Join(fs[4..]) == fs[4] + "," + Join(fs[5..]);
    assert Join(fs[5..]) == fs[5] + "," + Join(fs[6..]);
    assert Join(fs[6..]) == fs[6] + "," + Join(fs[7..]);
    assert Join(fs[7..]) == fs[7] + "," + Join(fs[8..]);
    assert Join(fs[8..]) == fs[8];
    StrFieldOf(v.identificacion, Join(fs[1..]));
    StrFieldOf(v.calle, Join(fs[2..]));
    IntFieldOf(v.numero, Join(fs[3..]));
    StrFieldOf(v.piso, Join(fs[4..]));
    StrFieldOf(v.codigoPostal, Join(fs[5..]));
    IntFieldOf(v.metrosCuadrados, Join(fs[6..]));
    IntFieldOf(v.numeroAseos, Join(fs[7..]));
    IntFieldOf(v.numeroHabitaciones, Join(fs[8..]));
    DisplayRoundTrip(v.tipo);
  }

  /** Two records with the same line of text are the same record, so a
      line identifies the record it was printed from. */
  lemma ToScreenInjective(a: TipoVivienda, b: TipoVivienda)
    requires ToScreen(a) == ToScreen(b)
    ensures a == b
  {
  }

  /** A record whose strings hold nothing Debug escapes (the case of the
      records the tests use) prints every string field between quotes,
      verbatim, and every number in plain decimal. */
  lemma ScreenFieldsPlain(v: TipoVivienda)
    requires forall i | 0 <= i < |v.identificacion| :: !NeedsEscape(v.identificacion[i])
    requires forall i | 0 <= i < |v.calle| :: !NeedsEscape(v.calle[i])
    requires forall i | 0 <= i < |v.piso| :: !NeedsEscape(v.piso[i])
    requires forall i | 0 <= i < |v.codigoPostal| :: !NeedsEscape(v.codigoPostal[i])
    ensures ToScreen(v) == Join(
      ["\"" + v.identificacion + "\"", "\"" + v.calle + "\"", DebugInt(v.numero as int),
       "\"" + v.piso + "\"", "\"" + v.codigoPostal + "\"", DebugInt(v.metrosCuadrados as int),
       DebugInt(v.numeroAseos as int), DebugInt(v.numeroHabitaciones as int), Display(v.tipo)])
  {
    EscapedPlain(v.identificacion);
    EscapedPlain(v.calle);
    EscapedPlain(v.piso);
    EscapedPlain(v.codigoPostal);
  }
}
