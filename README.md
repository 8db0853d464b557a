# Dwelling-type store (`src/entidad.rs`)

A Dafny model of the data layer of a small Rust desktop application for
managing dwelling types. The core is `src/entidad.rs`. It has three parts.

- **Tipo**: the category of a dwelling (`Apartamento`, `Casa`, `Chalet`),
  with its text codec (`FromStr` and `Display`).
- **TipoVivienda**: one record of nine fields. `toScreen` prints a record
  as one line of text, each field in Rust's Debug (`{:?}`) form.
- **TipoViviendaDAO**: a store that keeps an in-memory index (`indice`, a
  map from identifier to record). It mirrors the index to one CSV file:
  `save` overwrites the file and `refresh` reloads it. It offers `new`,
  `save_and_refresh`, `asVector`, `add`, `update` and `remove`.

The model has these modules:

- `Entidad`: the record and the tag codec. A Rust `i32` is a `newtype`
  over its range.
- `DebugFormat`: Rust's Debug text for strings and integers, with parsers
  that read it back. These parsers are used to prove that the text loses
  nothing.
- `Screen`: `toScreen` and its inverse.
- `Indice`: the index as a map, built by inserting records in order, and
  what it means for a list to be a snapshot of it.
- `Dao`: the store as a class with a `map` field. The backing file is a
  `CsvFile` object whose `contents` `save` replaces and `refresh` reads.
- `Scenarios`: the unit tests at the end of the source file, as client
  methods whose postconditions state what each test checks.

How the model represents what it cannot run:

- The file's contents are a list of rows. A row either holds a record or
  is malformed. The CSV/serde text encoding itself is not modelled.
- The path may also be unreadable. An unreadable file or a malformed row
  makes `refresh` panic through `unwrap`. The model reports this as
  `ok == false` and keeps the partly rebuilt index.
- How a write turns out is a parameter (`WriteFault`). The write can
  succeed, or the file can fail to open. Otherwise an I/O error strikes
  after a given number of records.

On a failed save the file is not always left as it was, and the model
follows the code here. `Writer::from_path` creates and truncates the file
before writing anything. So only a failure to open leaves the old contents
for the following `refresh`. A failure mid-write leaves the records
written so far, and `refresh` reloads those.

## Model

| member | source | states |
|---|---|---|
| Entidad.Display | src/entidad.rs:62-70 | the text of a tag is its variant name, one of the three names; FromStr reads it back (DisplayRoundTrip) and no two tags share it (DisplayInjective) |
| Entidad.FromStr | src/entidad.rs:52-58 | an accepted string is the text of the tag returned; a rejected one is the text of no tag (error `()`, no default) |
| Entidad.FromStrAccepts | src/entidad.rs:53-57 | parsing succeeds if and only if the input is one of "Apartamento", "Casa", "Chalet" |
| Entidad.DisplayRoundTrip | src/entidad.rs:62-70 | parsing a tag's displayed text gives back that tag |
| Entidad.DisplayInjective | src/entidad.rs:64-68 | two tags with the same text are the same tag |
| DebugFormat.DebugStr | src/entidad.rs:75 | `{:?}` of a string: opens and closes with a double quote and is at least two characters longer than the string; QuotedRoundTrip reads it back |
| DebugFormat.Escaped | src/entidad.rs:75 | the text between the quotes: each character verbatim or as its escape, never shorter than the string |
| DebugFormat.QuotedRoundTrip | src/entidad.rs:75 | a string's quoted, escaped Debug text reads back as that string, leaving whatever follows untouched |
| DebugFormat.UnquoteEscaped | src/entidad.rs:75 | the escaped body followed by the closing quote reads back as the string, by induction over it |
| DebugFormat.UnquoteStep | src/entidad.rs:75 | reading one written character (escaped or verbatim) in front of a readable body puts that character in front of the body |
| DebugFormat.UnescapeEscapeChar | src/entidad.rs:75 | each escape sequence Debug writes (`\"`, `\\`, `\0`, `\t`, `\n`, `\r`, `\u{..}`) reads back as its character |
| DebugFormat.EscapedPlain | src/entidad.rs:75 | a string with no character needing an escape is printed verbatim between the quotes |
| DebugFormat.DebugStrPlain | src/entidad.rs:75 | a string with nothing to escape prints as itself between double quotes |
| DebugFormat.NatText | src/entidad.rs:75-76 | the decimal text of a natural number is a non-empty run of digits |
| DebugFormat.DebugInt | src/entidad.rs:75-76 | `{:?}` of an integer: a leading `-` exactly when it is negative, followed by a non-empty run of digits; IntRoundTrip reads it back |
| DebugFormat.NatTextDigits | src/entidad.rs:75-76 | the decimal text of a natural number denotes that number |
| DebugFormat.DigitRunOf | src/entidad.rs:75-76 | the digit run at the start of digits followed by a non-digit ends exactly at that non-digit |
| DebugFormat.NatRoundTrip | src/entidad.rs:75-76 | reading a natural's decimal text back gives the number and the rest of the input |
| DebugFormat.NegativeRoundTrip | src/entidad.rs:75-76 | a negative integer's text (`-` and its magnitude) reads back as that integer |
| DebugFormat.NonNegativeRoundTrip | src/entidad.rs:75-76 | a non-negative integer's text reads back as that integer |
| DebugFormat.IntRoundTrip | src/entidad.rs:75-76 | every integer's Debug text reads back as that integer when a non-digit (here a comma) follows |
| Screen.ToScreen | src/entidad.rs:73-78 | `toScreen`: the nine fields in declaration order, each in its Debug form, joined by commas; the line parses back to exactly the record |
| Screen.JoinNine | src/entidad.rs:75 | nine texts laid out by the format string: each in order, a single comma between each two, nothing before or after |
| Screen.ScreenRoundTrip | src/entidad.rs:74-77 | the nine comma-joined Debug field texts of a record parse back to exactly that record |
| Screen.ToScreenInjective | src/entidad.rs:74-77 | two records with the same line are the same record |
| Screen.ScreenFieldsPlain | src/entidad.rs:74-77 | for records whose strings need no escapes, the line is the quoted strings verbatim, the decimal numbers and the tag's text, comma-separated |
| Indice.BuildIndex | src/entidad.rs:107-110 | the index built by inserting the records in order, each under its own identifier: every key names the record stored under it, and every stored record is one of the list |
| Indice.BuildIndexKeys | src/entidad.rs:107-110 | the index's keys are exactly the identifiers in the list |
| Indice.BuildIndexLastWins | src/entidad.rs:107-110 | the record stored under an identifier is the last one in the list carrying it |
| Indice.DistinctIdsCount | src/entidad.rs:132-135 | a list with distinct identifiers has as many identifiers as elements |
| Indice.DistinctIdsOnce | src/entidad.rs:132-135 | in such a list every record occurs at most once |
| Indice.SnapshotIds | src/entidad.rs:132-135 | a snapshot of a keyed index carries exactly its keys |
| Indice.SnapshotMultiset | src/entidad.rs:132-135 | a snapshot holds the index's records, each once |
| Indice.SnapshotRebuilds | src/entidad.rs:132-135 | re-indexing a snapshot gives back the index |
| Indice.SnapshotOfIndex | src/entidad.rs:132-135 | a snapshot has one element per key, the index's records as a multiset, and re-indexes to the index |
| Dao.Encode | src/entidad.rs:118-120 | saving writes one row per record, in order |
| Dao.FirstMalformed | src/entidad.rs:107-108 | the count of rows before the first malformed one: all rows before it deserialize, and the row at it does not |
| Dao.Records | src/entidad.rs:108 | the records of well-formed rows, one per row, in order |
| Dao.RecordsExtend | src/entidad.rs:107-109 | reading one more well-formed row appends its record |
| Dao.LoadStopsAt | src/entidad.rs:104-110 | a load that stops after i good rows has read those i records, and succeeded exactly when it reached the end |
| Dao.MalformedRowFailsLoad | src/entidad.rs:108 | one malformed row anywhere makes the load fail |
| Dao.Written | src/entidad.rs:114-123 | the file after a save: unchanged when it cannot be opened; otherwise it loads back a prefix of the saved list, the whole list when nothing failed |
| Dao.LoadEncoded | src/entidad.rs:114-123 | a file saved from a list loads back exactly that list, in order |
| Dao.CsvFile.constructor | src/entidad.rs:102 | the backing file holds the given contents |
| Dao.TipoViviendaDAO.Empty | src/entidad.rs:96 | a store with an empty index, over the given file |
| Dao.TipoViviendaDAO.New | src/entidad.rs:95-99 | a fresh store whose index is the file's records inserted in order; ok exactly when the file loads |
| Dao.TipoViviendaDAO.Refresh | src/entidad.rs:101-111 | the index is cleared and rebuilt from the file's records in order (later duplicates win), stays keyed; ok exactly when the file opens and every row deserializes |
| Dao.TipoViviendaDAO.Save | src/entidad.rs:114-123 | the result is Ok or the error of the fault; the file becomes the given records, or stays as it was on an open error, or holds the records written before a write error |
| Dao.TipoViviendaDAO.SaveAndRefresh | src/entidad.rs:126-129 | the save's result is dropped and the index is reloaded from the file as the save left it; after a clean save the index is exactly the index of the saved list; after an open error it is the index of the old file |
| Dao.TipoViviendaDAO.AsVector | src/entidad.rs:132-135 | the result lists every record of the index exactly once and nothing else: same length, same multiset, one entry per key |
| Dao.TipoViviendaDAO.Add | src/entidad.rs:137-141 | inserts the record only when its identifier is absent; otherwise the index is unchanged; the index stays keyed |
| Dao.TipoViviendaDAO.Update | src/entidad.rs:143-147 | replaces the record only when its identifier is present; never changes the key set; the index stays keyed |
| Dao.TipoViviendaDAO.Remove | src/entidad.rs:149-151 | returns the stored record (whose identifier is the key) or None when the key is absent; the index loses exactly that key |
| Scenarios.ToScreenTest | src/entidad.rs:155-168 | `to_screen_tipo_vivienda`: the San Isidro record prints as exactly `"1","San Isidro",4,"1C","28350",80,1,2,Apartamento` |
| Scenarios.ChileScreen | src/entidad.rs:179-197 | the Chile record prints as exactly `"2","Chile",40,"","28350",100,3,3,Chalet` |
| Scenarios.BothListed | src/entidad.rs:193-194 | a listing of the index of the two test records holds both and no other record |
| Scenarios.ChileListed | src/entidad.rs:195-200 | in such a listing, every record whose identifier is "2" prints as the Chile line |
| Scenarios.TestFileLoads | src/entidad.rs:170-175 | the test file with its one record loads into an index holding that record |
| Scenarios.AsVectorTest | src/entidad.rs:170-175 | after `new` on the test file, the listing is exactly the San Isidro record, and its first entry prints as the San Isidro line |
| Scenarios.AddTest | src/entidad.rs:177-201 | after adding the Chile record, the listing holds both records and nothing else, and the listed record with identifier "2" prints as the Chile line |
| Scenarios.RemoveTest | src/entidad.rs:203-209 | removing identifier "1" returns that record and leaves an empty listing |
| Scenarios.RemoveTwice | src/entidad.rs:149-151 | a second remove of the same key returns None and changes nothing |
| Scenarios.SaveOwnListing | src/entidad.rs:126-135 | saving the store's own listing and reloading leaves the index as it was |
| Scenarios.AddSaveAndList | src/entidad.rs:225-235 | after add, save and reload, the index holds both records, the listing holds the added one, and the listed record with identifier "2" prints as the Chile line |
| Scenarios.RemoveAndSave | src/entidad.rs:236-237 | removing the added record and saving leaves the file with its original single row |
| Scenarios.SaveAndRefreshTest | src/entidad.rs:211-238 | the whole test: the added record is listed after the reload and prints as the Chile line, and the file ends as it began |

## Left out

- The CSV text format and serde (de)serialization are not modelled; the file is a list of rows, each a record or malformed. Through `rename_all = "camelCase"` serde writes the tags in the file as `apartamento`, `casa`, `chalet`, not as their `Display` text; the model does not see this.
- Dao.TipoViviendaDAO.Refresh: a panic (`unwrap` on an unreadable file or a bad row) is modelled as `ok == false` with the partly rebuilt index, not as the process aborting.
- Dao.TipoViviendaDAO.Save: a write error is modelled as losing whole records only. A partly written row, or buffered records lost at the final flush, are not modelled.
- Dao.TipoViviendaDAO.AsVector: the listing's order is `HashMap` iteration order, which the model leaves unspecified, not fixed.
- The store's own `toScreen` (src/entidad.rs:87-91), the Debug text of the whole `HashMap`, is not modelled: its entry order is unspecified.
- DebugFormat.QuotedRoundTrip: Debug escaping is modelled for ASCII only. Rust also escapes non-printable non-ASCII characters as `\u{..}` and grapheme extenders; the model copies every non-ASCII character verbatim. The parser reads only the one- and two-digit `\u{..}` escapes the model produces.
- `TipoViviendaBD` (the database row type) and the `diesel` derives are not modelled; `src/repository.rs` is not part of this model.
- `Persona` and `PersonaDAO`, which the interface imports from this module, are not defined in src/entidad.rs and are not part of this model; nor is the interface code in `src/presentacion.rs`, `src/presentacion2.rs` and `src/main.rs`.
- The hard-coded path `./src/csv/tipo-vivienda.csv` is the one `CsvFile` object that each store shares; file-system I/O itself is not modelled.
