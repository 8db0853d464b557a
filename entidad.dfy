/** The dwelling-type record of `src/entidad.rs` and the text codec of its
    category tag (`FromStr` and `Display` for `Tipo`). */
module Entidad {
  import opened Wrappers

  /** Rust's `i32`: the numeric fields of a record. */
  newtype i32 = x: int | -0x8000_0000 <= x < 0x8000_0000

  /** The closed set of dwelling categories. */
  datatype Tipo = Apartamento | Casa | Chalet

  /** One dwelling-type record; `identificacion` is its key in the store. */
  datatype TipoVivienda = TipoVivienda(
    identificacion: string,
    calle: string,
    numero: i32,
    piso: string,
    codigoPostal: string,
    metrosCuadrados: i32,
    numeroAseos: i32,
    numeroHabitaciones: i32,
    tipo: Tipo)

  /** `Display for Tipo`: the tag's text, its variant name. */
  function Display(t: Tipo): (r: string)
    ensures r in {"Apartamento", "Casa", "Chalet"}
  {
    match t
    case Apartamento => "Apartamento"
    case Casa => "Casa"
    case Chalet => "Chalet"
  }

  /** `FromStr for Tipo`: accepts exactly the text some tag displays as,
      and rejects every other string with `Err(())`; there is no default. */
  function FromStr(input: string): (r: Result<Tipo, ()>)
    ensures r.Ok? ==> Display(r.value) == input
    ensures r.Err? ==> forall t: Tipo :: Display(t) != input
  {
    match input
    case "Apartamento" => Ok(Apartamento)
    case "Casa" => Ok(Casa)
    case "Chalet" => Ok(Chalet)
    case _ => Err(())
  }

  /** Formatting a tag and parsing the text back gives the same tag. */
  lemma DisplayRoundTrip(t: Tipo)
    ensures FromStr(Display(t)) == Ok(t)
  {
  }

  /** The accepted strings are exactly the three tag names. */
  lemma FromStrAccepts(input: string)
    ensures FromStr(input).Ok? <==> input in {"Apartamento", "Casa", "Chalet"}
  {
  }

  /** Distinct tags never share a text form. */
  lemma DisplayInjective(t: Tipo, u: Tipo)
    requires Display(t) == Display(u)
    ensures t == u
  {
    DisplayRoundTrip(t);
    DisplayRoundTrip(u);
  }
}
