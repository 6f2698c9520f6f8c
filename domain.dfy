/** Shared shapes of the locations application: the records exchanged with the
    backend, geographic positions, and what a failed `await` can throw. */
module Domain {

  datatype Option<+T> = None | Some(value: T)

  /** A value thrown by a rejected promise: either an `Error` instance, whose
      `message` the code reads, or anything else, which the code replaces by a
      fixed fallback text. */
  datatype Thrown = ErrorValue(message: string) | OtherValue

  /** `error instanceof Error ? error.message : fallback` */
  function MessageOr(t: Thrown, fallback: string): (m: string)
    ensures t.ErrorValue? ==> m == t.message
    ensures t.OtherValue? ==> m == fallback
  {
    match t
    case ErrorValue(msg) => msg
    case OtherValue => fallback
  }

  /** How an awaited promise with no value of interest settles. */
  datatype Settlement = Resolved | Rejected(cause: Thrown)

  /** A stored location, as returned by the backend. */
  datatype Location = Location(
    id: string,
    nome: string,
    descricao: string,
    latitude: real,
    longitude: real,
    imagem: string)

  /** The body sent to create or update a location (no id). */
  datatype LocationDraft = LocationDraft(
    nome: string,
    descricao: string,
    latitude: real,
    longitude: real,
    imagem: string)

  /** Whether the location form creates a new location or edits one. */
  datatype ModalMode = Create | Edit

  /** A geographic position in longitude-then-latitude order, the position
      order of section 3.1.1 of RFC 7946 used by the directions service and
      by route geometries. */
  datatype Coord = Coord(lng: real, lat: real)
}
