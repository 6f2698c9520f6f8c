/** The location form dialog: the form record, its reset when the dialog's
    inputs change, single-field edits and the submit sequence. */
module LocationForm {

  import opened Domain

  /** The form's starting coordinates (Rio de Janeiro). */
  const DefaultLatitude: real := -22.9068
  const DefaultLongitude: real := -43.1729

  /** Shown when the submit handler rejects with something that is not an
      `Error`. */
  const SaveErrorFallback := "Erro ao salvar local"

  /** The empty form: blank texts at the default coordinates. */
  const Blank := LocationDraft("", "", DefaultLatitude, DefaultLongitude, "")

  /** The form's inputs, by their `name` attribute. */
  datatype Field = Nome | Descricao | Latitude | Longitude | Imagem

  /** What an input holds: the raw text, or a parsed number for the two
      coordinates. */
  datatype FieldValue = Text(text: string) | Number(x: real)

  predicate Numeric(f: Field)
  {
    f == Latitude || f == Longitude
  }

  /** The form record's entry for `f`. */
  function Read(d: LocationDraft, f: Field): (v: FieldValue)
    ensures v.Number? <==> Numeric(f)
  {
    match f
    case Nome => Text(d.nome)
    case Descricao => Text(d.descricao)
    case Latitude => Number(d.latitude)
    case Longitude => Number(d.longitude)
    case Imagem => Text(d.imagem)
  }

  /** A form record is determined by its five entries. */
  lemma {:induction false} ReadDetermines(a: LocationDraft, b: LocationDraft)
    requires forall f :: Read(a, f) == Read(b, f)
    ensures a == b
  {
    assert Read(a, Nome) == Read(b, Nome) && Read(a, Descricao) == Read(b, Descricao);
    assert Read(a, Latitude) == Read(b, Latitude) && Read(a, Longitude) == Read(b, Longitude);
    assert Read(a, Imagem) == Read(b, Imagem);
  }

  /** The form record filled from a stored location. */
  function DraftOf(l: Location): (d: LocationDraft)
    ensures d.nome == l.nome && d.descricao == l.descricao && d.imagem == l.imagem
    ensures d.latitude == l.latitude && d.longitude == l.longitude
  {
    LocationDraft(l.nome, l.descricao, l.latitude, l.longitude, l.imagem)
  }

  /** The location a draft describes once stored under `id`. */
  function Stored(id: string, d: LocationDraft): (l: Location)
    ensures l.id == id && DraftOf(l) == d
  {
    Location(id, d.nome, d.descricao, d.latitude, d.longitude, d.imagem)
  }

  /** Copying a location into the form loses nothing but its id. */
  lemma {:induction false} DraftOfStoredRoundTrip(l: Location)
    ensures Stored(l.id, DraftOf(l)) == l
  {
  }

  /** The form the reset effect produces: the edited location's values in
      edit mode with a location, the blank form otherwise (including edit
      mode without a location). */
  function ResetDraft(location: Option<Location>, mode: ModalMode): (d: LocationDraft)
    ensures location.Some? && mode == Edit ==> d == DraftOf(location.value)
    ensures location.None? || mode == Create ==> d == Blank
  {
    if location.Some? && mode == Edit then DraftOf(location.value) else Blank
  }

  /** The form after `handleChange` on input `f` with text `value`: that entry
      holds the text, parsed by `parse` for a coordinate; every other entry is
      unchanged. */
  function Changed(d: LocationDraft, f: Field, value: string, parse: string -> real): (r: LocationDraft)
    ensures Read(r, f) == if Numeric(f) then Number(parse(value)) else Text(value)
    ensures forall g :: g != f ==> Read(r, g) == Read(d, g)
  {
    match f
    case Nome => d.(nome := value)
    case Descricao => d.(descricao := value)
    case Latitude => d.(latitude := parse(value))
    case Longitude => d.(longitude := parse(value))
    case Imagem => d.(imagem := value)
  }

  /** Typing the same text twice into an input is the same as typing it
      once. */
  lemma {:induction false} ChangeIdempotent(d: LocationDraft, f: Field, value: string, parse: string -> real)
    ensures Changed(Changed(d, f, value, parse), f, value, parse) == Changed(d, f, value, parse)
  {
    var once := Changed(d, f, value, parse);
    forall g
      ensures Read(Changed(once, f, value, parse), g) == Read(once, g)
    {
    }
    ReadDetermines(Changed(once, f, value, parse), once);
  }

  /** Edits of two different inputs do not interfere: their order does not
      matter. */
  lemma {:induction false} ChangesCommute(d: LocationDraft, f: Field, v: string, g: Field, w: string, parse: string -> real)
    requires f != g
    ensures Changed(Changed(d, f, v, parse), g, w, parse) == Changed(Changed(d, g, w, parse), f, v, parse)
  {
    var a := Changed(Changed(d, f, v, parse), g, w, parse);
    var b := Changed(Changed(d, g, w, parse), f, v, parse);
    forall h
      ensures Read(a, h) == Read(b, h)
    {
    }
    ReadDetermines(a, b);
  }

  /** How the submit ends, given how the awaited submit handler settled:
      whether the dialog is closed, and the error text then shown. */
  function SubmitEnded(outcome: Settlement): (r: (bool, Option<string>))
    ensures r.0 <==> outcome.Resolved?
    ensures r.1.Some? <==> outcome.Rejected?
    ensures outcome.Rejected? ==> r.1 == Some(MessageOr(outcome.cause, SaveErrorFallback))
  {
    match outcome
    case Resolved => (true, None)
    case Rejected(cause) => (false, Some(MessageOr(cause, SaveErrorFallback)))
  }

  /** The form dialog's state cells. */
  class FormState {
    var formData: LocationDraft
    var loading: bool
    var error: Option<string>

    constructor ()
      ensures formData == Blank && !loading && error == None
    {
      formData := Blank;
      loading := false;
      error := None;
    }

    /** The reset effect, run when the location, the mode or the open flag
        changes. */
    method Reset(location: Option<Location>, mode: ModalMode)
      modifies this`formData
      ensures formData == ResetDraft(location, mode)
    {
      formData := ResetDraft(location, mode);
    }

    /** `handleChange` for input `f`; `parse` stands for `parseFloat`. */
    method HandleChange(f: Field, value: string, parse: string -> real)
      modifies this`formData
      ensures formData == Changed(old(formData), f, value, parse)
    {
      formData := Changed(formData, f, value, parse);
    }

    /** `handleSubmit`, with the awaited handler's settlement as an input.
        `submitted` is the record handed to the handler, `busy` and
        `shownError` the cells while it runs; `close` says whether `onClose`
        is called. Loading is down again on both outcomes. */
    method Submit(outcome: Settlement) returns (submitted: LocationDraft, busy: bool, shownError: Option<string>, close: bool)
      modifies this`loading, this`error
      ensures submitted == formData && busy && shownError == None
      ensures (close, error) == SubmitEnded(outcome)
      ensures !loading
    {
      loading := true;
      error := None;
      submitted, busy, shownError := formData, loading, error;
      match outcome {
        case Resolved =>
          close := true;
        case Rejected(cause) =>
          close := false;
          error := Some(MessageOr(cause, SaveErrorFallback));
      }
      loading := false;
    }
  }
}
