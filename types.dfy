/** The app's data records (types/index.ts), with dates as integer day numbers. */
module Types {

  datatype Option<T> = None | Some(value: T)

  /** A recorded bleeding day. `fecha` is the calendar day as a day number; `certain`
      is the optional certainty flag (absent means certain). */
  datatype Observation = Observation(fecha: int, certain: Option<bool>)

  /** A tracked person. `order` is the display position that the store writes although the
      declared interface omits it. */
  datatype Profile = Profile(
    id: string,
    nombre: string,
    edad: Option<int>,
    notas: Option<string>,
    foto: Option<string>,
    observaciones: seq<Observation>,
    createdAt: string,
    order: Option<int>)

  /** The four mutually exclusive categories, in the key order of the score records. */
  datatype Category = Regla | Perrisima | Horny | Nifunifa

  /** A score per category (`PredictionScore`). */
  datatype Scores = Scores(regla: real, perrisima: real, horny: real, nifunifa: real)

  function Value(p: Scores, c: Category): real
  {
    match c
    case Regla => p.regla
    case Perrisima => p.perrisima
    case Horny => p.horny
    case Nifunifa => p.nifunifa
  }

  /** Position of a category among the record's keys. */
  function Rank(c: Category): nat
  {
    match c
    case Regla => 0
    case Perrisima => 1
    case Horny => 2
    case Nifunifa => 3
  }

  function Total(p: Scores): real
  {
    p.regla + p.perrisima + p.horny + p.nifunifa
  }

  /** `p` with `w` added to category `c`. */
  function AddTo(p: Scores, c: Category, w: real): (q: Scores)
    ensures Total(q) == Total(p) + w
  {
    match c
    case Regla => p.(regla := p.regla + w)
    case Perrisima => p.(perrisima := p.perrisima + w)
    case Horny => p.(horny := p.horny + w)
    case Nifunifa => p.(nifunifa := p.nifunifa + w)
  }

  /** Adding to a category raises its value by the amount added. */
  lemma AddToValue(p: Scores, c: Category, w: real)
    ensures Value(AddTo(p, c, w), c) == Value(p, c) + w
  {
  }

  /** Adding to one category leaves the other three as they were. */
  lemma AddToOthers(p: Scores, c: Category, w: real, k: Category)
    requires k != c
    ensures Value(AddTo(p, c, w), k) == Value(p, k)
  {
  }

  const Zero := Scores(0.0, 0.0, 0.0, 0.0)
}
