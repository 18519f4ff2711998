/** Records of the two tables of the air-quality alert service, and the clock constants. */
module Tipos {

  datatype Option<+T> = None | Some(value: T)

  /** Time is an integer number of seconds; the service reads it as a parameter. */
  const SEIS_HORAS: int := 21600
  const TRES_HORAS: int := 10800

  /** One row of the history table (`HistoricoAQI`). */
  datatype HistoricoAQI = HistoricoAQI(
    id: nat,
    timestamp: int,
    latitude: string,
    longitude: string,
    indiceAqi: int,
    risco: string)

  /** One row of the subscriber table (`Inscrito`); `ultimoAlerta` is nullable. */
  datatype Inscrito = Inscrito(
    id: nat,
    email: string,
    latitude: string,
    longitude: string,
    ultimoAlerta: Option<int>)

  /** The `unique=True` constraint on the email column. */
  ghost predicate EmailsUnicos(s: seq<Inscrito>)
  {
    forall i, j :: 0 <= i < j < |s| ==> s[i].email != s[j].email
  }

  /** The subscriber table's invariant: unique emails, identifiers increasing and below the next one. */
  ghost predicate TabelaInscritos(s: seq<Inscrito>, proximoId: nat)
  {
    EmailsUnicos(s) &&
    (forall i, j :: 0 <= i < j < |s| ==> s[i].id < s[j].id) &&
    (forall i :: 0 <= i < |s| ==> s[i].id < proximoId)
  }

  /** The history table's invariant: identifiers increasing and below the next one. */
  ghost predicate TabelaHistorico(h: seq<HistoricoAQI>, proximoId: nat)
  {
    (forall i, j :: 0 <= i < j < |h| ==> h[i].id < h[j].id) &&
    (forall i :: 0 <= i < |h| ==> h[i].id < proximoId)
  }

  predicate EmailRegistrado(s: seq<Inscrito>, email: string)
  {
    exists x :: x in s && x.email == email
  }
}
