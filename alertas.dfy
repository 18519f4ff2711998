/** The alert rule of the "current conditions" operation: which subscribers are notified and how they change. */
module Alertas {
  import opened Tipos
  import Classificador

  /** An attempted notification (`enviar_alerta`): recipient, the classification and the coordinate. */
  datatype Alerta = Alerta(
    destinatario: string,
    risco: string,
    indice: int,
    recomendacao: string,
    latitude: string,
    longitude: string)

  /** Alerts go out only for an index at or above this threshold (`if aqi >= 1`). */
  const LIMITE_ALERTA: int := 1

  /** The subscriber's coordinate is string-equal to the request's. */
  predicate NaArea(s: Inscrito, lat: string, lon: string)
  {
    s.latitude == lat && s.longitude == lon
  }

  /** Never alerted, or last alerted strictly more than six hours before `agora`. */
  predicate ForaDoIntervalo(s: Inscrito, agora: int)
    ensures s.ultimoAlerta == Some(agora) ==> !ForaDoIntervalo(s, agora)
  {
    s.ultimoAlerta.None? || agora - s.ultimoAlerta.value > SEIS_HORAS
  }

  predicate Elegivel(s: Inscrito, lat: string, lon: string, aqi: int, agora: int)
    ensures Elegivel(s, lat, lon, aqi, agora) ==> s.ultimoAlerta != Some(agora)
  {
    aqi >= LIMITE_ALERTA && NaArea(s, lat, lon) && ForaDoIntervalo(s, agora)
  }

  /** The message `enviar_alerta` is asked to send to subscriber `s`. */
  function AlertaPara(s: Inscrito, lat: string, lon: string, aqi: int): (a: Alerta)
    ensures a.destinatario == s.email && a.indice == aqi && a.latitude == lat && a.longitude == lon
    ensures a.risco == Classificador.Interpretar(aqi).risco
    ensures a.recomendacao == Classificador.Interpretar(aqi).recomendacao
  {
    var info := Classificador.Interpretar(aqi);
    Alerta(s.email, info.risco, aqi, info.recomendacao, lat, lon)
  }

  /** One subscriber after the fan-out: an eligible one has `ultimoAlerta := agora`, whether or not the send succeeded. */
  function Atualizar(s: Inscrito, lat: string, lon: string, aqi: int, agora: int): (r: Inscrito)
    ensures r.id == s.id && r.email == s.email && r.latitude == s.latitude && r.longitude == s.longitude
    ensures r != s <==> Elegivel(s, lat, lon, aqi, agora)
    ensures r != s ==> r.ultimoAlerta == Some(agora)
  {
    if Elegivel(s, lat, lon, aqi, agora) then s.(ultimoAlerta := Some(agora)) else s
  }

  /** The subscriber table after the fan-out. */
  function Atualizados(s: seq<Inscrito>, lat: string, lon: string, aqi: int, agora: int): (r: seq<Inscrito>)
    ensures |r| == |s|
    ensures forall i :: 0 <= i < |s| ==> r[i] == Atualizar(s[i], lat, lon, aqi, agora)
  {
    seq(|s|, i requires 0 <= i < |s| => Atualizar(s[i], lat, lon, aqi, agora))
  }

  /** The fan-out keeps the subscriber table's invariant: it changes no email and no identifier. */
  lemma AtualizadosPreservaTabela(s: seq<Inscrito>, proximoId: nat, lat: string, lon: string, aqi: int, agora: int)
    requires TabelaInscritos(s, proximoId)
    ensures TabelaInscritos(Atualizados(s, lat, lon, aqi, agora), proximoId)
  {
  }

  /** The notifications the fan-out attempts, in table order. */
  function Notificacoes(s: seq<Inscrito>, lat: string, lon: string, aqi: int, agora: int): (r: seq<Alerta>)
    ensures |r| <= |s|
    decreases |s|
  {
    if s == [] then []
    else
      var ultimo := s[|s| - 1];
      Notificacoes(s[..|s| - 1], lat, lon, aqi, agora)
        + if Elegivel(ultimo, lat, lon, aqi, agora) then [AlertaPara(ultimo, lat, lon, aqi)] else []
  }

  /** One more subscriber visited adds its alert, if it is eligible, at the end. */
  lemma NotificacoesPasso(s: seq<Inscrito>, i: nat, lat: string, lon: string, aqi: int, agora: int)
    requires i < |s|
    ensures Notificacoes(s[..i + 1], lat, lon, aqi, agora) ==
            Notificacoes(s[..i], lat, lon, aqi, agora)
              + if Elegivel(s[i], lat, lon, aqi, agora) then [AlertaPara(s[i], lat, lon, aqi)] else []
  {
    assert s[..i + 1][..i] == s[..i];
  }

  /** A notification is attempted exactly for the eligible subscribers. */
  lemma {:induction false} NotificacaoSse(s: seq<Inscrito>, lat: string, lon: string, aqi: int, agora: int, a: Alerta)
    ensures a in Notificacoes(s, lat, lon, aqi, agora) <==>
            exists i :: 0 <= i < |s| && Elegivel(s[i], lat, lon, aqi, agora) && a == AlertaPara(s[i], lat, lon, aqi)
    decreases |s|
  {
    if s != [] {
      var p := s[..|s| - 1];
      NotificacaoSse(p, lat, lon, aqi, agora, a);
      if a in Notificacoes(p, lat, lon, aqi, agora) {
        var i :| 0 <= i < |p| && Elegivel(p[i], lat, lon, aqi, agora) && a == AlertaPara(p[i], lat, lon, aqi);
        assert s[i] == p[i];
      }
      if exists i :: 0 <= i < |s| && Elegivel(s[i], lat, lon, aqi, agora) && a == AlertaPara(s[i], lat, lon, aqi) {
        var i :| 0 <= i < |s| && Elegivel(s[i], lat, lon, aqi, agora) && a == AlertaPara(s[i], lat, lon, aqi);
        if i < |p| {
          assert p[i] == s[i];
        }
      }
    }
  }

  /** With unique emails, one fetch notifies each subscriber at most once. */
  lemma {:induction false} NoMaximoUmAlertaPorInscrito(s: seq<Inscrito>, lat: string, lon: string, aqi: int, agora: int)
    requires EmailsUnicos(s)
    ensures var r := Notificacoes(s, lat, lon, aqi, agora);
            forall j, k :: 0 <= j < k < |r| ==> r[j].destinatario != r[k].destinatario
    decreases |s|
  {
    if s != [] {
      var p := s[..|s| - 1];
      var ultimo := s[|s| - 1];
      assert EmailsUnicos(p);
      NoMaximoUmAlertaPorInscrito(p, lat, lon, aqi, agora);
      var rp := Notificacoes(p, lat, lon, aqi, agora);
      forall j | 0 <= j < |rp|
        ensures rp[j].destinatario != ultimo.email
      {
        NotificacaoSse(p, lat, lon, aqi, agora, rp[j]);
        var i :| 0 <= i < |p| && Elegivel(p[i], lat, lon, aqi, agora) && rp[j] == AlertaPara(p[i], lat, lon, aqi);
        assert p[i] == s[i];
      }
    }
  }

  /** Below the threshold nobody is notified. */
  lemma {:induction false} SemAlertaAbaixoDoLimite(s: seq<Inscrito>, lat: string, lon: string, aqi: int, agora: int)
    requires aqi < LIMITE_ALERTA
    ensures Notificacoes(s, lat, lon, aqi, agora) == []
    ensures Atualizados(s, lat, lon, aqi, agora) == s
    decreases |s|
  {
    if s != [] {
      SemAlertaAbaixoDoLimite(s[..|s| - 1], lat, lon, aqi, agora);
    }
  }

  /**
   * Whatever happened to the table since (registrations, other fetches), a subscriber last alerted
   * at `t0` is neither changed nor notified by any fetch (any coordinate, any index) at most six
   * hours after `t0`.
   */
  lemma DentroDoIntervalo(s: seq<Inscrito>, lat: string, lon: string, aqi: int, agora: int, i: nat, t0: int)
    requires EmailsUnicos(s)
    requires i < |s| && s[i].ultimoAlerta == Some(t0)
    requires agora - t0 <= SEIS_HORAS
    ensures Atualizados(s, lat, lon, aqi, agora)[i] == s[i]
    ensures forall a :: a in Notificacoes(s, lat, lon, aqi, agora) ==> a.destinatario != s[i].email
  {
    forall a | a in Notificacoes(s, lat, lon, aqi, agora)
      ensures a.destinatario != s[i].email
    {
      NotificacaoSse(s, lat, lon, aqi, agora, a);
      var k :| 0 <= k < |s| && Elegivel(s[k], lat, lon, aqi, agora) && a == AlertaPara(s[k], lat, lon, aqi);
      assert k != i;
    }
  }

  /**
   * A subscriber alerted by one fetch is neither changed nor notified by the next fetch
   * (any coordinate, any index) within six hours of it.
   */
  lemma IntervaloDeSeisHoras(s: seq<Inscrito>, lat: string, lon: string, aqi: int, agora: int,
                             lat2: string, lon2: string, aqi2: int, agora2: int, i: nat)
    requires EmailsUnicos(s)
    requires i < |s| && Elegivel(s[i], lat, lon, aqi, agora)
    requires agora2 - agora <= SEIS_HORAS
    ensures var s1 := Atualizados(s, lat, lon, aqi, agora);
            Atualizados(s1, lat2, lon2, aqi2, agora2)[i] == s1[i] &&
            forall a :: a in Notificacoes(s1, lat2, lon2, aqi2, agora2) ==> a.destinatario != s[i].email
  {
    var s1 := Atualizados(s, lat, lon, aqi, agora);
    assert EmailsUnicos(s1);
    DentroDoIntervalo(s1, lat2, lon2, aqi2, agora2, i, agora);
  }

  /** More than six hours after an alert, the next qualifying fetch at that coordinate alerts the subscriber again. */
  lemma NovoAlertaAposSeisHoras(s: seq<Inscrito>, lat: string, lon: string, aqi: int, agora: int,
                                aqi2: int, agora2: int, i: nat)
    requires i < |s| && Elegivel(s[i], lat, lon, aqi, agora)
    requires aqi2 >= LIMITE_ALERTA && agora2 - agora > SEIS_HORAS
    ensures var s1 := Atualizados(s, lat, lon, aqi, agora);
            Atualizados(s1, lat, lon, aqi2, agora2)[i].ultimoAlerta == Some(agora2) &&
            AlertaPara(s1[i], lat, lon, aqi2) in Notificacoes(s1, lat, lon, aqi2, agora2)
  {
    var s1 := Atualizados(s, lat, lon, aqi, agora);
    NotificacaoSse(s1, lat, lon, aqi2, agora2, AlertaPara(s1[i], lat, lon, aqi2));
  }

  /** `ultimoAlerta` is moved to `agora` exactly for the subscribers that are sent a notification. */
  lemma AtualizadoSseNotificado(s: seq<Inscrito>, lat: string, lon: string, aqi: int, agora: int, i: nat)
    requires EmailsUnicos(s)
    requires i < |s|
    ensures Atualizados(s, lat, lon, aqi, agora)[i] != s[i] <==>
            AlertaPara(s[i], lat, lon, aqi) in Notificacoes(s, lat, lon, aqi, agora)
  {
    NotificacaoSse(s, lat, lon, aqi, agora, AlertaPara(s[i], lat, lon, aqi));
    if AlertaPara(s[i], lat, lon, aqi) in Notificacoes(s, lat, lon, aqi, agora) {
      var k :| 0 <= k < |s| && Elegivel(s[k], lat, lon, aqi, agora) && AlertaPara(s[i], lat, lon, aqi) == AlertaPara(s[k], lat, lon, aqi);
      assert s[k].email == s[i].email;
    }
  }
}
