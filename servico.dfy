/** The service's store (the two tables) and its two state-changing endpoints. */
module Servico {
  import opened Tipos
  import Classificador
  import opened Cadastro
  import opened Alertas

  const MSG_INCOMPLETO := "Dados incompletos (email, latitude, longitude são obrigatórios)"
  const MSG_JA_REGISTRADO := "Este e-mail já está registrado."
  const MSG_SUCESSO := "Usuário registrado com sucesso para receber alertas!"
  const AVISO := "Dados em tempo real. Registro salvo no histórico."
  const PREFIXO_ERRO := "Ocorreu um erro: "

  /** The JSON reply of `registrar` with its HTTP status: an `erro` or a `mensagem` body. */
  datatype RespostaRegistro = Erro(status: nat, erro: string) | Mensagem(status: nat, mensagem: string)

  /** What the external provider gave: a failure (network, HTTP status, payload) or the extracted index. */
  datatype Consulta = Falhou(motivo: string) | Obtida(aqi: int)

  /** The JSON reply of `get_alerta_ar`: a 200 reading or a 500 error. */
  datatype RespostaAlerta =
    | Leitura(aviso: string, indiceQualidadeAr: int, risco: string, recomendacao: string)
    | Falha(erro: string)
  {
    function Status(): nat
    {
      if Leitura? then 200 else 500
    }
  }

  class Banco {
    var historico: seq<HistoricoAQI>
    var inscritos: seq<Inscrito>
    /** The next identifiers the store will assign (auto-increment). */
    var proximoIdHistorico: nat
    var proximoIdInscrito: nat

    /** Unique emails, and identifiers assigned in increasing order below the next one. */
    ghost predicate Valid()
      reads this
    {
      TabelaInscritos(inscritos, proximoIdInscrito) && TabelaHistorico(historico, proximoIdHistorico)
    }

    /** A freshly created database: both tables empty. */
    constructor ()
      ensures Valid()
      ensures historico == [] && inscritos == []
      ensures proximoIdHistorico == 1 && proximoIdInscrito == 1
    {
      historico, inscritos := [], [];
      proximoIdHistorico, proximoIdInscrito := 1, 1;
    }

    /** `POST /registrar`: validate, ignore a known email, or append one subscriber. */
    method Registrar(email: Option<string>, lat: Campo, lon: Campo) returns (resposta: RespostaRegistro)
      requires Valid()
      modifies this
      ensures Valid()
      ensures historico == old(historico) && proximoIdHistorico == old(proximoIdHistorico)
      ensures !CamposCompletos(email, lat, lon) ==>
                resposta == Erro(400, MSG_INCOMPLETO) &&
                inscritos == old(inscritos) && proximoIdInscrito == old(proximoIdInscrito)
      ensures CamposCompletos(email, lat, lon) && EmailRegistrado(old(inscritos), email.value) ==>
                resposta == Mensagem(200, MSG_JA_REGISTRADO) &&
                inscritos == old(inscritos) && proximoIdInscrito == old(proximoIdInscrito)
      ensures CamposCompletos(email, lat, lon) && !EmailRegistrado(old(inscritos), email.value) ==>
                resposta == Mensagem(201, MSG_SUCESSO) &&
                inscritos == old(inscritos) + [Inscrito(old(proximoIdInscrito), email.value, Str(lat), Str(lon), None)] &&
                proximoIdInscrito == old(proximoIdInscrito) + 1
    {
      if !CamposCompletos(email, lat, lon) {
        return Erro(400, MSG_INCOMPLETO);
      }
      if EmailRegistrado(inscritos, email.value) {
        return Mensagem(200, MSG_JA_REGISTRADO);
      }
      var novo := Inscrito(proximoIdInscrito, email.value, Str(lat), Str(lon), None);
      forall i | 0 <= i < |inscritos|
        ensures inscritos[i].email != novo.email
      {
        assert inscritos[i] in inscritos;
      }
      inscritos := inscritos + [novo];
      proximoIdInscrito := proximoIdInscrito + 1;
      return Mensagem(201, MSG_SUCESSO);
    }

    /**
     * The fan-out loop: visit the subscribers in table order; each one at the request's exact
     * coordinate and outside the six-hour interval is handed to the mailer and stamped with `agora`.
     */
    method Difundir(lat: string, lon: string, aqi: int, agora: int) returns (enviados: seq<Alerta>)
      requires Valid()
      requires aqi >= LIMITE_ALERTA
      modifies this`inscritos
      ensures Valid()
      ensures inscritos == Atualizados(old(inscritos), lat, lon, aqi, agora)
      ensures enviados == Notificacoes(old(inscritos), lat, lon, aqi, agora)
    {
      enviados := [];
      ghost var antes := inscritos;
      var i := 0;
      while i < |inscritos|
        invariant 0 <= i <= |inscritos| == |antes|
        invariant forall k :: 0 <= k < i ==> inscritos[k] == Atualizar(antes[k], lat, lon, aqi, agora)
        invariant forall k :: i <= k < |inscritos| ==> inscritos[k] == antes[k]
        invariant enviados == Notificacoes(antes[..i], lat, lon, aqi, agora)
      {
        var inscrito := inscritos[i];
        NotificacoesPasso(antes, i, lat, lon, aqi, agora);
        if NaArea(inscrito, lat, lon) && ForaDoIntervalo(inscrito, agora) {
          enviados := enviados + [AlertaPara(inscrito, lat, lon, aqi)];
          inscritos := inscritos[i := inscrito.(ultimoAlerta := Some(agora))];
        }
        i := i + 1;
      }
      assert antes[..i] == antes;
      assert inscritos == Atualizados(antes, lat, lon, aqi, agora);
      AtualizadosPreservaTabela(antes, proximoIdInscrito, lat, lon, aqi, agora);
    }

    /**
     * `GET /alerta-ar/<lat>/<lon>` after the provider call: record the reading, then, for an index at
     * or above the threshold, alert every subscriber at that exact coordinate who is outside the
     * six-hour interval and stamp it with `agora`. `enviados` are the alerts handed to the mailer;
     * a failed send changes nothing, so it is not distinguished.
     */
    method AlertaAr(lat: string, lon: string, consulta: Consulta, agora: int)
      returns (resposta: RespostaAlerta, enviados: seq<Alerta>)
      requires Valid()
      modifies this
      ensures Valid()
      ensures proximoIdInscrito == old(proximoIdInscrito)
      ensures consulta.Falhou? ==>
                resposta == Falha(PREFIXO_ERRO + consulta.motivo) && enviados == [] &&
                historico == old(historico) && proximoIdHistorico == old(proximoIdHistorico) &&
                inscritos == old(inscritos)
      ensures consulta.Obtida? ==>
                var info := Classificador.Interpretar(consulta.aqi);
                resposta == Leitura(AVISO, consulta.aqi, info.risco, info.recomendacao) &&
                historico == old(historico) + [HistoricoAQI(old(proximoIdHistorico), agora, lat, lon, consulta.aqi, info.risco)] &&
                proximoIdHistorico == old(proximoIdHistorico) + 1 &&
                inscritos == Atualizados(old(inscritos), lat, lon, consulta.aqi, agora) &&
                enviados == Notificacoes(old(inscritos), lat, lon, consulta.aqi, agora)
    {
      if consulta.Falhou? {
        return Falha(PREFIXO_ERRO + consulta.motivo), [];
      }
      var aqi := consulta.aqi;
      var info := Classificador.Interpretar(aqi);
      historico := historico + [HistoricoAQI(proximoIdHistorico, agora, lat, lon, aqi, info.risco)];
      proximoIdHistorico := proximoIdHistorico + 1;
      if aqi >= LIMITE_ALERTA {
        enviados := Difundir(lat, lon, aqi, agora);
      } else {
        SemAlertaAbaixoDoLimite(inscritos, lat, lon, aqi, agora);
        enviados := [];
      }
      resposta := Leitura(AVISO, aqi, info.risco, info.recomendacao);
    }
  }
}
