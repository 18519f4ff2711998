/** The AQI classifier (`interpretar_aqi`): a total map from an index to a risk label and advice. */
module Classificador {
  import opened Tipos

  datatype Interpretacao = Interpretacao(risco: string, recomendacao: string)

  const DESCONHECIDO := Interpretacao("Desconhecido", "Índice AQI inválido ou indisponível.")

  /** The five known levels, mildest first. */
  const NIVEIS: seq<Interpretacao> := [
    Interpretacao("Bom", "Qualidade do ar excelente. Ótimo para atividades ao ar livre."),
    Interpretacao("Razoável", "Qualidade do ar aceitável. Pessoas muito sensíveis podem sentir algum desconforto."),
    Interpretacao("Moderado", "Membros de grupos sensíveis podem ter efeitos na saúde. Limite a exposição prolongada."),
    Interpretacao("Ruim", "Qualquer pessoa pode começar a sentir efeitos na saúde. Reduza atividades ao ar livre."),
    Interpretacao("Muito Ruim", "Alerta de saúde. Evite qualquer esforço ao ar livre.")
  ]

  /** Total over all integers: 1..5 pick their level, everything else is "Desconhecido". */
  function Interpretar(aqi: int): (r: Interpretacao)
    ensures 1 <= aqi <= 5 ==> r == NIVEIS[aqi - 1]
    ensures r == DESCONHECIDO <==> aqi < 1 || aqi > 5
  {
    if aqi == 1 then NIVEIS[0]
    else if aqi == 2 then NIVEIS[1]
    else if aqi == 3 then NIVEIS[2]
    else if aqi == 4 then NIVEIS[3]
    else if aqi == 5 then NIVEIS[4]
    else DESCONHECIDO
  }

  /** Reads a risk label back to the index it names, if it names one. */
  function IndiceDoRisco(risco: string): (r: Option<int>)
    ensures r.Some? ==> 1 <= r.value <= 5 && NIVEIS[r.value - 1].risco == risco
  {
    if risco == NIVEIS[0].risco then Some(1)
    else if risco == NIVEIS[1].risco then Some(2)
    else if risco == NIVEIS[2].risco then Some(3)
    else if risco == NIVEIS[3].risco then Some(4)
    else if risco == NIVEIS[4].risco then Some(5)
    else None
  }

  /** The risk label alone determines a valid index: labels of 1..5 are pairwise distinct. */
  lemma RiscoDeterminaIndice(aqi: int)
    ensures IndiceDoRisco(Interpretar(aqi).risco) == if 1 <= aqi <= 5 then Some(aqi) else None
  {
  }

  lemma NiveisDistintos(a: int, b: int)
    requires 1 <= a <= 5 && 1 <= b <= 5 && a != b
    ensures Interpretar(a).risco != Interpretar(b).risco
    ensures Interpretar(a).recomendacao != Interpretar(b).recomendacao
  {
  }
}
