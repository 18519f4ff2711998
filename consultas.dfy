/** The two read-only queries over the history table: the listing and the three-hour trend. */
module Consultas {
  import opened Tipos

  /** `order_by(HistoricoAQI.timestamp.asc())` or `.desc()`. */
  datatype Ordem = Crescente | Decrescente

  predicate Antes(a: HistoricoAQI, b: HistoricoAQI, ordem: Ordem)
  {
    match ordem
    case Crescente => a.timestamp <= b.timestamp
    case Decrescente => a.timestamp >= b.timestamp
  }

  ghost predicate Ordenado(s: seq<HistoricoAQI>, ordem: Ordem)
  {
    forall i, j :: 0 <= i < j < |s| ==> Antes(s[i], s[j], ordem)
  }

  /** Prepending a record that comes before every element keeps a sequence ordered. */
  lemma OrdenadoComCabeca(a: HistoricoAQI, resto: seq<HistoricoAQI>, ordem: Ordem)
    requires Ordenado(resto, ordem)
    requires forall k :: 0 <= k < |resto| ==> Antes(a, resto[k], ordem)
    ensures Ordenado([a] + resto, ordem)
  {
    var r := [a] + resto;
    forall i, j | 0 <= i < j < |r|
      ensures Antes(r[i], r[j], ordem)
    {
      if i > 0 {
        assert r[i] == resto[i - 1] && r[j] == resto[j - 1];
      } else {
        assert r[j] == resto[j - 1];
      }
    }
  }

  /** The head of an ordered `s`, which `x` does not precede, precedes `x` and everything after it. */
  lemma CabecaAntesDoResto(x: HistoricoAQI, s: seq<HistoricoAQI>, resto: seq<HistoricoAQI>, ordem: Ordem)
    requires |s| > 0 && Ordenado(s, ordem) && !Antes(x, s[0], ordem)
    requires multiset(resto) == multiset(s[1..]) + multiset{x}
    ensures forall k :: 0 <= k < |resto| ==> Antes(s[0], resto[k], ordem)
  {
    forall k | 0 <= k < |resto|
      ensures Antes(s[0], resto[k], ordem)
    {
      assert resto[k] in multiset(resto);
      if resto[k] != x {
        assert resto[k] in multiset(s[1..]);
        var j :| 0 <= j < |s[1..]| && s[1..][j] == resto[k];
        assert s[j + 1] == resto[k];
      }
    }
  }

  function Inserir(x: HistoricoAQI, s: seq<HistoricoAQI>, ordem: Ordem): (r: seq<HistoricoAQI>)
    requires Ordenado(s, ordem)
    ensures Ordenado(r, ordem)
    ensures multiset(r) == multiset(s) + multiset{x}
  {
    if s == [] || Antes(x, s[0], ordem) then
      OrdenadoComCabeca(x, s, ordem);
      [x] + s
    else
      var resto := Inserir(x, s[1..], ordem);
      assert s == [s[0]] + s[1..];
      CabecaAntesDoResto(x, s, resto, ordem);
      OrdenadoComCabeca(s[0], resto, ordem);
      [s[0]] + resto
  }

  /**
   * The store's ordering of a set of rows by timestamp. Rows with equal timestamps may come out
   * in any order; nothing below depends on which.
   */
  function Ordenar(s: seq<HistoricoAQI>, ordem: Ordem): (r: seq<HistoricoAQI>)
    ensures Ordenado(r, ordem)
    ensures multiset(r) == multiset(s)
  {
    if s == [] then []
    else
      assert s == [s[0]] + s[1..];
      Inserir(s[0], Ordenar(s[1..], ordem), ordem)
  }

  /** `get_historico`: every stored record, newest first. */
  function Historico(h: seq<HistoricoAQI>): (r: seq<HistoricoAQI>)
    ensures forall i, j :: 0 <= i < j < |r| ==> r[i].timestamp >= r[j].timestamp
    ensures multiset(r) == multiset(h)
    ensures |r| == |h|
  {
    var r := Ordenar(h, Decrescente);
    assert |multiset(r)| == |multiset(h)|;
    r
  }

  /** The trend filter: exact string match on both coordinates and timestamp within the last three hours (inclusive). */
  predicate NaJanela(r: HistoricoAQI, lat: string, lon: string, agora: int)
  {
    r.latitude == lat && r.longitude == lon && r.timestamp >= agora - TRES_HORAS
  }

  function Janela(h: seq<HistoricoAQI>, lat: string, lon: string, agora: int): (w: seq<HistoricoAQI>)
    ensures forall r :: multiset(w)[r] == if NaJanela(r, lat, lon, agora) then multiset(h)[r] else 0
    ensures forall r :: r in w ==> NaJanela(r, lat, lon, agora)
  {
    if h == [] then []
    else
      assert h == [h[0]] + h[1..];
      (if NaJanela(h[0], lat, lon, agora) then [h[0]] else []) + Janela(h[1..], lat, lon, agora)
  }

  datatype Tendencia = DadosInsuficientes | Piorando | Melhorando | Estavel

  /** The text the service reports for each trend. */
  function Rotulo(t: Tendencia): string
  {
    match t
    case DadosInsuficientes => "Dados insuficientes para análise"
    case Piorando => "Piorando"
    case Melhorando => "Melhorando"
    case Estavel => "Estável"
  }

  /** Each trend is reported with its own text. */
  lemma RotulosDistintos(t1: Tendencia, t2: Tendencia)
    requires t1 != t2
    ensures Rotulo(t1) != Rotulo(t2)
  {
  }

  /** The response of `get_tendencia`. */
  datatype RelatorioTendencia = RelatorioTendencia(
    latitude: string,
    longitude: string,
    periodoAnalisadoHoras: nat,
    registrosEncontrados: nat,
    tendencia: Tendencia)

  /** A later index means worse air; the three verdicts split every pair of indices. */
  function Comparar(primeiro: int, ultimo: int): (t: Tendencia)
    ensures t != DadosInsuficientes
    ensures t == Piorando <==> ultimo > primeiro
    ensures t == Melhorando <==> ultimo < primeiro
    ensures t == Estavel <==> ultimo == primeiro
  {
    if ultimo > primeiro then Piorando
    else if ultimo < primeiro then Melhorando
    else Estavel
  }

  /** The rule applied to the window once it is in time order. */
  function TendenciaDe(ordenados: seq<HistoricoAQI>): (t: Tendencia)
    ensures t == DadosInsuficientes <==> |ordenados| < 2
  {
    if |ordenados| < 2 then DadosInsuficientes
    else Comparar(ordenados[0].indiceAqi, ordenados[|ordenados| - 1].indiceAqi)
  }

  function AnalisarTendencia(h: seq<HistoricoAQI>, lat: string, lon: string, agora: int): (r: RelatorioTendencia)
    ensures r.latitude == lat && r.longitude == lon && r.periodoAnalisadoHoras == 3
    ensures r.registrosEncontrados == |Janela(h, lat, lon, agora)|
    ensures r.tendencia == DadosInsuficientes <==> |Janela(h, lat, lon, agora)| < 2
  {
    var janela := Janela(h, lat, lon, agora);
    var ordenados := Ordenar(janela, Crescente);
    assert |multiset(ordenados)| == |multiset(janela)|;
    RelatorioTendencia(lat, lon, 3, |janela|, TendenciaDe(ordenados))
  }

  ghost predicate MaisAntigo(p: HistoricoAQI, w: seq<HistoricoAQI>)
  {
    p in w && forall q :: q in w ==> p.timestamp <= q.timestamp
  }

  ghost predicate MaisRecente(u: HistoricoAQI, w: seq<HistoricoAQI>)
  {
    u in w && forall q :: q in w ==> q.timestamp <= u.timestamp
  }

  /** The ends of a chronologically ordered copy of `w` are an earliest and a latest record of `w`. */
  lemma PontasDoOrdenado(o: seq<HistoricoAQI>, w: seq<HistoricoAQI>)
    requires Ordenado(o, Crescente) && multiset(o) == multiset(w) && |o| > 0
    ensures MaisAntigo(o[0], w) && MaisRecente(o[|o| - 1], w)
  {
    assert o[0] in multiset(o) && o[|o| - 1] in multiset(o);
    forall q | q in w
      ensures o[0].timestamp <= q.timestamp <= o[|o| - 1].timestamp
    {
      assert q in multiset(o);
      var k :| 0 <= k < |o| && o[k] == q;
      if 0 < k {
        assert Antes(o[0], o[k], Crescente);
      }
      if k < |o| - 1 {
        assert Antes(o[k], o[|o| - 1], Crescente);
      }
    }
  }

  /** What the trend rule says of a chronologically ordered window. */
  ghost predicate ComparaPontas(t: Tendencia, w: seq<HistoricoAQI>)
  {
    exists p, u :: MaisAntigo(p, w) && MaisRecente(u, w) && multiset{p, u} <= multiset(w) &&
      (t == Piorando <==> u.indiceAqi > p.indiceAqi) &&
      (t == Melhorando <==> u.indiceAqi < p.indiceAqi) &&
      (t == Estavel <==> u.indiceAqi == p.indiceAqi)
  }

  /** The first and last of a sequence of two or more are two distinct rows of it. */
  lemma PontasDistintas(o: seq<HistoricoAQI>)
    requires |o| >= 2
    ensures multiset{o[0], o[|o| - 1]} <= multiset(o)
  {
    assert o == [o[0]] + o[1..|o| - 1] + [o[|o| - 1]];
  }

  lemma CompararPontas(o: seq<HistoricoAQI>, w: seq<HistoricoAQI>)
    requires Ordenado(o, Crescente) && multiset(o) == multiset(w) && |o| >= 2
    ensures ComparaPontas(TendenciaDe(o), w)
  {
    PontasDoOrdenado(o, w);
    PontasDistintas(o);
    var p, u := o[0], o[|o| - 1];
    var t := Comparar(p.indiceAqi, u.indiceAqi);
    assert MaisAntigo(p, w) && MaisRecente(u, w) && multiset{p, u} <= multiset(w) &&
           (t == Piorando <==> u.indiceAqi > p.indiceAqi) &&
           (t == Melhorando <==> u.indiceAqi < p.indiceAqi) &&
           (t == Estavel <==> u.indiceAqi == p.indiceAqi);
  }

  /**
   * With at least two records in the window, the trend compares the index of an earliest record
   * with that of a latest one: worse, better or equal.
   */
  lemma TendenciaCompara(h: seq<HistoricoAQI>, lat: string, lon: string, agora: int)
    requires |Janela(h, lat, lon, agora)| >= 2
    ensures ComparaPontas(AnalisarTendencia(h, lat, lon, agora).tendencia, Janela(h, lat, lon, agora))
  {
    var w := Janela(h, lat, lon, agora);
    var o := Ordenar(w, Crescente);
    assert |multiset(o)| == |multiset(w)|;
    CompararPontas(o, w);
  }

  /** Of two readings at different times, the older is the only earliest and the newer the only latest. */
  lemma PontasDeDuas(t: Tendencia, x: HistoricoAQI, y: HistoricoAQI)
    requires x.timestamp < y.timestamp && ComparaPontas(t, [x, y])
    ensures t == (if y.indiceAqi > x.indiceAqi then Piorando
                  else if y.indiceAqi < x.indiceAqi then Melhorando
                  else Estavel)
  {
    var w := [x, y];
    var p, u :| MaisAntigo(p, w) && MaisRecente(u, w) && multiset{p, u} <= multiset(w) &&
      (t == Piorando <==> u.indiceAqi > p.indiceAqi) &&
      (t == Melhorando <==> u.indiceAqi < p.indiceAqi) &&
      (t == Estavel <==> u.indiceAqi == p.indiceAqi);
    assert x in w && y in w;
    assert p == x && u == y;
  }

  /**
   * Two readings with the same timestamp and different indices: the store may list either first,
   * but the first and last rows are distinct, so the verdict is never "Estável".
   */
  lemma EmpateNaoEstavel(t: Tendencia, x: HistoricoAQI, y: HistoricoAQI)
    requires x.timestamp == y.timestamp && x.indiceAqi != y.indiceAqi && ComparaPontas(t, [x, y])
    ensures t == Piorando || t == Melhorando
  {
    var w := [x, y];
    var p, u :| MaisAntigo(p, w) && MaisRecente(u, w) && multiset{p, u} <= multiset(w) &&
      (t == Piorando <==> u.indiceAqi > p.indiceAqi) &&
      (t == Melhorando <==> u.indiceAqi < p.indiceAqi) &&
      (t == Estavel <==> u.indiceAqi == p.indiceAqi);
    assert p in w && u in w;
  }

  /** A window of two readings, the older with index `x` and the newer with `y`: the trend is decided by them alone. */
  lemma TendenciaDeDuasLeituras(h: seq<HistoricoAQI>, lat: string, lon: string, agora: int, x: HistoricoAQI, y: HistoricoAQI)
    requires Janela(h, lat, lon, agora) == [x, y] && x.timestamp < y.timestamp
    ensures var r := AnalisarTendencia(h, lat, lon, agora);
            r.registrosEncontrados == 2 &&
            r.tendencia == (if y.indiceAqi > x.indiceAqi then Piorando
                            else if y.indiceAqi < x.indiceAqi then Melhorando
                            else Estavel)
  {
    TendenciaCompara(h, lat, lon, agora);
    PontasDeDuas(AnalisarTendencia(h, lat, lon, agora).tendencia, x, y);
  }

  /** A window of two readings stored in the same second with different indices is never "Estável". */
  lemma TendenciaDeEmpate(h: seq<HistoricoAQI>, lat: string, lon: string, agora: int, x: HistoricoAQI, y: HistoricoAQI)
    requires Janela(h, lat, lon, agora) == [x, y]
    requires x.timestamp == y.timestamp && x.indiceAqi != y.indiceAqi
    ensures var t := AnalisarTendencia(h, lat, lon, agora).tendencia; t == Piorando || t == Melhorando
  {
    TendenciaCompara(h, lat, lon, agora);
    EmpateNaoEstavel(AnalisarTendencia(h, lat, lon, agora).tendencia, x, y);
  }
}
