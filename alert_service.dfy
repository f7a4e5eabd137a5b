/**
 * The range/alert classifier: a reading is judged against a fixed table of
 * ideal [min, max] ranges per sensor type, both ends included.
 */
module AlertService {
  import opened Wrappers
  import opened Hidroponia

  /** FAIXAS: the ideal range of each known sensor type. */
  const Faixas: map<string, (real, real)> := map[
    "pH" := (4.5, 7.5),
    "EC" := (0.5, 3.0),
    "temperatura" := (10.0, 35.0),
    "nível" := (0.0, 100.0),
    "luminosidade" := (0.0, 200000.0)
  ]

  datatype Status = Desconhecido | CriticoBaixo | CriticoAlto | Ok

  /** The status string reported to clients. */
  function Rotulo(s: Status): string
  {
    match s
    case Desconhecido => "desconhecido"
    case CriticoBaixo => "critico-baixo"
    case CriticoAlto => "critico-alto"
    case Ok => "ok"
  }

  /**
   * The alert message, kept as the three things it names: the sensor type, the
   * value and the violated bound ("<tipo> abaixo do ideal (<valor> < <minimo>)",
   * "<tipo> acima do ideal (<valor> > <maximo>)").
   */
  datatype Alerta =
    | AbaixoDoIdeal(tipo: string, valor: real, minimo: real)
    | AcimaDoIdeal(tipo: string, valor: real, maximo: real)

  datatype Avaliacao = Avaliacao(status: Status, alerta: Option<Alerta>)

  /** avaliar_leitura: classifies a reading by its sensor's type. */
  function AvaliarLeitura(sensor: Sensor, leitura: Leitura): (r: Avaliacao)
    ensures r.status == Desconhecido <==> sensor.tipo !in Faixas
    ensures r.status == CriticoBaixo <==>
      sensor.tipo in Faixas && leitura.valor < Faixas[sensor.tipo].0
    ensures r.status == CriticoAlto <==>
      sensor.tipo in Faixas && leitura.valor > Faixas[sensor.tipo].1
    ensures r.status == Ok <==>
      sensor.tipo in Faixas && Faixas[sensor.tipo].0 <= leitura.valor <= Faixas[sensor.tipo].1
    ensures r.alerta.Some? <==> r.status == CriticoBaixo || r.status == CriticoAlto
    ensures r.status == CriticoBaixo ==>
      r.alerta == Some(AbaixoDoIdeal(sensor.tipo, leitura.valor, Faixas[sensor.tipo].0))
    ensures r.status == CriticoAlto ==>
      r.alerta == Some(AcimaDoIdeal(sensor.tipo, leitura.valor, Faixas[sensor.tipo].1))
  {
    if sensor.tipo !in Faixas then Avaliacao(Desconhecido, None)
    else
      var (minimo, maximo) := Faixas[sensor.tipo];
      if leitura.valor < minimo then
        Avaliacao(CriticoBaixo, Some(AbaixoDoIdeal(sensor.tipo, leitura.valor, minimo)))
      else if leitura.valor > maximo then
        Avaliacao(CriticoAlto, Some(AcimaDoIdeal(sensor.tipo, leitura.valor, maximo)))
      else
        Avaliacao(Ok, None)
  }

  /** Every range of the table is non-empty: its minimum lies below its maximum. */
  lemma FaixasBemFormadas(tipo: string)
    requires tipo in Faixas
    ensures Faixas[tipo].0 < Faixas[tipo].1
  {
  }

  /** A value exactly on either bound is in range: the bounds are inclusive. */
  lemma LimitesInclusivos(sensor: Sensor, leitura: Leitura)
    requires sensor.tipo in Faixas
    requires leitura.valor == Faixas[sensor.tipo].0 || leitura.valor == Faixas[sensor.tipo].1
    ensures AvaliarLeitura(sensor, leitura) == Avaliacao(Ok, None)
  {
  }

  /** The classification looks at nothing but the sensor's type and the reading's value. */
  lemma SoTipoEValor(s1: Sensor, l1: Leitura, s2: Sensor, l2: Leitura)
    requires s1.tipo == s2.tipo && l1.valor == l2.valor
    ensures AvaliarLeitura(s1, l1) == AvaliarLeitura(s2, l2)
  {
  }
}
