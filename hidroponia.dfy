/**
 * The in-memory domain entities of the hydroponics system (the dataclasses of
 * the models package). A datetime is an `Instante`, a point on an ordered time
 * line; a Decimal is a `real`, which is exact.
 */
module Hidroponia {
  import opened Wrappers

  /** A timezone-aware datetime, as a point on the time line. */
  type Instante = int

  /** `tipo` is one of pH, EC, temperatura, nível, luminosidade, but the code never checks it. */
  datatype Sensor = Sensor(
    id: string,
    tipo: string,
    unidade: string,
    modelo: Option<string>,
    localizacao: Option<string>)

  /** `sensorId` refers to a `Sensor.id`; nothing guarantees that such a sensor exists. */
  datatype Leitura = Leitura(
    sensorId: string,
    dataHora: Instante,
    valor: real,
    unidade: Option<string>)

  datatype ComandoAtuador = ComandoAtuador(dataHora: Instante, acao: string)

  datatype Atuador = Atuador(id: string, tipo: string, comandos: seq<ComandoAtuador>)

  datatype MetaSistema = MetaSistema(nome: string, local: string, versao: Option<string>)

  datatype SistemaHidroponico = SistemaHidroponico(
    id: string,
    meta: MetaSistema,
    sensores: seq<Sensor>,
    leituras: seq<Leitura>,
    atuadores: seq<Atuador>)

  /** The key of the `{s.id: s for s in sistema.sensores}` dictionaries. */
  function SensorId(s: Sensor): string { s.id }
}
