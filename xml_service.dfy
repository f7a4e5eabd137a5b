/**
 * The XML-backed store of the hydroponics system. The persisted XML document is
 * modelled as a `Documento` record: the `sensores` and `leituras` collections and
 * the optional `atuadores` element. Every operation loads the document (checking
 * it against the schema), changes a copy, and writes the copy back only if that
 * copy passes the schema.
 */
module XmlService {
  import opened Wrappers
  import opened Sequences
  import AlertService
  import Hidroponia

  /** FAIXAS: the ideal range of each known sensor type, used by the alerts and the simulation. */
  const Faixas: map<string, (real, real)> := map[
    "pH" := (4.5, 7.5),
    "EC" := (0.5, 3.0),
    "temperatura" := (10.0, 35.0),
    "nível" := (0.0, 100.0),
    "luminosidade" := (0.0, 200000.0)
  ]

  /** UNIDADES_POR_TIPO: the unit a new sensor of a known type gets. */
  const UnidadesPorTipo: map<string, string> := map[
    "pH" := "",
    "EC" := "mS/cm",
    "temperatura" := "°C",
    "nível" := "%",
    "luminosidade" := "lux"
  ]

  // ---------------------------------------------------------------------
  // The document
  // ---------------------------------------------------------------------

  /** A <sensor id=...> element with its tipo, unidade, modelo and localizacao texts. */
  datatype SensorEl = SensorEl(id: string, tipo: string, unidade: string, modelo: string, localizacao: string)

  /** A <leitura sensorRef=... [unidade=...]> element with its dataHora and valor texts. */
  datatype LeituraEl = LeituraEl(sensorRef: string, unidade: Option<string>, dataHora: string, valor: real)

  datatype UltimoComando = UltimoComando(dataHora: string, comando: string)

  /** An <atuador id=...> element with its tipo and optional ultimoComando. */
  datatype AtuadorEl = AtuadorEl(id: string, tipo: string, ultimoComando: Option<UltimoComando>)

  /** The document; `atuadores` is None when the <atuadores> element is absent. */
  datatype Documento = Documento(
    sensores: seq<SensorEl>,
    leituras: seq<LeituraEl>,
    atuadores: Option<seq<AtuadorEl>>)

  /** The exceptions the store raises: a schema violation, or a duplicate id (ValueError). */
  datatype Erro = XsdInvalido | SensorDuplicado | AtuadorDuplicado

  /** What the schema demands at least: a sensor and a reading (minOccurs 1). */
  ghost predicate MinOccurs(d: Documento)
  {
    |d.sensores| > 0 && |d.leituras| > 0
  }

  predicate TemSensor(sensores: seq<SensorEl>, id: string)
  {
    exists i :: 0 <= i < |sensores| && sensores[i].id == id
  }

  predicate TemAtuador(atuadores: seq<AtuadorEl>, id: string)
  {
    exists i :: 0 <= i < |atuadores| && atuadores[i].id == id
  }

  function SensorElId(s: SensorEl): string { s.id }

  /** `x or ""` on an optional request field. */
  function OrEmpty(o: Option<string>): string
  {
    if o.Some? then o.value else ""
  }

  /** UNIDADES_POR_TIPO.get(tipo, "") */
  function UnidadeAuto(tipo: string): string
  {
    if tipo in UnidadesPorTipo then UnidadesPorTipo[tipo] else ""
  }

  /** The minimal sensor that limpar_sensores leaves behind. */
  const Placeholder: SensorEl := SensorEl("sensor-placeholder", "pH", "", "", "")

  // ---------------------------------------------------------------------
  // Readings as listed
  // ---------------------------------------------------------------------

  /** A row of listar_leituras (and of simular_ciclo's result). */
  datatype LeituraVista = LeituraVista(
    sensorId: string,
    tipo: Option<string>,
    unidade: Option<string>,
    dataHora: string,
    valor: real)

  function DataHoraVista(v: LeituraVista): string { v.dataHora }

  /** The row for one reading; `m` is the id-to-sensor dictionary of the document. */
  function Vista(l: LeituraEl, m: map<string, SensorEl>): LeituraVista
  {
    LeituraVista(
      l.sensorRef,
      if l.sensorRef in m then Some(m[l.sensorRef].tipo) else None,
      l.unidade, l.dataHora, l.valor)
  }

  /** The rows of listar_leituras in document order, before sorting. */
  function Vistas(d: Documento): seq<LeituraVista>
  {
    var m := IdMap(d.sensores, SensorElId);
    seq(|d.leituras|, i requires 0 <= i < |d.leituras| => Vista(d.leituras[i], m))
  }

  /**
   * A row keeps its reading's reference, unit, time and value; its type is None
   * exactly when no sensor has the referenced id, and otherwise is the type of
   * the last sensor with that id.
   */
  lemma VistasTipo(d: Documento, i: nat)
    requires i < |d.leituras|
    ensures |Vistas(d)| == |d.leituras|
    ensures var v, l := Vistas(d)[i], d.leituras[i];
      v.sensorId == l.sensorRef && v.unidade == l.unidade && v.dataHora == l.dataHora && v.valor == l.valor
    ensures Vistas(d)[i].tipo.None? <==> !TemSensor(d.sensores, d.leituras[i].sensorRef)
    ensures Vistas(d)[i].tipo.Some? ==>
      exists j :: 0 <= j < |d.sensores| && d.sensores[j].id == d.leituras[i].sensorRef
                  && d.sensores[j].tipo == Vistas(d)[i].tipo.value
                  && (forall k :: j < k < |d.sensores| ==> d.sensores[k].id != d.leituras[i].sensorRef)
  {
    var ref := d.leituras[i].sensorRef;
    IdMapKeys(d.sensores, SensorElId, ref);
    if ref in IdMap(d.sensores, SensorElId) {
      IdMapLast(d.sensores, SensorElId, ref);
    }
  }

  // ---------------------------------------------------------------------
  // Alerts
  // ---------------------------------------------------------------------

  /**
   * The alert message, kept as the three things it names ("<tipo> abaixo da faixa
   * ideal (<valor> < <minimo>)", "<tipo> acima da faixa ideal (<valor> > <maximo>)").
   */
  datatype MensagemFaixa =
    | AbaixoDaFaixa(tipo: string, valor: real, minimo: real)
    | AcimaDaFaixa(tipo: string, valor: real, maximo: real)

  datatype AlertaXml = AlertaXml(sensorId: string, tipo: string, dataHora: string, valor: real, mensagem: MensagemFaixa)

  function DataHoraAlerta(a: AlertaXml): string { a.dataHora }

  /** The body of listar_alertas' loop for one row: None where it `continue`s. */
  function AlertaDaLeitura(m: map<string, SensorEl>, v: LeituraVista): Option<AlertaXml>
  {
    if v.sensorId !in m then None
    else
      var tipo := m[v.sensorId].tipo;
      if tipo !in Faixas then None
      else if v.valor < Faixas[tipo].0 then
        Some(AlertaXml(v.sensorId, tipo, v.dataHora, v.valor, AbaixoDaFaixa(tipo, v.valor, Faixas[tipo].0)))
      else if v.valor > Faixas[tipo].1 then
        Some(AlertaXml(v.sensorId, tipo, v.dataHora, v.valor, AcimaDaFaixa(tipo, v.valor, Faixas[tipo].1)))
      else None
  }

  /** The same, as one function value for every use. */
  function AlertaDe(m: map<string, SensorEl>): LeituraVista -> Option<AlertaXml>
  {
    v => AlertaDaLeitura(m, v)
  }

  /**
   * A row raises an alert exactly when its sensor exists, the sensor's type has a
   * range, and the value lies strictly outside it; the alert names the row's
   * sensor, time and value.
   */
  lemma AlertaDeExato(m: map<string, SensorEl>, v: LeituraVista)
    ensures AlertaDe(m)(v).Some? <==>
      v.sensorId in m && m[v.sensorId].tipo in Faixas &&
      (v.valor < Faixas[m[v.sensorId].tipo].0 || v.valor > Faixas[m[v.sensorId].tipo].1)
    ensures AlertaDe(m)(v).Some? ==>
      var a := AlertaDe(m)(v).value;
      a.sensorId == v.sensorId && a.tipo == m[v.sensorId].tipo && a.dataHora == v.dataHora && a.valor == v.valor
  {
  }

  /**
   * The final sort of listar_alertas changes nothing: the alerts come from the
   * listing, already most recent first, and keep their row's time.
   */
  lemma AlertasJaOrdenadas(d: Documento)
    ensures var alertas := FilterMap(SortDesc(Vistas(d), DataHoraVista), AlertaDe(IdMap(d.sensores, SensorElId)));
      SortDesc(alertas, DataHoraAlerta) == alertas
  {
    var m := IdMap(d.sensores, SensorElId);
    var ls := SortDesc(Vistas(d), DataHoraVista);
    SortDescSorted(Vistas(d), DataHoraVista);
    forall i | 0 <= i < |ls| && AlertaDe(m)(ls[i]).Some?
      ensures DataHoraAlerta(AlertaDe(m)(ls[i]).value) == DataHoraVista(ls[i])
    {
      AlertaDeExato(m, ls[i]);
    }
    FilterMapSortedDesc(ls, AlertaDe(m), DataHoraVista, DataHoraAlerta);
    SortDescOfSorted(FilterMap(ls, AlertaDe(m)), DataHoraAlerta);
  }

  /** The two copies of FAIXAS agree entry for entry. */
  lemma FaixasIguais()
    ensures Faixas == AlertService.Faixas
  {
  }

  /** listar_alertas raises an alert for a reading exactly when avaliar_leitura does. */
  lemma AlertaDeConcordaComAvaliacao(m: map<string, SensorEl>, v: LeituraVista,
                                     sensor: Hidroponia.Sensor, leitura: Hidroponia.Leitura)
    requires v.sensorId in m && sensor.tipo == m[v.sensorId].tipo && leitura.valor == v.valor
    ensures AlertaDe(m)(v).Some? <==> AlertService.AvaliarLeitura(sensor, leitura).alerta.Some?
  {
    FaixasIguais();
  }

  // ---------------------------------------------------------------------
  // Simulation
  // ---------------------------------------------------------------------

  /** The command a generated value drives: "ligar" below, "desligar" above a known range. */
  function Comando(tipo: string, valor: real): Option<string>
  {
    if tipo !in Faixas then None
    else if valor < Faixas[tipo].0 then Some("ligar")
    else if valor > Faixas[tipo].1 then Some("desligar")
    else None
  }

  /** A command is driven exactly by an out-of-range value of a known type, as avaliar_leitura sees it. */
  lemma ComandoConcordaComAvaliacao(sensor: Hidroponia.Sensor, leitura: Hidroponia.Leitura)
    ensures Comando(sensor.tipo, leitura.valor) == Some("ligar") <==>
      AlertService.AvaliarLeitura(sensor, leitura).status == AlertService.CriticoBaixo
    ensures Comando(sensor.tipo, leitura.valor) == Some("desligar") <==>
      AlertService.AvaliarLeitura(sensor, leitura).status == AlertService.CriticoAlto
    ensures Comando(sensor.tipo, leitura.valor).None? <==>
      AlertService.AvaliarLeitura(sensor, leitura).status in {AlertService.Desconhecido, AlertService.Ok}
  {
    FaixasIguais();
  }

  /** The command of the last of the first `n` sensors whose generated value drove one. */
  function UltimoComandoGerado(sensores: seq<SensorEl>, sorteio: nat -> real, n: nat): Option<string>
    requires n <= |sensores|
  {
    if n == 0 then None
    else if Comando(sensores[n - 1].tipo, sorteio(n - 1)).Some? then Comando(sensores[n - 1].tipo, sorteio(n - 1))
    else UltimoComandoGerado(sensores, sorteio, n - 1)
  }

  /**
   * No command is left when no sensor drove one; otherwise the command left is
   * the one driven by the last sensor that drove any.
   */
  lemma {:induction false} UltimoComandoGeradoExato(sensores: seq<SensorEl>, sorteio: nat -> real, n: nat)
    requires n <= |sensores|
    ensures UltimoComandoGerado(sensores, sorteio, n).None? <==>
      forall i :: 0 <= i < n ==> Comando(sensores[i].tipo, sorteio(i)).None?
    ensures UltimoComandoGerado(sensores, sorteio, n).Some? ==>
      exists i :: 0 <= i < n && Comando(sensores[i].tipo, sorteio(i)) == UltimoComandoGerado(sensores, sorteio, n)
                  && (forall j :: i < j < n ==> Comando(sensores[j].tipo, sorteio(j)).None?)
  {
    if n > 0 && Comando(sensores[n - 1].tipo, sorteio(n - 1)).None? {
      UltimoComandoGeradoExato(sensores, sorteio, n - 1);
    }
  }

  /** The <leitura> element a tick generates for a sensor: its unit only when non-empty. */
  function NovaLeituraEl(s: SensorEl, agora: string, valor: real): LeituraEl
  {
    LeituraEl(s.id, if s.unidade == "" then None else Some(s.unidade), agora, valor)
  }

  /** The row a tick returns for a sensor. */
  function NovaVista(s: SensorEl, agora: string, valor: real): LeituraVista
  {
    LeituraVista(s.id, Some(s.tipo), if s.unidade == "" then None else Some(s.unidade), agora, valor)
  }

  /** The actuators after a tick whose last driven command is `cmd`: only the first one changes. */
  function AtuadoresAposCiclo(atuadores: Option<seq<AtuadorEl>>, cmd: Option<string>, agora: string): Option<seq<AtuadorEl>>
  {
    match atuadores
    case None => None
    case Some(lista) =>
      if cmd.None? || |lista| == 0 then atuadores
      else Some([lista[0].(ultimoComando := Some(UltimoComando(agora, cmd.value)))] + lista[1..])
  }

  /**
   * A tick keeps the actuator collection's presence and length and never touches
   * an actuator but the first; the first gets the tick time and the last driven
   * command, and keeps its id and type.
   */
  lemma AtuadoresAposCicloExato(atuadores: Option<seq<AtuadorEl>>, cmd: Option<string>, agora: string)
    ensures AtuadoresAposCiclo(atuadores, cmd, agora).Some? == atuadores.Some?
    ensures atuadores.Some? ==>
      var antes, depois := atuadores.value, AtuadoresAposCiclo(atuadores, cmd, agora).value;
      |depois| == |antes|
      && (forall i :: 0 < i < |antes| ==> depois[i] == antes[i])
      && (|antes| > 0 ==> depois[0].id == antes[0].id && depois[0].tipo == antes[0].tipo)
      && (|antes| > 0 && cmd.Some? ==> depois[0].ultimoComando == Some(UltimoComando(agora, cmd.value)))
      && (cmd.None? ==> depois == antes)
  {
  }

  // ---------------------------------------------------------------------
  // The service
  // ---------------------------------------------------------------------

  class XmlStore {
    /** The compiled XSD: whether a document is schema-valid. */
    const schema: Documento -> bool
    /** The contents of the data file. */
    var arquivo: Documento

    /** The schema demands at least one sensor and one reading. */
    ghost predicate Valid()
    {
      forall d :: schema(d) ==> MinOccurs(d)
    }

    /** `_save_tree`'s effect on the file for a candidate `novo`, with result `r`. */
    ghost predicate Commit(antes: Documento, depois: Documento, novo: Documento, r: Outcome<Erro>)
    {
      && (schema(novo) ==> r == Pass && depois == novo)
      && (!schema(novo) ==> r == Fail(XsdInvalido) && depois == antes)
    }

    constructor (schema: Documento -> bool, arquivo: Documento)
      ensures this.schema == schema && this.arquivo == arquivo
    {
      this.schema := schema;
      this.arquivo := arquivo;
    }

    /** _load_tree: the file, if it passes the schema. */
    method LoadTree() returns (r: Result<Documento, Erro>)
      ensures schema(arquivo) ==> r == Success(arquivo)
      ensures !schema(arquivo) ==> r == Failure(XsdInvalido)
    {
      if schema(arquivo) {
        r := Success(arquivo);
      } else {
        r := Failure(XsdInvalido);
      }
    }

    /** _save_tree: writes the tree only if it passes the schema. */
    method SaveTree(t: Documento) returns (r: Outcome<Erro>)
      modifies this
      ensures Commit(old(arquivo), arquivo, t, r)
    {
      if schema(t) {
        arquivo := t;
        r := Pass;
      } else {
        r := Fail(XsdInvalido);
      }
    }

    // --- sensors ---

    /** listar_sensores: the sensors, last added first. */
    method ListarSensores() returns (r: Result<seq<SensorEl>, Erro>)
      ensures !schema(arquivo) ==> r == Failure(XsdInvalido)
      ensures schema(arquivo) ==> r.Success? && |r.value| == |arquivo.sensores|
      ensures schema(arquivo) ==>
        forall i :: 0 <= i < |arquivo.sensores| ==> r.value[i] == arquivo.sensores[|arquivo.sensores| - 1 - i]
    {
      var t := LoadTree();
      if t.Failure? {
        return Failure(t.error);
      }
      var sensoresEl := t.value.sensores;
      var sensores: seq<SensorEl> := [];
      for i := 0 to |sensoresEl|
        invariant sensores == sensoresEl[..i]
      {
        var s := sensoresEl[i];
        sensores := sensores + [SensorEl(s.id, s.tipo, s.unidade, s.modelo, s.localizacao)];
      }
      assert sensores == sensoresEl;
      r := Success(Reverse(sensores));
    }

    /** cadastrar_sensor: appends a sensor, its unit derived from its type; rejects a used id. */
    method CadastrarSensor(id: string, tipo: string, modelo: Option<string>, localizacao: Option<string>)
      returns (r: Outcome<Erro>)
      modifies this
      ensures !schema(old(arquivo)) ==> r == Fail(XsdInvalido) && arquivo == old(arquivo)
      ensures schema(old(arquivo)) && TemSensor(old(arquivo).sensores, id) ==>
        r == Fail(SensorDuplicado) && arquivo == old(arquivo)
      ensures schema(old(arquivo)) && !TemSensor(old(arquivo).sensores, id) ==>
        var novo := SensorEl(id, tipo, UnidadeAuto(tipo), OrEmpty(modelo), OrEmpty(localizacao));
        Commit(old(arquivo), arquivo, old(arquivo).(sensores := old(arquivo).sensores + [novo]), r)
    {
      var t := LoadTree();
      if t.Failure? {
        return Fail(t.error);
      }
      var d := t.value;
      for i := 0 to |d.sensores|
        invariant forall j :: 0 <= j < i ==> d.sensores[j].id != id
      {
        if d.sensores[i].id == id {
          return Fail(SensorDuplicado);
        }
      }
      var unidadeAuto := UnidadeAuto(tipo);
      var sensor := SensorEl(id, tipo, unidadeAuto, OrEmpty(modelo), OrEmpty(localizacao));
      r := SaveTree(d.(sensores := d.sensores + [sensor]));
    }

    /** limpar_sensores: removes every sensor and leaves the placeholder in their place. */
    method LimparSensores() returns (r: Outcome<Erro>)
      modifies this
      ensures !schema(old(arquivo)) ==> r == Fail(XsdInvalido) && arquivo == old(arquivo)
      ensures schema(old(arquivo)) ==>
        Commit(old(arquivo), arquivo, old(arquivo).(sensores := [Placeholder]), r)
    {
      var t := LoadTree();
      if t.Failure? {
        return Fail(t.error);
      }
      var d := t.value;
      var sensores := d.sensores;
      for i := 0 to |d.sensores|
        invariant sensores == d.sensores[i..]
      {
        sensores := sensores[1..];
      }
      sensores := sensores + [Placeholder];
      r := SaveTree(d.(sensores := sensores));
    }

    // --- actuators ---

    /** listar_atuadores: the actuators, last added first; none when the element is absent. */
    method ListarAtuadores() returns (r: Result<seq<AtuadorEl>, Erro>)
      ensures !schema(arquivo) ==> r == Failure(XsdInvalido)
      ensures schema(arquivo) && arquivo.atuadores.None? ==> r == Success([])
      ensures schema(arquivo) && arquivo.atuadores.Some? ==>
        var lista := arquivo.atuadores.value;
        r.Success? && |r.value| == |lista| && forall i :: 0 <= i < |lista| ==> r.value[i] == lista[|lista| - 1 - i]
    {
      var t := LoadTree();
      if t.Failure? {
        return Failure(t.error);
      }
      if t.value.atuadores.None? {
        return Success([]);
      }
      var atuadoresEl := t.value.atuadores.value;
      var atuadores: seq<AtuadorEl> := [];
      for i := 0 to |atuadoresEl|
        invariant atuadores == atuadoresEl[..i]
      {
        var a := atuadoresEl[i];
        var ultimo: Option<UltimoComando> := None;
        if a.ultimoComando.Some? {
          ultimo := Some(UltimoComando(a.ultimoComando.value.dataHora, a.ultimoComando.value.comando));
        }
        atuadores := atuadores + [AtuadorEl(a.id, a.tipo, ultimo)];
      }
      assert atuadores == atuadoresEl;
      r := Success(Reverse(atuadores));
    }

    /** cadastrar_atuador: appends an actuator with no command yet; rejects a used id. */
    method CadastrarAtuador(id: string, tipo: string) returns (r: Outcome<Erro>)
      modifies this
      ensures !schema(old(arquivo)) ==> r == Fail(XsdInvalido) && arquivo == old(arquivo)
      ensures schema(old(arquivo)) ==>
        var antes := if old(arquivo).atuadores.Some? then old(arquivo).atuadores.value else [];
        (TemAtuador(antes, id) ==> r == Fail(AtuadorDuplicado) && arquivo == old(arquivo))
        && (!TemAtuador(antes, id) ==>
              Commit(old(arquivo), arquivo, old(arquivo).(atuadores := Some(antes + [AtuadorEl(id, tipo, None)])), r))
    {
      var t := LoadTree();
      if t.Failure? {
        return Fail(t.error);
      }
      var d := t.value;
      var atuadores := if d.atuadores.Some? then d.atuadores.value else [];
      for i := 0 to |atuadores|
        invariant forall j :: 0 <= j < i ==> atuadores[j].id != id
      {
        if atuadores[i].id == id {
          return Fail(AtuadorDuplicado);
        }
      }
      r := SaveTree(d.(atuadores := Some(atuadores + [AtuadorEl(id, tipo, None)])));
    }

    /** limpar_atuadores: removes every actuator (zero actuators is schema-valid). */
    method LimparAtuadores() returns (r: Outcome<Erro>)
      modifies this
      ensures !schema(old(arquivo)) ==> r == Fail(XsdInvalido) && arquivo == old(arquivo)
      ensures schema(old(arquivo)) ==>
        var novo := if old(arquivo).atuadores.Some? then old(arquivo).(atuadores := Some([])) else old(arquivo);
        Commit(old(arquivo), arquivo, novo, r)
    {
      var t := LoadTree();
      if t.Failure? {
        return Fail(t.error);
      }
      var d := t.value;
      if d.atuadores.Some? {
        var atuadores := d.atuadores.value;
        for i := 0 to |d.atuadores.value|
          invariant atuadores == d.atuadores.value[i..]
        {
          atuadores := atuadores[1..];
        }
        d := d.(atuadores := Some(atuadores));
      }
      r := SaveTree(d);
    }

    // --- readings ---

    /** listar_leituras: every reading with its sensor's type, most recent first. */
    method ListarLeituras() returns (r: Result<seq<LeituraVista>, Erro>)
      ensures !schema(arquivo) ==> r == Failure(XsdInvalido)
      ensures schema(arquivo) ==> r == Success(SortDesc(Vistas(arquivo), DataHoraVista))
    {
      var t := LoadTree();
      if t.Failure? {
        return Failure(t.error);
      }
      var d := t.value;
      var sensoresMap := IdMap(d.sensores, SensorElId);
      var leituras: seq<LeituraVista> := [];
      for i := 0 to |d.leituras|
        invariant |leituras| == i
        invariant forall j :: 0 <= j < i ==> leituras[j] == Vista(d.leituras[j], sensoresMap)
      {
        var l := d.leituras[i];
        var tipo: Option<string> := None;
        if l.sensorRef in sensoresMap {
          tipo := Some(sensoresMap[l.sensorRef].tipo);
        }
        leituras := leituras + [LeituraVista(l.sensorRef, tipo, l.unidade, l.dataHora, l.valor)];
      }
      assert leituras == Vistas(d);
      r := Success(SortDesc(leituras, DataHoraVista));
    }

    /**
     * limpar_leituras: removes every reading and leaves one placeholder reading of
     * value 0.0 that refers to the first sensor; `agoraIso` is the current time.
     */
    method LimparLeituras(agoraIso: string) returns (r: Outcome<Erro>)
      requires Valid()
      modifies this
      ensures !schema(old(arquivo)) ==> r == Fail(XsdInvalido) && arquivo == old(arquivo)
      ensures schema(old(arquivo)) ==>
        |old(arquivo).sensores| > 0 &&
        var placeholder := LeituraEl(old(arquivo).sensores[0].id, None, agoraIso, 0.0);
        Commit(old(arquivo), arquivo, old(arquivo).(leituras := [placeholder]), r)
    {
      var t := LoadTree();
      if t.Failure? {
        return Fail(t.error);
      }
      var d := t.value;
      var leituras := d.leituras;
      for i := 0 to |d.leituras|
        invariant leituras == d.leituras[i..]
      {
        leituras := leituras[1..];
      }
      var primeiroSensor := d.sensores[0];
      leituras := leituras + [LeituraEl(primeiroSensor.id, None, agoraIso, 0.0)];
      r := SaveTree(d.(leituras := leituras));
    }

    // --- alerts ---

    /** listar_alertas: the listed readings whose value is outside their type's range, most recent first. */
    method ListarAlertas() returns (r: Result<seq<AlertaXml>, Erro>)
      ensures !schema(arquivo) ==> r == Failure(XsdInvalido)
      ensures schema(arquivo) ==>
        var m := IdMap(arquivo.sensores, SensorElId);
        r == Success(SortDesc(FilterMap(SortDesc(Vistas(arquivo), DataHoraVista), AlertaDe(m)), DataHoraAlerta))
    {
      var leituras := ListarLeituras();
      if leituras.Failure? {
        return Failure(leituras.error);
      }
      // The second load reads the same, already validated, file.
      var t := LoadTree();
      var ls := leituras.value;
      var sensoresMap := IdMap(t.value.sensores, SensorElId);
      var alertas: seq<AlertaXml> := [];
      for i := 0 to |ls|
        invariant alertas == FilterMap(ls[..i], AlertaDe(sensoresMap))
      {
        var l := ls[i];
        assert ls[..i + 1] == ls[..i] + [l];
        FilterMapSnoc(ls[..i], l, AlertaDe(sensoresMap));
        assert AlertaDe(sensoresMap)(l) == AlertaDaLeitura(sensoresMap, l);
        if l.sensorId !in sensoresMap {
          continue;
        }
        var tipo := sensoresMap[l.sensorId].tipo;
        if tipo !in Faixas {
          continue;
        }
        var (minimo, maximo) := Faixas[tipo];
        var msg: MensagemFaixa;
        if l.valor < minimo {
          msg := AbaixoDaFaixa(tipo, l.valor, minimo);
        } else if l.valor > maximo {
          msg := AcimaDaFaixa(tipo, l.valor, maximo);
        } else {
          continue;
        }
        alertas := alertas + [AlertaXml(l.sensorId, tipo, l.dataHora, l.valor, msg)];
      }
      assert ls[..|ls|] == ls;
      r := Success(SortDesc(alertas, DataHoraAlerta));
    }

    // --- simulation ---

    /**
     * simular_ciclo: one tick. Every sensor, in order, gets one new reading with the
     * value `sorteio(i)` (its drawn and rounded value) and the time `agoraIso`; a
     * value outside a known range sets the first actuator's last command.
     */
    method SimularCiclo(agoraIso: string, sorteio: nat -> real) returns (r: Result<seq<LeituraVista>, Erro>)
      modifies this
      ensures !schema(old(arquivo)) ==> r == Failure(XsdInvalido) && arquivo == old(arquivo)
      ensures schema(old(arquivo)) ==>
        var d := old(arquivo);
        var n := |d.sensores|;
        var novo := Documento(
          d.sensores,
          d.leituras + seq(n, i requires 0 <= i < n => NovaLeituraEl(d.sensores[i], agoraIso, sorteio(i))),
          AtuadoresAposCiclo(d.atuadores, UltimoComandoGerado(d.sensores, sorteio, n), agoraIso));
        var novas := seq(n, i requires 0 <= i < n => NovaVista(d.sensores[i], agoraIso, sorteio(i)));
        && (schema(novo) ==> r == Success(novas) && arquivo == novo)
        && (!schema(novo) ==> r == Failure(XsdInvalido) && arquivo == d)
    {
      var t := LoadTree();
      if t.Failure? {
        return Failure(t.error);
      }
      var d := t.value;
      var sensores := d.sensores;
      var leituras := d.leituras;
      var atuadores := d.atuadores;
      var novasLeituras: seq<LeituraVista> := [];
      for i := 0 to |sensores|
        invariant leituras == d.leituras + seq(i, k requires 0 <= k < i => NovaLeituraEl(sensores[k], agoraIso, sorteio(k)))
        invariant novasLeituras == seq(i, k requires 0 <= k < i => NovaVista(sensores[k], agoraIso, sorteio(k)))
        invariant atuadores == AtuadoresAposCiclo(d.atuadores, UltimoComandoGerado(sensores, sorteio, i), agoraIso)
      {
        var sensor := sensores[i];
        var unidade: Option<string> := if sensor.unidade == "" then None else Some(sensor.unidade);
        var valorDec := sorteio(i);
        leituras := leituras + [LeituraEl(sensor.id, unidade, agoraIso, valorDec)];
        novasLeituras := novasLeituras + [LeituraVista(sensor.id, Some(sensor.tipo), unidade, agoraIso, valorDec)];
        if sensor.tipo in Faixas && atuadores.Some? {
          var (minimo, maximo) := Faixas[sensor.tipo];
          var cmd: Option<string> := None;
          if valorDec < minimo {
            cmd := Some("ligar");
          } else if valorDec > maximo {
            cmd := Some("desligar");
          }
          if cmd.Some? && |atuadores.value| > 0 {
            var atuador := atuadores.value[0];
            atuadores := Some([atuador.(ultimoComando := Some(UltimoComando(agoraIso, cmd.value)))] + atuadores.value[1..]);
          }
        }
      }
      var novo := Documento(sensores, leituras, atuadores);
      var salvo := SaveTree(novo);
      if salvo.Fail? {
        return Failure(salvo.error);
      }
      r := Success(novasLeituras);
    }
  }
}
