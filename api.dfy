/**
 * The domain logic of the HTTP handlers, with the web layer taken away: request
 * fields are parameters and the HTTP status is a `Codigo`. The handlers work on
 * a `SistemaHidroponico` obtained from, and written back through, the store's
 * load/save operations, and fall back to a pending buffer when registering a
 * reading fails.
 */
module Api {
  import opened Wrappers
  import opened Sequences
  import opened Hidroponia
  import AlertService

  /** The HTTP status codes the handlers answer with. */
  datatype Codigo = Criado201 | Aceito202 | NaoAutorizado401 | NaoEncontrado404 | ErroInterno500

  /**
   * require_api_key: the handler may run only when the X-API-KEY header (None when
   * absent) equals the configured key; otherwise the answer is 401.
   */
  function RequireApiKey(header: Option<string>, chave: string): (r: Option<Codigo>)
    ensures r.None? <==> header == Some(chave)
    ensures r.Some? ==> r.value == NaoAutorizado401
  {
    if header == Some(chave) then None else Some(NaoAutorizado401)
  }

  /** str.replace("Z", "+00:00") */
  function ReplaceZ(s: string): (r: string)
    ensures 'Z' !in r
  {
    if s == [] then [] else (if s[0] == 'Z' then "+00:00" else [s[0]]) + ReplaceZ(s[1..])
  }

  lemma {:induction false} ReplaceZConcat(a: string, b: string)
    ensures ReplaceZ(a + b) == ReplaceZ(a) + ReplaceZ(b)
  {
    if a == [] {
      assert a + b == b;
    } else {
      assert (a + b)[0] == a[0] && (a + b)[1..] == a[1..] + b;
      ReplaceZConcat(a[1..], b);
    }
  }

  /** A text without 'Z' is left as it is. */
  lemma {:induction false} ReplaceZSemZ(s: string)
    requires 'Z' !in s
    ensures ReplaceZ(s) == s
  {
    if s != [] {
      ReplaceZSemZ(s[1..]);
      assert s == [s[0]] + s[1..];
    }
  }

  /** A UTC time written with a trailing "Z" gets the "+00:00" offset in its place. */
  lemma SufixoZ(s: string)
    requires 'Z' !in s
    ensures ReplaceZ(s + "Z") == s + "+00:00"
  {
    ReplaceZConcat(s, "Z");
    ReplaceZSemZ(s);
    assert "Z"[1..] == [];
  }

  // ---------------------------------------------------------------------
  // Date filtering
  // ---------------------------------------------------------------------

  function Desde(t: Instante): Leitura -> bool { (l: Leitura) => l.dataHora >= t }

  function Ate(t: Instante): Leitura -> bool { (l: Leitura) => l.dataHora <= t }

  /** An absent bound does not restrict its side; both bounds are inclusive. */
  function NaJanela(ini: Option<Instante>, fim: Option<Instante>): Leitura -> bool
  {
    (l: Leitura) => (ini.None? || ini.value <= l.dataHora) && (fim.None? || l.dataHora <= fim.value)
  }

  /** The two comprehensions of listar_leituras and exportar_xml_filtrado, one after the other. */
  function FiltrarPorData(ls: seq<Leitura>, ini: Option<Instante>, fim: Option<Instante>): seq<Leitura>
  {
    var aposIni := if ini.Some? then Filter(ls, Desde(ini.value)) else ls;
    if fim.Some? then Filter(aposIni, Ate(fim.value)) else aposIni
  }

  /**
   * The filtered readings are exactly those inside the window, in their
   * original order.
   */
  lemma FiltrarPorDataJanela(ls: seq<Leitura>, ini: Option<Instante>, fim: Option<Instante>)
    ensures FiltrarPorData(ls, ini, fim) == Filter(ls, NaJanela(ini, fim))
    ensures forall i :: 0 <= i < |FiltrarPorData(ls, ini, fim)| ==>
      var l := FiltrarPorData(ls, ini, fim)[i];
      l in ls && (ini.None? || ini.value <= l.dataHora) && (fim.None? || l.dataHora <= fim.value)
    ensures forall i :: 0 <= i < |ls| && (ini.None? || ini.value <= ls[i].dataHora)
                                      && (fim.None? || ls[i].dataHora <= fim.value) ==>
      ls[i] in FiltrarPorData(ls, ini, fim)
  {
    var janela := NaJanela(ini, fim);
    if ini.Some? && fim.Some? {
      FilterFilter(ls, Desde(ini.value), Ate(fim.value), janela);
    } else if ini.Some? {
      FilterSame(ls, Desde(ini.value), janela);
    } else if fim.Some? {
      FilterSame(ls, Ate(fim.value), janela);
    } else {
      FilterAll(ls, janela);
    }
  }

  // ---------------------------------------------------------------------
  // Responses
  // ---------------------------------------------------------------------

  /** A row of the listar_leituras response. */
  datatype LeituraResposta = LeituraResposta(
    sensorId: string,
    tipo: Option<string>,
    unidade: Option<string>,
    dataHora: Instante,
    valor: real,
    status: AlertService.Status,
    alerta: Option<AlertService.Alerta>)

  /**
   * How a row reports its reading: the reading's own fields, and either its
   * sensor's type with avaliar_leitura's verdict, or, when no sensor has the
   * referenced id, no type, status "desconhecido" and no alert.
   */
  ghost predicate Anotada(resp: LeituraResposta, l: Leitura, sensores: seq<Sensor>)
  {
    var m := IdMap(sensores, SensorId);
    && resp.sensorId == l.sensorId && resp.unidade == l.unidade
    && resp.dataHora == l.dataHora && resp.valor == l.valor
    && (l.sensorId !in m ==>
          resp.tipo == None && resp.status == AlertService.Desconhecido && resp.alerta == None)
    && (l.sensorId in m ==>
          resp.tipo == Some(m[l.sensorId].tipo)
          && AlertService.Avaliacao(resp.status, resp.alerta) == AlertService.AvaliarLeitura(m[l.sensorId], l))
  }

  /** The row listar_leituras' loop builds for one reading, given the sensors by id. */
  function Anotar(m: map<string, Sensor>, l: Leitura): LeituraResposta
  {
    if l.sensorId in m then
      var a := AlertService.AvaliarLeitura(m[l.sensorId], l);
      LeituraResposta(l.sensorId, Some(m[l.sensorId].tipo), l.unidade, l.dataHora, l.valor, a.status, a.alerta)
    else
      LeituraResposta(l.sensorId, None, l.unidade, l.dataHora, l.valor, AlertService.Desconhecido, None)
  }

  lemma AnotarAnotada(sensores: seq<Sensor>, l: Leitura)
    ensures Anotada(Anotar(IdMap(sensores, SensorId), l), l, sensores)
  {
  }

  /** A row of the listar_alertas response. */
  datatype AlertaResposta = AlertaResposta(
    sensorId: string,
    tipo: string,
    dataHora: Instante,
    valor: real,
    mensagem: AlertService.Alerta)

  /** The body of listar_alertas' loop for one reading: None where it `continue`s. */
  function AlertaDaLeitura(m: map<string, Sensor>, l: Leitura): Option<AlertaResposta>
  {
    if l.sensorId !in m then None
    else
      var avaliacao := AlertService.AvaliarLeitura(m[l.sensorId], l);
      if avaliacao.alerta.Some? then
        Some(AlertaResposta(l.sensorId, m[l.sensorId].tipo, l.dataHora, l.valor, avaliacao.alerta.value))
      else None
  }

  /** The same, as one function value for every use. */
  function AlertaDe(m: map<string, Sensor>): Leitura -> Option<AlertaResposta>
  {
    (l: Leitura) => AlertaDaLeitura(m, l)
  }

  /**
   * A reading is reported as an alert exactly when its sensor exists and its
   * value lies strictly outside the range of the sensor's type.
   */
  lemma AlertaDaLeituraExata(m: map<string, Sensor>, l: Leitura)
    ensures AlertaDaLeitura(m, l).Some? <==>
      l.sensorId in m && m[l.sensorId].tipo in AlertService.Faixas &&
      (l.valor < AlertService.Faixas[m[l.sensorId].tipo].0 || l.valor > AlertService.Faixas[m[l.sensorId].tipo].1)
    ensures AlertaDaLeitura(m, l).Some? ==>
      var a := AlertaDaLeitura(m, l).value;
      a.sensorId == l.sensorId && a.tipo == m[l.sensorId].tipo && a.dataHora == l.dataHora && a.valor == l.valor
  {
  }

  // ---------------------------------------------------------------------
  // Actuator commands
  // ---------------------------------------------------------------------

  /** next((a for a in atuadores if a.id == id), None), as the index of that actuator. */
  function PrimeiroAtuador(atuadores: seq<Atuador>, id: string): (k: Option<nat>)
    ensures k.None? <==> forall i :: 0 <= i < |atuadores| ==> atuadores[i].id != id
    ensures k.Some? ==>
      k.value < |atuadores| && atuadores[k.value].id == id &&
      forall j :: 0 <= j < k.value ==> atuadores[j].id != id
  {
    if atuadores == [] then None
    else if atuadores[0].id == id then Some(0)
    else
      match PrimeiroAtuador(atuadores[1..], id)
      case None => None
      case Some(j) => Some(j + 1)
  }

  /** atuador.comandos.append(cmd) for the actuator at index k. */
  function AnexarComando(atuadores: seq<Atuador>, k: nat, cmd: ComandoAtuador): (r: seq<Atuador>)
    requires k < |atuadores|
    ensures |r| == |atuadores|
    ensures r[k].id == atuadores[k].id && r[k].tipo == atuadores[k].tipo
    ensures r[k].comandos == atuadores[k].comandos + [cmd]
    ensures forall i :: 0 <= i < |atuadores| && i != k ==> r[i] == atuadores[i]
  {
    atuadores[k := atuadores[k].(comandos := atuadores[k].comandos + [cmd])]
  }

  // ---------------------------------------------------------------------
  // The handlers
  // ---------------------------------------------------------------------

  /** The reading dict registrar_leitura builds, which is what the pending buffer receives. */
  datatype LeituraPendente = LeituraPendente(
    sensorId: string,
    dataHora: string,
    valor: string,
    unidade: Option<string>,
    criadoEm: string)

  class Api {
    /** The configured device key. */
    const chaveApi: string
    /** datetime.fromisoformat: None where it raises. */
    const fromIsoFormat: string -> Option<Instante>
    /** Decimal(str(valor)) on the request's value, given as its text: None where it raises. */
    const paraDecimal: string -> Option<real>
    /** Whether save_to_file succeeds in writing a system. */
    const salva: SistemaHidroponico -> bool
    /** What load_from_file returns: None where it raises. */
    var arquivo: Option<SistemaHidroponico>
    /** The dicts add_pending_leitura has received, in order. */
    var pendentes: seq<LeituraPendente>

    constructor (chaveApi: string, fromIsoFormat: string -> Option<Instante>, paraDecimal: string -> Option<real>,
                 salva: SistemaHidroponico -> bool, arquivo: Option<SistemaHidroponico>)
      ensures this.chaveApi == chaveApi && this.fromIsoFormat == fromIsoFormat && this.paraDecimal == paraDecimal
      ensures this.salva == salva && this.arquivo == arquivo && this.pendentes == []
    {
      this.chaveApi := chaveApi;
      this.fromIsoFormat := fromIsoFormat;
      this.paraDecimal := paraDecimal;
      this.salva := salva;
      this.arquivo := arquivo;
      this.pendentes := [];
    }

    method LoadFromFile() returns (r: Result<SistemaHidroponico, Codigo>)
      ensures arquivo.Some? ==> r == Success(arquivo.value)
      ensures arquivo.None? ==> r == Failure(ErroInterno500)
    {
      if arquivo.Some? {
        r := Success(arquivo.value);
      } else {
        r := Failure(ErroInterno500);
      }
    }

    method SaveToFile(s: SistemaHidroponico) returns (ok: bool)
      modifies this`arquivo
      ensures ok == salva(s)
      ensures arquivo == if ok then Some(s) else old(arquivo)
    {
      ok := salva(s);
      if ok {
        arquivo := Some(s);
      }
    }

    method AddPendingLeitura(p: LeituraPendente)
      modifies this`pendentes
      ensures pendentes == old(pendentes) + [p]
    {
      pendentes := pendentes + [p];
    }

    /** A date query argument: absent or empty means no bound; one that does not parse is a 500. */
    function Limite(arg: Option<string>): Result<Option<Instante>, Codigo>
    {
      if arg.None? || arg.value == "" then Success(None)
      else
        match fromIsoFormat(arg.value)
        case None => Failure(ErroInterno500)
        case Some(t) => Success(Some(t))
    }

    /** The readings between the query's data_inicio and data_fim. */
    function LeiturasFiltradas(ls: seq<Leitura>, dataInicio: Option<string>, dataFim: Option<string>)
      : Result<seq<Leitura>, Codigo>
    {
      match Limite(dataInicio)
      case Failure(e) => Failure(e)
      case Success(ini) =>
        match Limite(dataFim)
        case Failure(e) => Failure(e)
        case Success(fim) => Success(FiltrarPorData(ls, ini, fim))
    }

    /** The reading registrar_leitura appends, or None when parsing its time or value raises. */
    function LeituraNova(sensorId: string, dataHora: string, valor: string, unidade: Option<string>): Option<Leitura>
    {
      match (fromIsoFormat(ReplaceZ(dataHora)), paraDecimal(valor))
      case (Some(t), Some(v)) => Some(Leitura(sensorId, t, v, unidade))
      case _ => None
    }

    /**
     * registrar_leitura: appends one reading and saves (201); if loading, parsing
     * or saving fails, hands the reading dict to the pending buffer instead (202).
     */
    method RegistrarLeitura(header: Option<string>, sensorId: string, dataHora: string, valor: string,
                            unidade: Option<string>, agoraIso: string) returns (c: Codigo)
      modifies this
      ensures header != Some(chaveApi) ==>
        c == NaoAutorizado401 && arquivo == old(arquivo) && pendentes == old(pendentes)
      ensures header == Some(chaveApi) ==>
        var nova := LeituraNova(sensorId, dataHora, valor, unidade);
        var ok := old(arquivo).Some? && nova.Some? &&
                  salva(old(arquivo).value.(leituras := old(arquivo).value.leituras + [nova.value]));
        && (ok ==> c == Criado201 && pendentes == old(pendentes)
                   && arquivo == Some(old(arquivo).value.(leituras := old(arquivo).value.leituras + [nova.value])))
        && (!ok ==> c == Aceito202 && arquivo == old(arquivo)
                    && pendentes == old(pendentes) + [LeituraPendente(sensorId, ReplaceZ(dataHora), valor, unidade, agoraIso)])
    {
      var negado := RequireApiKey(header, chaveApi);
      if negado.Some? {
        return negado.value;
      }
      var leituraDict := LeituraPendente(sensorId, ReplaceZ(dataHora), valor, unidade, agoraIso);
      // try
      var sistema := LoadFromFile();
      if sistema.Success? {
        var dt := fromIsoFormat(leituraDict.dataHora);
        var v := paraDecimal(leituraDict.valor);
        if dt.Some? && v.Some? {
          var novaLeitura := Leitura(leituraDict.sensorId, dt.value, v.value, leituraDict.unidade);
          var ok := SaveToFile(sistema.value.(leituras := sistema.value.leituras + [novaLeitura]));
          if ok {
            return Criado201;
          }
        }
      }
      // except
      AddPendingLeitura(leituraDict);
      c := Aceito202;
    }

    /** listar_leituras: the readings in the date window, each annotated with its status. */
    method ListarLeituras(dataInicio: Option<string>, dataFim: Option<string>)
      returns (r: Result<seq<LeituraResposta>, Codigo>)
      ensures arquivo.None? ==> r == Failure(ErroInterno500)
      ensures arquivo.Some? && LeiturasFiltradas(arquivo.value.leituras, dataInicio, dataFim).Failure? ==>
        r == Failure(ErroInterno500)
      ensures arquivo.Some? && LeiturasFiltradas(arquivo.value.leituras, dataInicio, dataFim).Success? ==>
        var f := LeiturasFiltradas(arquivo.value.leituras, dataInicio, dataFim).value;
        r.Success? && |r.value| == |f| &&
        forall i :: 0 <= i < |f| ==> Anotada(r.value[i], f[i], arquivo.value.sensores)
    {
      var sistema := LoadFromFile();
      if sistema.Failure? {
        return Failure(sistema.error);
      }
      var filtradas := LeiturasFiltradas(sistema.value.leituras, dataInicio, dataFim);
      if filtradas.Failure? {
        return Failure(filtradas.error);
      }
      var leituras := filtradas.value;
      var sensoresMap := IdMap(sistema.value.sensores, SensorId);
      var resposta: seq<LeituraResposta> := [];
      for i := 0 to |leituras|
        invariant |resposta| == i
        invariant forall j :: 0 <= j < i ==> resposta[j] == Anotar(sensoresMap, leituras[j])
      {
        var l := leituras[i];
        var avaliacao := AlertService.Avaliacao(AlertService.Desconhecido, None);
        var tipo: Option<string> := None;
        if l.sensorId in sensoresMap {
          var sensor := sensoresMap[l.sensorId];
          avaliacao := AlertService.AvaliarLeitura(sensor, l);
          tipo := Some(sensor.tipo);
        }
        resposta := resposta + [LeituraResposta(l.sensorId, tipo, l.unidade, l.dataHora, l.valor,
                                                avaliacao.status, avaliacao.alerta)];
      }
      forall j | 0 <= j < |leituras|
        ensures Anotada(resposta[j], leituras[j], sistema.value.sensores)
      {
        AnotarAnotada(sistema.value.sensores, leituras[j]);
      }
      r := Success(resposta);
    }

    /**
     * exportar_xml_filtrado: the system to serialise, identical to the stored one
     * except that its readings are the date-filtered ones.
     */
    method ExportarXmlFiltrado(dataInicio: Option<string>, dataFim: Option<string>)
      returns (r: Result<SistemaHidroponico, Codigo>)
      ensures arquivo.None? ==> r == Failure(ErroInterno500)
      ensures arquivo.Some? && LeiturasFiltradas(arquivo.value.leituras, dataInicio, dataFim).Failure? ==>
        r == Failure(ErroInterno500)
      ensures arquivo.Some? && LeiturasFiltradas(arquivo.value.leituras, dataInicio, dataFim).Success? ==>
        var s := arquivo.value;
        r.Success? && r.value.id == s.id && r.value.meta == s.meta && r.value.sensores == s.sensores
        && r.value.atuadores == s.atuadores
        && r.value.leituras == LeiturasFiltradas(s.leituras, dataInicio, dataFim).value
    {
      var sistema := LoadFromFile();
      if sistema.Failure? {
        return Failure(sistema.error);
      }
      var s := sistema.value;
      var filtradas := LeiturasFiltradas(s.leituras, dataInicio, dataFim);
      if filtradas.Failure? {
        return Failure(filtradas.error);
      }
      var sistemaFiltrado := SistemaHidroponico(s.id, s.meta, s.sensores, filtradas.value, s.atuadores);
      r := Success(sistemaFiltrado);
    }

    /**
     * registrar_comando_atuador: appends one command to the first actuator with the
     * given id and saves (201); no such actuator is a 404 and nothing is saved.
     */
    method RegistrarComandoAtuador(header: Option<string>, atuadorId: string, dataHora: string, acao: string)
      returns (c: Codigo)
      modifies this
      ensures pendentes == old(pendentes)
      ensures header != Some(chaveApi) ==> c == NaoAutorizado401 && arquivo == old(arquivo)
      ensures header == Some(chaveApi) && old(arquivo).None? ==> c == ErroInterno500 && arquivo == old(arquivo)
      ensures header == Some(chaveApi) && old(arquivo).Some? ==>
        var s := old(arquivo).value;
        var k := PrimeiroAtuador(s.atuadores, atuadorId);
        var t := fromIsoFormat(ReplaceZ(dataHora));
        && (k.None? ==> c == NaoEncontrado404 && arquivo == old(arquivo))
        && (k.Some? && t.None? ==> c == ErroInterno500 && arquivo == old(arquivo))
        && (k.Some? && t.Some? ==>
              var novo := s.(atuadores := AnexarComando(s.atuadores, k.value, ComandoAtuador(t.value, acao)));
              && (salva(novo) ==> c == Criado201 && arquivo == Some(novo))
              && (!salva(novo) ==> c == ErroInterno500 && arquivo == old(arquivo)))
    {
      var negado := RequireApiKey(header, chaveApi);
      if negado.Some? {
        return negado.value;
      }
      var sistema := LoadFromFile();
      if sistema.Failure? {
        return sistema.error;
      }
      var s := sistema.value;
      var k := PrimeiroAtuador(s.atuadores, atuadorId);
      if k.None? {
        return NaoEncontrado404;
      }
      var dt := fromIsoFormat(ReplaceZ(dataHora));
      if dt.None? {
        return ErroInterno500;
      }
      var novoCmd := ComandoAtuador(dt.value, acao);
      var ok := SaveToFile(s.(atuadores := AnexarComando(s.atuadores, k.value, novoCmd)));
      if !ok {
        return ErroInterno500;
      }
      c := Criado201;
    }

    /** listar_alertas: the readings whose sensor exists and whose value raises an alert, in document order. */
    method ListarAlertas() returns (r: Result<seq<AlertaResposta>, Codigo>)
      ensures arquivo.None? ==> r == Failure(ErroInterno500)
      ensures arquivo.Some? ==>
        r == Success(FilterMap(arquivo.value.leituras, AlertaDe(IdMap(arquivo.value.sensores, SensorId))))
    {
      var sistema := LoadFromFile();
      if sistema.Failure? {
        return Failure(sistema.error);
      }
      var ls := sistema.value.leituras;
      var sensoresMap := IdMap(sistema.value.sensores, SensorId);
      var alertas: seq<AlertaResposta> := [];
      for i := 0 to |ls|
        invariant alertas == FilterMap(ls[..i], AlertaDe(sensoresMap))
      {
        var l := ls[i];
        assert ls[..i + 1] == ls[..i] + [l];
        FilterMapSnoc(ls[..i], l, AlertaDe(sensoresMap));
        assert AlertaDe(sensoresMap)(l) == AlertaDaLeitura(sensoresMap, l);
        if l.sensorId !in sensoresMap {
          continue;
        }
        var sensor := sensoresMap[l.sensorId];
        var avaliacao := AlertService.AvaliarLeitura(sensor, l);
        if avaliacao.alerta.Some? {
          alertas := alertas + [AlertaResposta(l.sensorId, sensor.tipo, l.dataHora, l.valor, avaliacao.alerta.value)];
        }
      }
      assert ls[..|ls|] == ls;
      r := Success(alertas);
    }
  }
}
