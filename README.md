# Hydroponics store, alert classifier and API handlers, in Dafny

This project models the back end of a smart hydroponics system. It has three parts.

- **The XML store** (`XMLService`). It keeps sensors, readings and actuators in one
  XML document that must pass an XSD schema. Every operation does four things:
  - it loads the file and validates it;
  - it changes the tree;
  - it validates the result;
  - it writes the result back only if that validation passes.

  The store also derives an alert list and runs one simulation tick. A tick makes
  one reading per sensor; an out-of-range value sets the first actuator's last
  command.
- **The range classifier** (`avaliar_leitura`). It is a fixed table of inclusive ideal
  ranges per sensor type. It classifies a reading as unknown, low, high or ok.
- **The API handlers**. They do five things:
  - they register a reading, falling back to a pending buffer;
  - they list readings in a date window, with their status;
  - they export the date-filtered system;
  - they append a command to an actuator;
  - they list alerts.

  A device key guards the handlers that write.

Modules:

- `Wrappers`: `Option`, `Result` and `Outcome`.
- `Sequences`: the Python list and string behaviour the code relies on:
  - the `str` order, in `StrLess`;
  - the stable descending `list.sort(key, reverse=True)`, in `SortDesc`;
  - `reversed`, in `Reverse`;
  - list comprehensions, in `Filter` and `FilterMap`;
  - `{s.id: s for s in ...}`, in `IdMap`, where the last sensor with an id wins.
- `Hidroponia`: the domain records, `Sensor`, `Leitura`, `Atuador`, `ComandoAtuador` and `SistemaHidroponico`.
- `AlertService`: the classifier.
- `XmlService`: the store.
  - The document is a `Documento` record.
  - The store is the class `XmlStore`. It has the compiled schema, as a predicate `schema`, and the file contents, as a field `arquivo`.
- `Api`: the handlers.
  - They are methods of the class `Api`.
  - The class holds the loaded system, as `arquivo`, which is `None` when loading raises.
  - It also holds the pending buffer, `pendentes`.
  - Its constants are the configured key and the parsers whose failure the handlers react to: `fromIsoFormat` and `paraDecimal`.

Decimal values are `real`, so comparisons against the range bounds are exact. The
store keeps timestamps as text and sorts them as Python sorts strings. The API works on
parsed datetimes, modelled as points `Instante` on an ordered time line.

Where the documentation and the code disagree, the model follows the code:

- A simulation tick overwrites the first actuator's `ultimoComando` element. It does not append a command to a history.
- `registrar_leitura` falls back to the pending buffer on any exception, including a value or time that does not parse, and not only on a failed save.
- No expiry of pending entries is modelled. The code that would apply one is not part of this model.

## Model

| member | source | states |
|---|---|---|
| AlertService.AvaliarLeitura | backend/services/alert_service.py:14-36 | an unknown type is "desconhecido" with no alert; a value below the minimum is "critico-baixo" with an alert naming type, value and minimum; above the maximum is "critico-alto" with an alert naming type, value and maximum; otherwise "ok"; each status by an if-and-only-if, and an alert exactly for the two critical statuses |
| AlertService.FaixasBemFormadas | backend/services/alert_service.py:5-11 | every range of the table has minimum below maximum, so low and high are exclusive |
| AlertService.LimitesInclusivos | backend/services/alert_service.py:22-36 | a value equal to either bound is "ok" with no alert |
| AlertService.SoTipoEValor | backend/services/alert_service.py:18-36 | the verdict depends only on the sensor's type and the reading's value |
| Sequences.Reverse | backend/services/xml_service.py:96 | `reversed` keeps the length and puts element i at position n-1-i |
| Sequences.IdMapKeys | backend/services/xml_service.py:262 | the id dictionary has a key exactly when some element has that id |
| Sequences.IdMapLast | backend/services/xml_service.py:262 | the dictionary maps an id to the last element with that id |
| Sequences.SortDescSorted | backend/services/xml_service.py:287 | the sorted list is in descending key order (Python string order) |
| Sequences.SortDescPermutation | backend/services/xml_service.py:287 | sorting neither loses nor adds an element (same multiset) |
| Sequences.SortDescStable | backend/services/xml_service.py:287 | elements with equal keys keep their original relative order |
| Sequences.FilterMapSortedDesc | backend/services/xml_service.py:337-366 | keeping some items of a descending list, each turned into one with the same key, gives a descending list |
| Sequences.SortDescOfSorted | backend/services/xml_service.py:368 | sorting a list already in descending order leaves it unchanged |
| XmlService.VistasTipo | backend/services/xml_service.py:267-284 | each listed row copies its reading's reference, unit, time and value; its type is None exactly when no sensor has the id, and otherwise the type of the last sensor with it |
| XmlService.AlertaDeExato | backend/services/xml_service.py:338-366 | a row gives an alert exactly when its sensor exists, the type has a range and the value is strictly outside it; the alert carries the row's sensor, type, time and value |
| XmlService.AlertasJaOrdenadas | backend/services/xml_service.py:330-368 | the alerts, taken in the order of the listing (most recent first) and keeping their row's time, are already in descending time order, so the final sort changes nothing |
| XmlService.FaixasIguais | backend/services/xml_service.py:11-17 | the store's range table equals the classifier's, entry for entry |
| XmlService.AlertaDeConcordaComAvaliacao | backend/services/xml_service.py:339-356 | the store raises an alert for a reading exactly when avaliar_leitura does |
| XmlService.ComandoConcordaComAvaliacao | backend/services/xml_service.py:436-442 | a tick value drives "ligar" exactly when the classifier says "critico-baixo", "desligar" exactly when "critico-alto", and nothing for "desconhecido" or "ok" |
| XmlService.UltimoComandoGeradoExato | backend/services/xml_service.py:393-454 | after a tick the first actuator holds no new command iff no sensor's value drove one, and otherwise the command of the last sensor that drove one |
| XmlService.AtuadoresAposCicloExato | backend/services/xml_service.py:436-454 | a tick keeps the actuator collection's presence and length, never changes an actuator but the first, and gives the first the tick time and command while keeping its id and type |
| XmlService.XmlStore.constructor | backend/services/xml_service.py:28-35 | the store holds the given schema and file |
| XmlService.XmlStore.LoadTree | backend/services/xml_service.py:41-48 | loading yields the file if it passes the schema, and the validation error otherwise |
| XmlService.XmlStore.SaveTree | backend/services/xml_service.py:50-61 | a tree that passes the schema replaces the file; otherwise the error is raised and the file is unchanged |
| XmlService.XmlStore.ListarSensores | backend/services/xml_service.py:67-96 | the sensors of the file, last one first, or the validation error |
| XmlService.XmlStore.CadastrarSensor | backend/services/xml_service.py:98-135 | a used id is rejected with the file unchanged; otherwise exactly one sensor is appended at the end, its unit from the type table or "" and missing model and location as "", committed only if valid |
| XmlService.XmlStore.LimparSensores | backend/services/xml_service.py:137-156 | the sensors become exactly the placeholder "sensor-placeholder" of type "pH", committed only if valid |
| XmlService.XmlStore.ListarAtuadores | backend/services/xml_service.py:162-200 | no actuators element gives the empty list; otherwise the actuators, last one first, with their last command when present |
| XmlService.XmlStore.CadastrarAtuador | backend/services/xml_service.py:202-225 | the actuators element is created when absent; a used id is rejected with the file unchanged; otherwise one actuator with no command is appended |
| XmlService.XmlStore.LimparAtuadores | backend/services/xml_service.py:227-240 | an existing actuators element is left empty, an absent one stays absent, everything else is unchanged |
| XmlService.XmlStore.ListarLeituras | backend/services/xml_service.py:246-288 | the rows of all readings, sorted by timestamp text, most recent (greatest) first |
| XmlService.XmlStore.LimparLeituras | backend/services/xml_service.py:290-311 | the readings become exactly one placeholder of value 0.0 at the current time referring to the first sensor, committed only if valid |
| XmlService.XmlStore.ListarAlertas | backend/services/xml_service.py:317-369 | the alerts of the listed rows, in the listing's order, then sorted by timestamp text, most recent first |
| XmlService.XmlStore.SimularCiclo | backend/services/xml_service.py:375-459 | one new reading per sensor in sensor order, all with the same time, unit copied only when non-empty; actuators as in AtuadoresAposCiclo; the returned rows one per sensor; nothing changes when the result does not pass the schema |
| Api.RequireApiKey | backend/controllers/api.py:19-26 | the handler runs exactly when the key header equals the configured key; otherwise the answer is 401 |
| Api.ReplaceZ | backend/controllers/api.py:49 | replacing "Z" by "+00:00" leaves no "Z" |
| Api.SufixoZ | backend/controllers/api.py:49 | a timestamp ending in "Z" (and with no other "Z") ends in "+00:00" instead, with the rest unchanged |
| Api.FiltrarPorDataJanela | backend/controllers/api.py:86-93 | the two filters keep exactly the readings with start <= time <= end, an absent bound not restricting its side, in their original order |
| Api.AlertaDaLeituraExata | backend/controllers/api.py:192-206 | a reading is reported as an alert exactly when its sensor exists and its value is strictly outside the range of the sensor's type; the alert carries its sensor, type, time and value |
| Api.PrimeiroAtuador | backend/controllers/api.py:166 | `next(...)` finds no actuator exactly when none has the id, and otherwise the first one with it |
| Api.AnexarComando | backend/controllers/api.py:174 | the chosen actuator's commands gain exactly the new one at the end; its id and type and every other actuator are unchanged |
| Api.Api.constructor | backend/controllers/api.py:13-14 | the handlers start from the given key, parsers, system and an empty pending buffer |
| Api.Api.LoadFromFile | backend/controllers/api.py:56 | the stored system, or a server error when loading raises |
| Api.Api.SaveToFile | backend/controllers/api.py:64 | a save that succeeds replaces the stored system; one that fails leaves it |
| Api.Api.AddPendingLeitura | backend/controllers/api.py:67 | the pending buffer gains exactly the given reading at the end |
| Api.Api.RegistrarLeitura | backend/controllers/api.py:31-71 | a wrong key is 401 and nothing changes; when loading, parsing and saving succeed, exactly one reading is appended (201) and the buffer is unchanged; otherwise the file is unchanged and the reading dict with its creation time goes to the buffer (202) |
| Api.Api.ListarLeituras | backend/controllers/api.py:76-113 | a load or date-parse failure is a server error; otherwise one row per reading of the window, in order, with its sensor's type and verdict, or type None, "desconhecido" and no alert for an unknown sensor |
| Api.Api.ExportarXmlFiltrado | backend/controllers/api.py:118-146 | the exported system has the stored id, meta, sensors and actuators, and only the readings of the window |
| Api.Api.RegistrarComandoAtuador | backend/controllers/api.py:151-178 | a wrong key is 401; an unknown actuator is 404 with nothing saved; otherwise exactly one command is appended to the first actuator with the id and saved (201), or a server error leaves the file unchanged |
| Api.Api.ListarAlertas | backend/controllers/api.py:183-208 | the alerts of exactly the readings whose sensor exists and whose verdict carries an alert, in document order |

## Left out

- The parsing, writing and schema validation done by lxml are left out, along with the files on disk. The schema is an opaque predicate, the store's `Valid()` only states that it demands a sensor and a reading, and the file is a field. The root's id and metadata are not part of `Documento`, since the store never reads or changes them.
- A missing child element (`findtext` returning None) is not modelled: every sensor element has its texts. An lxml element's truthiness (`if not sensor`) is taken to be true.
- `random` and the float arithmetic of the tick are left out. The drawn and rounded value of the i-th sensor is the parameter `sorteio(i)`, so the 80/20 split is not modelled.
- `float(...)` conversions for JSON are left out, along with `Decimal(str(float))`. The store's alert listing compares the listed value as an exact decimal.
- `datetime.utcnow()` and ISO formatting are left out. The current time is a parameter: text in the store, and the creation time of a pending entry in the handlers.
- `datetime.fromisoformat` and `Decimal(str(...))` are the abstract functions `fromIsoFormat` and `paraDecimal`, which are None where they raise. The request's `valor` is given by its `str()` text.
- Comparing a naive datetime with a timezone-aware one raises in Python. This is not modelled: every `Instante` is on one time line.
- The store orders readings by their timestamp text, as the code does. This is faithful, but texts of different shapes (with and without fractional seconds) then do not sort by time.
- `load_from_file`, `save_to_file`, `add_pending_leitura` and `to_xml_bytes` are not part of this model: their code is not available. They are abstract operations.
  - A load may raise.
  - A save may fail, by the predicate `salva`.
  - The pending buffer is a sequence that only grows.
  - The export returns the system that would be serialised.
- The pending buffer's file, its 24-hour expiry and its synchronisation are left out. Their code is not available.
- Alert messages are kept as their parts (type, value, bound) rather than as formatted text. The store and the classifier use two different wordings, so they are two datatypes. Response dictionaries are records.
- The Flask routing is left out, along with `request`, `jsonify` and `Response`. A handler's request fields are parameters and its status is a `Codigo`. An exception a handler does not catch is the code 500.
- A request missing a required JSON field (KeyError) is not modelled.
