# Air-quality alert service — a Dafny model of its decision rules

The service (`app.py`, a Flask application) keeps two tables — a history of air-quality readings
(`HistoricoAQI`) and a registry of email subscribers (`Inscrito`) — and serves four endpoints:
registration, the "current conditions" fetch that records a reading and alerts subscribers at that
coordinate, the history listing, and a three-hour trend. This project models the rules under the HTTP,
SQL and SMTP plumbing:

- `Tipos` — the two record types, `Option`, the unique-email constraint, and the clock constants
  (time is an integer number of seconds passed in as `agora`; six hours = 21600, three hours = 10800).
- `Classificador` — `interpretar_aqi`: a total map from any integer to a risk label and advice.
- `Cadastro` — the registration body: Python truthiness of each field (`all([email, lat, lon])`) and
  `str()` of the latitude and longitude as they are stored.
- `Alertas` — the alert rule: exact string match on the coordinate, the index threshold (`aqi >= 1`),
  the strict six-hour interval, the new subscriber table and the notifications attempted.
- `Consultas` — the history listing (newest first) and the trend (exact coordinate, last three hours
  inclusive, first versus last reading in time order).
- `Servico` — class `Banco` holding both tables as sequences plus the auto-increment counters, with
  `Registrar` and `AlertaAr` as methods that update them in place; the fan-out loop (`Difundir`) walks
  the subscribers one at a time with a loop invariant over the processed prefix.

The external provider is replaced by a `Consulta` value: either a failure (the 500 path, nothing stored)
or the already-extracted integer index. A sent email is an `Alerta` value returned by the fetch; a failed
send has no effect on the store, exactly as the source swallows every mail exception and stamps the
subscriber regardless.

## Model

| member | source | states |
|---|---|---|
| `Classificador.Interpretar` | app.py:57-63 | total over all integers; 1..5 give their own level, and the result is "Desconhecido" / "inválido ou indisponível" exactly when the index is outside 1..5 |
| `Classificador.RiscoDeterminaIndice` | app.py:57-63 | the risk label read back gives the index for 1..5 and nothing otherwise, so the five labels are pairwise distinct and distinct from "Desconhecido" |
| `Classificador.NiveisDistintos` | app.py:58-62 | two different valid indices have different labels and different recommendations |
| `Classificador.IndiceDoRisco` | app.py:57-63 | a label it recognises names the index whose level carries that label |
| `Cadastro.Str` | app.py:104 | the stored text is empty only for an empty string field |
| `Cadastro.Presente` | app.py:94-98 | a latitude or longitude field passes `all([...])` exactly when it is not missing, null, `false`, `0` or `""` |
| `Cadastro.EmailPresente` | app.py:94-98 | the email passes exactly when it is present and not `""` |
| `Cadastro.CamposCompletos` | app.py:98 | when all three fields pass, the email is non-empty and both coordinates are stored as non-empty strings |
| `Cadastro.PresenteNaoVazio` | app.py:98-104 | a field that passes the `all([...])` check is stored as a non-empty string |
| `Cadastro.Decimal` | app.py:104 | `str()` of an integer field is never empty |
| `Cadastro.Digitos` | app.py:104 | decimal digits only, at least one, no leading zero |
| `Cadastro.DecimalIdaVolta` | app.py:104 | `str()` of an integer reads back to the same integer |
| `Cadastro.DecimalInjetivo` | app.py:104 | distinct integer coordinates are stored as distinct strings |
| `Servico.Banco.constructor` | app.py:192 | a new store has both tables empty, both identifier counters at 1 (so the first subscriber and the first reading get id 1), and satisfies the invariant |
| `Servico.Banco.Registrar` | app.py:92-107 | missing field: 400, nothing changes; known email: 200 "já está registrado", nothing changes; otherwise 201 and exactly one subscriber appended (given email, stringified coordinates, never alerted); the history is untouched and emails stay pairwise distinct |
| `Servico.Banco.AlertaAr` | app.py:114-149 | provider failure: 500 with the error text, nothing changes, nothing sent; otherwise exactly one history row appended with the index and `Interpretar(aqi).risco` (also for out-of-range indices), the reply carries that index, label and advice, and for `aqi >= 1` the subscriber table and the alerts sent are those of the alert rule, for `aqi < 1` neither changes |
| `Servico.Banco.Difundir` | app.py:128-138 | after the loop the subscriber table is the alert rule's table and the alerts handed to the mailer are the rule's notifications, in table order; invariants preserved |
| `Alertas.Atualizar` | app.py:130-137 | a subscriber changes iff it is at the exact coordinate, the index is at least 1, and it was never alerted or last alerted strictly more than six hours ago; then its last alert becomes `agora`; id, email and coordinate never change |
| `Alertas.NaArea` | app.py:128 | a subscriber is in the queried area when both stored coordinate strings equal the request's exactly (no numeric tolerance) |
| `Alertas.ForaDoIntervalo` | app.py:130 | never alerted, or last alerted strictly more than 21600 s before `agora`; a subscriber stamped at `agora` is inside the interval |
| `Alertas.Elegivel` | app.py:127-130 | index at least 1, exact coordinate and outside the interval; an eligible subscriber was not already stamped at `agora` |
| `Alertas.AlertaPara` | app.py:131-136 | the alert goes to the subscriber's email and carries the index, `Interpretar(aqi)`'s label and advice, and the request's coordinate |
| `Alertas.Atualizados` | app.py:128-138 | the table keeps its length and every row is updated independently by the rule above |
| `Alertas.AtualizadosPreservaTabela` | app.py:50 | the fan-out keeps emails unique and identifiers unchanged |
| `Alertas.Notificacoes` | app.py:128-136 | no more alerts than subscribers |
| `Alertas.NotificacaoSse` | app.py:128-136 | an alert is attempted exactly for each eligible subscriber, with its email and the classification of the index |
| `Alertas.AtualizadoSseNotificado` | app.py:136-137 | a subscriber's last-alert time moves iff that subscriber was sent an alert (the stamp does not depend on the send succeeding) |
| `Alertas.NoMaximoUmAlertaPorInscrito` | app.py:129-138 | with unique emails, one fetch sends at most one alert per subscriber |
| `Alertas.SemAlertaAbaixoDoLimite` | app.py:127 | for an index below 1 no subscriber changes and no alert is sent |
| `Alertas.DentroDoIntervalo` | app.py:130-137 | in any table with unique emails, a subscriber last alerted at `t0` is neither changed nor alerted by any fetch at most six hours after `t0`, whatever happened in between |
| `Alertas.IntervaloDeSeisHoras` | app.py:130-137 | a subscriber alerted by one fetch is neither changed nor alerted by any fetch at most six hours later |
| `Alertas.NovoAlertaAposSeisHoras` | app.py:130-137 | more than six hours later, a qualifying fetch at the same coordinate alerts that subscriber again and stamps the new time |
| `Consultas.Inserir` | app.py:154 | inserting into an ordered sequence keeps it ordered and adds exactly that record |
| `Consultas.Ordenar` | app.py:167 | the result is ordered by timestamp in the requested direction and is a permutation of the input |
| `Consultas.Historico` | app.py:152-155 | every stored record, each as often as stored, timestamps non-increasing |
| `Consultas.Janela` | app.py:162-167 | exactly the records with string-equal latitude and longitude and timestamp at or after `agora` minus three hours, each with its multiplicity |
| `Consultas.NaJanela` | app.py:163-166 | a record is in the trend window when both coordinate strings match exactly and its timestamp is at or after `agora` minus 10800 s |
| `Consultas.Comparar` | app.py:174-176 | "Piorando" iff the latest index is higher, "Melhorando" iff lower, "Estável" iff equal; never "insufficient data" |
| `Consultas.Rotulo` | app.py:170-176 | the text reported for each trend (pairwise distinct, by `RotulosDistintos`) |
| `Consultas.TendenciaDe` | app.py:169-176 | an ordered window yields "insufficient data" exactly when it has fewer than two records |
| `Consultas.AnalisarTendencia` | app.py:160-183 | echoes the coordinate and the 3-hour period, reports the window size, and says "insufficient data" exactly when the window has fewer than two records |
| `Consultas.PontasDoOrdenado` | app.py:167-173 | the first and last of the ascending ordering are an earliest and a latest record of the window |
| `Consultas.PontasDistintas` | app.py:172-173 | `[0]` and `[-1]` of a list of two or more are two distinct rows of it |
| `Consultas.CompararPontas` | app.py:172-176 | an ordered window of two or more compares two distinct rows of it, an earliest and a latest: "Piorando" iff the latest index is higher, "Melhorando" iff lower, "Estável" iff equal |
| `Consultas.TendenciaCompara` | app.py:169-176 | with two or more records, the trend compares the indices of two distinct rows of the window, an earliest and a latest: worse, better or equal, whatever order the store gives to equal timestamps |
| `Consultas.EmpateNaoEstavel` | app.py:172-176 | two rows with one timestamp and different indices are never judged "Estável", whichever the store lists first |
| `Consultas.TendenciaDeEmpate` | app.py:162-176 | a window of two readings stored in the same second with different indices gives "Piorando" or "Melhorando", never "Estável" |
| `Consultas.TendenciaDeDuasLeituras` | app.py:169-176 | two readings in the window with indices a then b give "Piorando", "Melhorando" or "Estável" as b is above, below or equal to a (e.g. [1,3], [3,1], [1,1]) |
| `Consultas.RotulosDistintos` | app.py:170-176 | the four trend texts are pairwise distinct |

## Left out

- The provider call (`requests.get`, `raise_for_status`, JSON navigation, app.py:111-119): network I/O; the fetch is a given failure or a given integer index. A non-integer index in the payload is not modelled.
- Mail composition and `mail.send` (app.py:65-87): a foreign call; a send is the `Alerta` value, and its success or failure is not represented because it changes nothing.
- Flask routing, `jsonify`, `request.json` and SQLAlchemy sessions and queries: replaced by in-memory sequences and reply datatypes. A database failure (the 500 replies of the listing and the trend, or a commit failing part-way through the fan-out) is not modelled.
- `Servico.Banco.Difundir`: the source first selects the matching subscribers and then loops over them; the model loops over the whole table with the coordinate test inside the loop, which has the same effect on every row. The query at app.py:128 has no `order_by`, so the source does not fix the order in which alerts are sent; the model fixes it to table order, and only the order of the returned alerts depends on that choice.
- The clock: `datetime.utcnow()` is the parameter `agora` in seconds. The source reads the clock for the history row's default timestamp (app.py:35, at the commit of app.py:124) and, inside the loop, once per matching subscriber that was alerted before (app.py:130; the `or` skips the read for one never alerted) and once per alerted one (app.py:137); the model uses one `agora` for all of them. Sub-second resolution is not modelled.
- Identifiers: the store's auto-increment is a counter starting at 1.
- Timestamp formatting in `to_dict` (`isoformat() + 'Z'`, app.py:43): library formatting; the listing returns the records themselves.
- Non-string JSON values for `email`, floating-point latitude or longitude, and bodies that are not JSON objects: the model covers a string or missing email and boolean, integer, string, null or missing coordinates.
- The `String(20)`/`String(120)` column widths: not enforced by the SQLite store the service uses.
- Startup (`load_dotenv`, configuration, `db.create_all`, `app.run`): environment plumbing; the constructor stands for a freshly created, empty database. (app.py:11 names `load_dotenv` without calling it; Flask's `app.run` loads the `.env` file itself. Either way this touches only configuration.)
- Timestamps that grow with identifiers: the source stamps each history row with the clock, and nothing in it keeps the clock monotonic, so the model does not make this an invariant; the listing and the trend sort by timestamp themselves.
- The order of records with equal timestamps in the listing and the trend: left unspecified by the store, so no contract depends on it.
- Concurrency between requests: each request runs to completion in the model.
