# Cyber-law assistant: a Dafny model of the prediction pipeline

This project models the sequential logic of the cyber-law assistant's `app.py`.
A free-text legal query is normalised and classified into a Section of the Indian cyber-law reference table.
The first table row with that Section supplies the offense, punishment and case type.
A generative-text provider is asked for the legal procedure.
The five fields are assembled into a record and written as the content of a report at one fixed path.

The classifier (a TF-IDF vectoriser followed by a logistic regression) is abstract.
It is represented by its class list, which is the distinct training labels, and an uninterpreted choice among those classes.
So "a prediction is always a training label" is a theorem of the model, not an assumption.
The text provider is a parameter that either responds, returns nothing, or raises with a message.

Modules, one per component, in dependency order:

- `Wrappers` (`wrappers.dfy`): `Option` and `Result`.
- `TextNormalizer` (`text_normalizer.dfy`): `clean_text` over ASCII text.
- `LawTable` (`law_table.dfy`): table rows, the training corpus, and the first-row lookup.
- `Classifier` (`classifier.dfy`): training, prediction, and the train-if-absent model cache.
- `Procedure` (`procedure.dfy`): the prompt and the error-absorbing procedure fetcher.
- `Orchestrator` (`orchestrator.dfy`): `predict_law` and the record it returns.
- `Report` (`report.dfy`): the report's content sequence, and a parser proving it loses nothing.
- `Service` (`service.dfy`): the `/predict` handler's query guard, answers and report overwrite.

Points where the code's behaviour is easy to misread:

- `clean_text` is idempotent even though runs of separators are not collapsed: spaces, lowercase letters, digits and `_` are fixed points (`TextNormalizer.CleanTextIdempotent`).
- The fetcher tests only whether the response object is truthy. A truthy response with empty `.text` is returned verbatim as an empty procedure (`Procedure.GetLegalProcedure`).
- Section values may repeat in the table; the first matching row is used (`LawTable.Lookup`).
- The report uses the core font "Arial", which encodes only Latin-1. A record value with any other character makes `generate_pdf` raise, and the request is answered with a server error (`Report.GeneratePdf`, `Service.HandlePredict`).

## Model

| member | source | states |
|---|---|---|
| TextNormalizer.CleanText | app.py:110-113 | output has the input's length and lies in `[a-z0-9_ ]`; a position holds a space exactly when the input character is not a word character; uppercase letters become their lowercase letter; other word characters are kept |
| TextNormalizer.CleanTextFixesNormalized | app.py:110-113 | text already in `[a-z0-9_ ]` is left unchanged |
| TextNormalizer.CleanTextIdempotent | app.py:110-113 | normalising twice equals normalising once |
| TextNormalizer.CleanTextAppend | app.py:110-113 | normalisation distributes over concatenation, since it works character by character |
| TextNormalizer.SeparatorRunIsKept | app.py:112 | for all texts, a run of non-word characters between two texts becomes exactly as many spaces and is not collapsed |
| LawTable.Corpus | app.py:115-120 | one training example per table row, labelled with that row's Section |
| LawTable.CorpusLabelsAreSections | app.py:115-120 | the set of training labels equals the set of Section values in the table |
| LawTable.CorpusTextShape | app.py:107-115 | each training text is the normalised Section, three spaces (from " - "), and the normalised Offense |
| LawTable.Matching | app.py:147 | the boolean-mask selection holds table rows with the Section, and every such row |
| LawTable.FirstIndex | app.py:147 | the first index carrying the Section, or none exactly when no row carries it |
| LawTable.MatchingHeadIsFirst | app.py:147 | the selection is non-empty exactly when a first index exists, and its head is the row at that index |
| LawTable.Lookup | app.py:147 | `iloc[0]` succeeds exactly when the Section is in the table, returns the first row carrying it, and otherwise fails with the missing Section |
| Classifier.Distinct | app.py:125 | the fitted classes are the labels without repetition, and as many as there are distinct labels |
| Classifier.Train | app.py:119-125 | fitting succeeds exactly when there are at least two distinct labels; the classes are exactly the training labels |
| Classifier.Predict | app.py:145 | a prediction is always one of the fitted classes |
| Classifier.TrainedOnTablePredictsSections | app.py:119-145 | training on a table's corpus succeeds exactly when the table has two distinct Sections, and the pipeline then only predicts Sections of that table |
| Classifier.LoadOrTrain | app.py:117-131 | a stored artifact is loaded unchanged without training; an absent one is trained, saved and loaded, or training fails |
| Classifier.SecondStartupLoadsFirstModel | app.py:118-131 | a second start-up loads the first start-up's model whatever corpus it is given, so training happens at most once and the cache is never invalidated |
| Classifier.FreshStartupIsConsistent | app.py:118-131 | start-up from an empty cache, on a table with two distinct Sections, succeeds and yields a pipeline whose predictions are all Sections of the table |
| Procedure.Prompt | app.py:136 | the prompt is the fixed question prefix, the Section, then " under Indian Cyber Law?" |
| Procedure.PromptSection | app.py:136 | a recovered Section re-forms the prompt it came from |
| Procedure.PromptRoundTrip | app.py:136 | the Section can be read back from its prompt, so distinct Sections get distinct prompts |
| Procedure.GetLegalProcedure | app.py:134-140 | always returns text: the response text verbatim, "No procedure found." for a falsy response, or "Error retrieving procedure: " followed by the exception message |
| Procedure.ProcedureDependsOnlyOnPrompt | app.py:136-138 | the procedure depends on the provider only through its answer to that Section's prompt |
| Orchestrator.PredictLaw | app.py:143-157 | succeeds exactly when the predicted Section is in the table, else fails with that Section; the record's keys are Section, Offense, Punishment, Case Type, Procedure in that order; Section is the prediction for the normalised query; the middle three fields come from the first row with that Section; Procedure is the fetcher's text |
| Orchestrator.FreshModelAlwaysFindsRow | app.py:145-147 | with a pipeline freshly trained on a table with two distinct Sections, every query finds its row |
| Orchestrator.SameNormalFormSameLookup | app.py:144-155 | queries with the same normal form succeed or fail together and get the same Section, Offense, Punishment and Case Type, whatever each request's provider answers |
| Orchestrator.SameNormalFormSameRecord | app.py:144-157 | queries with the same normal form get the same record when the two requests' providers answer the predicted Section's prompt alike |
| Report.ReportLines | app.py:166-171 | the title first, then one "key: value" block per field, in record order |
| Report.GeneratePdf | app.py:160-176 | succeeds exactly when every block is Latin-1, emitting exactly the title and blocks and returning the fixed report path; otherwise raises at the first block the core font cannot encode |
| Report.ParseEntry | app.py:170 | a block read back re-forms the same block, with a key that has no ':' |
| Report.ReportRoundTrip | app.py:166-171 | a record whose keys contain no ':' is recovered intact from its report content |
| Report.PredictedRecordRoundTrips | app.py:151-171 | every record with the predicted key order is recovered intact from its report |
| Service.QueryOf | app.py:187-188 | a truthy body that is not an object raises; a truthy object's "query" entry is returned exactly when present; otherwise there is no query |
| Service.HandlePredict | app.py:186-200 | the answer is 400 "No query provided" exactly when the query is missing or falsy; for a non-empty text query it is success exactly when `predict_law` succeeds and its record renders, 500 with the lookup error when no row matches, and 500 when rendering raises; a success carries exactly `predict_law`'s record, "Prediction successful" and the fixed report path; only a success rewrites the report file, to that record's report |
| Service.RejectionIgnoresPipeline | app.py:190-193 | a missing or empty query gets the same 400 answer whatever the pipeline, so the prediction never runs for it |
| Service.EmptyQueryIsRejected | app.py:190-191 | an empty string query is answered with the 400 error and leaves the report file alone |
| Service.SuccessCarriesPrediction | app.py:193-200 | for the body `{"query": q}` with q's predicted Section in the table: a renderable record is answered with exactly `predict_law`'s record and the written report reads back to it; otherwise the answer is 500 and the report file is kept |
| Service.LastReportWins | app.py:173-175 | neither the answer nor the report written depends on the earlier report file, so after two successful requests only the second one's report remains |

## Left out

- TextNormalizer.CleanText: requires ASCII input. Unicode `str.lower()` can change the length of a string, and Unicode `\W` treats non-ASCII letters as word characters; neither is modelled.
- Orchestrator.PredictLaw: requires an ASCII query, for the same reason. LawTable.Corpus likewise requires ASCII Section and Offense columns.
- Service.HandlePredict: requires the query to be ASCII when it is a string. JSON numbers are integers; floats are not modelled.
- TF-IDF weighting and logistic-regression fitting and scoring: library numerics and floating point. Fitting is an uninterpreted `Fit`, and prediction is an uninterpreted choice among the fitted classes.
- Classifier.Train: models only one library refusal, fewer than two distinct labels. It does not model the vectoriser's empty-vocabulary error.
- Classifier.Distinct: the library sorts its classes, and the model does not. The choice among classes is uninterpreted, so the order has no observable effect.
- Model persistence with joblib and the file-system checks: the cache is the `Artifact` value, and a save followed by a load returns the same pipeline. A missing dataset file and CSV parsing (`FileNotFoundError`, `read_csv`, `astype(str)`) are I/O; table cells are already strings.
- The Gemini client configuration and the network call: the provider is a parameter. The API-key check at start-up is configuration.
- The order of calls is not observable in a pure model. Lookup happens before the procedure call, so a missing row ends the prediction first, but no call trace is recorded.
- FPDF page setup, font metrics, cell geometry, automatic page breaks and the blank line after each block: layout in float units. The report is modelled as its sequence of text blocks. The core font's Latin-1 limit is modelled.
- Report.GeneratePdf: a rendering failure leaves the previous report file in place, as when FPDF refuses the block before writing. Library versions that fail only while writing the file may leave a truncated file; that is not modelled.
- Service.HandlePredict: `request.get_json()` itself refuses a body that is not JSON (the front end in script.js posts form-encoded data). A body of `None` stands for a request without JSON data; the refusal answers are not modelled.
- Service.HandlePredict: `jsonify` sorts the keys of `data` when it serialises the answer. The record order the model states is the dictionary's order before serialisation; JSON serialisation is not modelled.
- Flask routing, login, registration, logout, the user database and password hashing: web and authentication plumbing. The `/download_report` route is file I/O.
- Concurrency: concurrent requests racing on the shared report path are not modelled. Sequential overwrite is (`Service.LastReportWins`).
- script.js: browser UI code with no model logic.
