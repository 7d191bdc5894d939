# LeafBot core, modelled in Dafny

LeafBot diagnoses plant diseases from a photo and a short description. Its Python code has
three small pieces of sequential logic around PyTorch, PIL, Cohere and Django. This project
models those three pieces and proves properties about them.

- **The classifier cache and ranking** (`leafbot_project/services/inference.py`).
  `load_model` fills the module globals `_model` and `_class_names` lazily, one step at a
  time. `predict_image` turns the network's probability vector into three
  `{label, score}` records.
- **The chat prompt service** (`leafbot_project/services/google_ai_service.py`).
  `query_gemini` picks the text, builds the chat message and calls the encoder, embed and
  chat endpoints. It returns the reply, or a string starting with `Error:`: one of two fixed
  messages, or `Error: ` followed by the chat exception.
- **The diagnosis endpoint** (`leafbot_api/views.py`). `DiagnoseView.post` validates the
  form, calls the service and sorts its reply. It answers 400 or 500, or it stores a chat
  log record and returns it.

Every library step is an oracle parameter. Each oracle either yields a value or raises an
exception. These steps are `torch.load`, building the network, `eval`, decoding the image,
the forward pass with softmax, image encoding, `co.embed`, `co.chat` and the database
insert. A raised exception is represented by its `str()`. `log_error` is modelled as
appending a `(kind, message)` entry to a log sequence that every operation threads through.

Files:

- `outcomes.dfy`: optional values, exceptions, and results that may raise.
- `error_log.dfy`: the error log of `logger.py`.
- `text.dfy`: `str.strip()` with Python's whitespace set, and the substring test `t in s`.
- `ranking.dfy`: the contract of `topk`, and one concrete selection proved to meet it.
- `inference.py` is modelled in `inference.dfy`.
- `google_ai_service.py` is modelled in `cohere_service.dfy`.
- `views.py` is modelled in `diagnose_view.dfy`. This file also holds the facts that combine
  the view with the service.

### Behaviour of the code worth knowing

- **A late load failure is not retryable.** The code assigns `_model` before
  `load_state_dict` and `eval` (inference.py:56-58). A failure at either step, including a
  checkpoint that lacks `model_state_dict`, leaves a network in the cache that is not fully
  loaded. Every later call returns that network without reading the checkpoint again
  (`Inference.LateFailureIsPermanent`, `Inference.PoisonedCacheExample`). Because `eval`
  never ran, the network is still in training mode. The `BatchNorm1d(512)` of its head
  (inference.py:25) then raises on the batch of one image built at inference.py:74, so every
  later prediction fails (`Inference.LateFailureBreaksPrediction`). Failures before `_model` is
  assigned leave it as `None` and can be retried (`Inference.EarlyFailureIsRetried`).
- **Fewer than three classes.** `torch.topk(p, 3)` raises when `p` has fewer than three
  entries, so no shorter list is ever returned. torch promises no order among equal
  probabilities, so the contracts leave that order open.
- **Errors are logged and raised again.** `load_model` and `predict_image` log each
  exception and re-raise it; a load failure inside a prediction is therefore logged twice.
- **No lock.** `load_model` takes no lock, so two callers arriving together may both load.
  The model is sequential.

## Model

| member | source | states |
|---|---|---|
| `Text.Strip` | leafbot_api/views.py:14 | `strip()` removes only leading and trailing whitespace. The result is a contiguous slice of the input and neither starts nor ends with whitespace. It is empty exactly when the input is all whitespace. |
| `Text.ContainsIff` | leafbot_api/views.py:34 | Python's `t in s` holds exactly when `t` occurs at some position of `s`, not only at its start. |
| `Ranking.TopK` | leafbot_project/services/inference.py:80 | The selection `topk(p, k)` gives `k` distinct valid positions with non-increasing values. No position left out has a larger value than a selected one. |
| `Inference.BindWeights` | leafbot_project/services/inference.py:57 | Strict `load_state_dict` succeeds exactly when the state dict is present, fits the backbone, and has a head with one output per class. Success marks the weights as bound. A missing `model_state_dict` raises `'model_state_dict'`; a present one that does not fit raises the mismatch error. |
| `Inference.LoadModel` | leafbot_project/services/inference.py:49-62 | A cached model is returned with the cache and log unchanged. A successful load logs nothing, leaves the returned pair in the cache, and builds the network with one output per class name. A failure appends exactly one `ModelLoadError` entry naming the exception that was raised again. The cache invariant is preserved. |
| `Inference.CachedLoadSkipsCheckpoint` | leafbot_project/services/inference.py:49-62 | Once `_model` is set, the result does not depend on the checkpoint oracle at all. It is the stored pair, and nothing changes. |
| `Inference.LoadIsIdempotent` | leafbot_project/services/inference.py:49-62 | After a successful load, a further call with any oracle returns the same pair, cache and log. |
| `Inference.FreshLoadOutcome` | leafbot_project/services/inference.py:52-58 | From an unfilled cache, a load succeeds exactly when every step succeeds. It then returns a network with one output per checkpoint class, its weights bound and in evaluation mode, together with the checkpoint's own class list. |
| `Inference.FailedLoadState` | leafbot_project/services/inference.py:51-61 | After a failed load, the model slot is empty exactly when the failure came before `_model` was assigned. Otherwise the slot holds a model that is not fully loaded. The exception raised is the failing step's own: the read error, `'class_names'`, the build error, `'model_state_dict'`, the mismatch error, or the `eval` error. A build failure leaves `_class_names` set; a binding failure leaves the network with its weights not marked as loaded, and an `eval` failure the bound network outside evaluation mode. |
| `Inference.EarlyFailureIsRetried` | leafbot_project/services/inference.py:51-56 | A failure in reading the checkpoint, in its `class_names` field, or in building the network can be retried. The next call reads the checkpoint again and succeeds if every step then succeeds. |
| `Inference.LateFailureIsPermanent` | leafbot_project/services/inference.py:56-58 | A failure in `load_state_dict` or `eval` is permanent. Every later call returns the half-loaded model, whatever the checkpoint holds by then. |
| `Inference.PoisonedCacheExample` | leafbot_project/services/inference.py:53-58 | A concrete scenario. A checkpoint lacking `model_state_dict` raises `'model_state_dict'` and logs it. A later call with a complete checkpoint returns a network with no weights bound. |
| `Inference.Rank` | leafbot_project/services/inference.py:80-85 | Fewer than three probabilities raise the `topk` range error. With at least as many class names as probabilities, ranking succeeds. A successful ranking lists, for some valid top-3 selection and in its order, each class name with its probability. |
| `Inference.Forward` | leafbot_project/services/inference.py:74-78 | The forward pass on one image succeeds only on a network in evaluation mode, where its outcome is the forward pass's own, value or exception; a network left in training mode raises the batch-norm error of its head. |
| `Inference.PredictImage` | leafbot_project/services/inference.py:64-88 | The cache after a prediction is the one the load left behind. A success needs a network in evaluation mode, logs nothing, and returns the records of a top-3 selection of the forward pass's probabilities. A network left in training mode makes every decodable image fail; on a network in evaluation mode a forward-pass exception is the one raised again. Every failure appends one `PredictionError` entry naming the exception that was raised again. |
| `Inference.PredictionShape` | leafbot_project/services/inference.py:80-85 | A successful result has exactly three records with non-increasing scores. Each label is a class name, and its score is that class's probability. The first score is the largest probability. Every class whose probability exceeds the last score appears in the result. |
| `Inference.PredictionOutcome` | leafbot_project/services/inference.py:80 | On a network in evaluation mode, with one probability per class and at least three classes, prediction succeeds. With fewer than three probabilities it raises and logs, and never returns a shorter list. |
| `Inference.LateFailureBreaksPrediction` | leafbot_project/services/inference.py:56-77 | After a failure in `load_state_dict` or `eval`, every later prediction raises and logs a `PredictionError`; when the image decodes, the exception is the head's batch-norm error. The cache keeps the half-loaded network. |
| `Inference.LoadFailureLoggedTwice` | leafbot_project/services/inference.py:86-88 | A load failure inside `predict_image` is raised again unchanged and logged twice, first as `ModelLoadError` and then as `PredictionError`. |
| `Inference.DecodeFailureKeepsCache` | leafbot_project/services/inference.py:73 | An image that cannot be decoded fails only that call. The loaded cache stays, and the next load returns the same model without reading the checkpoint. |
| `Inference.ThreeClassExample` | leafbot_project/services/inference.py:80-85 | For classes healthy, blight and rust with probabilities 0.70, 0.20 and 0.10, every valid top-3 ranking yields exactly those three records in that order. |
| `CohereService.Configure` | leafbot_project/services/google_ai_service.py:10-15 | The key is `COHERE_API_KEY` stripped: the slice of the variable between an all-whitespace start and end, itself not starting or ending with whitespace. It is empty exactly when the variable is unset or all whitespace, and exactly then a `ConfigError` is logged. |
| `CohereService.ImageToBase64` | leafbot_project/services/google_ai_service.py:18-27 | The result is `None` exactly when encoding raised, and that failure is logged as `ImageEncodingError`. Otherwise the result is the encoding, and nothing is logged. |
| `CohereService.UserText` | leafbot_project/services/google_ai_service.py:40-43 | `user_text` wins when non-empty. Otherwise `description` is used when non-empty, and when both are empty the placeholder `No description provided`. The chosen text is never empty. |
| `CohereService.Chat` | leafbot_project/services/google_ai_service.py:77-86 | The chat call always receives the message. A reply is returned as is. An exception becomes `"Error: " + str(e)` and is logged as `CohereAPIError`. |
| `CohereService.ImageRequest` | leafbot_project/services/google_ai_service.py:52-74 | The image is always encoded. Embedding and chat happen exactly when the encoding is a non-empty string. Otherwise the reply is the fixed image-failure string. The message sent is the prompt followed by the caption block. The log only grows, and a failed embedding adds a `CohereEmbedError` entry naming its exception first. |
| `CohereService.QueryGemini` | leafbot_project/services/google_ai_service.py:30-86 | With an empty key the reply is the fixed key error and no call is made. Otherwise chat is called exactly when there is no image or the encoding is usable, and the message is the preamble, the chosen text and the caption when an image was given. A chat reply is returned. A chat exception becomes `Error: ...`. Every reply not written by the chat model starts with `Error: `. |
| `CohereService.SentMessageShape` | leafbot_project/services/google_ai_service.py:46-80 | The chat message starts with the expert preamble, which ends with `Respond in {language}.` and a blank line. The text that follows is the chosen text, plus the caption block exactly when an image was given. |
| `CohereService.EmbedFailureOnlyLogged` | leafbot_project/services/google_ai_service.py:59-66 | A failed embedding changes neither the message sent nor the reply. It only adds one `CohereEmbedError` entry with `Image embedding failed: ` and the exception, before the rest of the log, which is otherwise unchanged. |
| `CohereService.ErrorReplyContainsMarker` | leafbot_project/services/google_ai_service.py:84-86 | A reply that starts with `Error: ` contains the marker `Error:` that the view tests for. |
| `DiagnoseView.ShownText` | leafbot_api/views.py:26 | The stripped text when non-empty; when it is empty, the placeholder `No description provided` is substituted. It is never empty. |
| `DiagnoseView.Description` | leafbot_api/views.py:26-27 | The description starts with the shown text. It is longer than that text, and it is never the service's placeholder. |
| `DiagnoseView.Post` | leafbot_api/views.py:13-52 | The status is 200, 400 or 500. A 400 happens exactly when there is no image and the text is only whitespace; the service is then not called and nothing is stored. Otherwise the service gets the view's description and no `user_text`. A reply containing `Error:` anywhere gives 500 with nothing stored. A failed insert gives 500 with the exception's details. The answer is 200 exactly when the request is non-empty, the reply has no `Error:` and the insert succeeds. Exactly one record is stored exactly on 200; it holds the shown text, the image and the reply, and it is returned. |
| `DiagnoseView.ServicePlaceholderUnreachable` | leafbot_api/views.py:26-33 | The description the view sends is never empty, so the service's own placeholder is unreachable from this view. The message sent asks for the language twice. |
| `DiagnoseView.LanguageDefaultsToEn` | leafbot_api/views.py:15 | Without a `language` field, the chat message asks for a response in `en`. |
| `DiagnoseView.ServiceFailuresAre500` | leafbot_api/views.py:34-37 | Every failure the service reports as a string ends in a 500 with nothing stored. This includes the missing API key, an image failure and a chat exception. |
| `DiagnoseView.MarkerInsideReplyIs500` | leafbot_api/views.py:34-37 | A successful chat reply that mentions `Error:` anywhere in it, with or without an image, is still treated as a failure. The answer is 500 and nothing is stored. |

## Left out

- Network architecture, forward pass and softmax (inference.py:8-41, 76-78): floating-point
  tensor maths inside torch. The probability vector of a network in evaluation mode is an
  opaque `seq<real>` returned by an oracle. Whether it has one entry per class is an
  assumption of the lemmas that need it. Of training mode, only the batch-norm error on a
  batch of one is modelled.
- Inference.PredictImage: scores are the unrounded probabilities, because `round(..., 4)`
  works on binary floating point. Rounding is monotone, so the ordering facts still hold
  for the rounded scores.
- Inference.PredictImage: which of several equal probabilities `topk` picks, and in which
  order, is left open. `Ranking.TopK` is one valid choice; the contracts hold for any.
- Image decoding, resizing and normalisation (inference.py:67-74): PIL and torchvision.
  They form one opaque step that may raise.
- `torch.load`, building the network and `eval`: oracle outcomes. `load_state_dict` is
  reduced to "the state dict is present, fits the backbone, and has one head output per
  class". Its real error text is shortened to the first line's opening clause, up to the colon.
- Python exception types (`KeyError`, `RuntimeError`, `IndexError`): an exception is
  represented only by its `str()`.
- Concurrency: `load_model` has no lock, so the model is sequential.
- Cohere client construction, the model names passed to `co.embed` and `co.chat`, and the
  discarded embedding result: network calls, represented by oracle outcomes. PNG and
  base64 encoding are one oracle that yields a string or raises.
- A chat response whose `text` is `None`: the oracle always yields a string. In the code,
  `"Error:" in None` would raise `TypeError`, which would become a 500 "Internal server
  error".
- `logger.py`: timestamps, upper-casing of the kind, the session start and end lines, and
  the file appends. A log entry is the `(kind, message)` pair passed in.
- `models.py`, `serializers.py`, `urls.py`, `tests.py`: Django declarations and routing. A
  stored `ChatLog` has no database id or timestamp. The response body is the record itself
  rather than its serialised dictionary. The store is a sequence that records are appended to.
- Python `None` and `""` for `description` and `user_text` are both written `""`, because
  the code only tests whether they are truthy. An uploaded image counts as present when
  the field exists. Django's rule that a file with an empty name is falsy is not modelled.
- The default `language="English"` of `query_gemini`: the view always passes a language,
  so the model's `QueryGemini` takes the language as a required argument.
