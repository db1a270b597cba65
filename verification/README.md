# maisFit core in Dafny

A model of the logic at the heart of the maisFit diet-tracking app, with proofs about it:

- **Profile metrics and form** (`src/viewmodels/useProfileViewModel.ts`):
  - the basal metabolic rate ("TMB") by the Mifflin–St Jeor equation;
  - the activity-factor table and the suggested daily intake, which takes a fixed 500 kcal deficit and never goes below 1200 kcal;
  - the ordered validation of the profile form;
  - single-field form updates;
  - the validation and payload part of saving the profile.
- **Meal-image upload** (`src/services/imageService.ts`):
  - the file extension, storage key and content type;
  - the chain upload → insert image row → consume quota → classify → update status.
- **Quota consumption** (`src/services/quotaService.ts`): how the `consume_user_quota` remote procedure's `{ data, error }` answer is read as granted or refused.

Everything is pure functions over immutable datatypes:

- `wrappers.dfy`: `Option`, for `null`/`undefined`. `GetOr` is the `??` operator. `Thrown` is a caught exception, whose `message` may be absent.
- `jstext.dfy`: the JavaScript string operations the core uses. These are `trim`, `split('.')` followed by `pop()`, and the decimal rendering of `Date.now()` in a template literal.
- `profile.dfy`: the `Profile` module.
- `quota.dfy`: the `Quota` module.
- `upload.dfy`: the `ImageUpload` module. A run of `uploadMealImage` is a function of a `Collaborators` record. That record holds:
  - the clock value;
  - the random identifier;
  - the outcomes of the fetch, storage upload, row insert, quota procedure and classifier;
  - whether the final status update took effect.

  A run returns three things: the `UploadResult`, the trace of calls made (`Effect`s), and the image row as it stands afterwards.

The row's life cycle is a small automaton (`Next`/`Replay`):

- the status leaves `uploaded` only for `done` or `failed`;
- nothing follows a status update;
- classification happens only right after a quota call that granted the unit, and the quota call is always the fourth call.

Every run's trace is proved to follow this automaton.

Arithmetic is exact: JavaScript numbers are Dafny `real`s, and `Math.round(x)` is `(x + 0.5).Floor`. A falsy number is `null`, `undefined` or `0`.

Facts about the code that the model makes explicit:

- For 82 kg, 175 cm, 30 years the equation gives 1769 (male) and 1603 (female) (`Profile.TMBExample`).
- An activity level outside the four is not defaulted to sedentary: the code falls back only for an unset level (`''` or absent). The form's type admits no other value, and `ActivityLevel` has exactly the four levels.
- The `'jpg'` fallback extension is dead, because `split` always returns at least one piece (`ImageUpload.FallbackExtensionIsDead`). A URI without a dot keeps the whole URI as its "extension".
- The row stays `uploaded` when the final status update does not take effect, because the code ignores that update's outcome. `UploadMealImage` states both cases through `updateApplied`.
- The comment in `quotaService.ts` says a truthy response is accepted. The code accepts only `true` or an array whose first element is `true` (`Quota.GrantedIsStricterThanTruthy`).
- `quota.error ?? 'Sem quota para classificação'` never uses its fallback. A refused `consumeQuota` always carries a message: the database error's, `'Sem saldo de quota'` or the exception's. `ImageUpload.QuotaDeniedPath` returns that message.
- The name's `length` counts UTF-16 code units, so a name of one astral-plane character such as an emoji is two long and passes the name check (`Profile.AstralNameIsLongEnough`).
- In `calculateTMB`, the final `return null` after the two gender tests cannot be reached. The empty gender is falsy and returns earlier, and `Gender` has no fourth value.

## Model

| member | source | states |
|---|---|---|
| JsText.Utf16Length | src/viewmodels/useProfileViewModel.ts:146 | `length` counts UTF-16 code units: at least the number of characters and at most twice it |
| JsText.Utf16LengthAppend | src/viewmodels/useProfileViewModel.ts:146 | the code-unit length of a concatenation is the sum of the lengths |
| JsText.Utf16LengthWithoutAstral | src/viewmodels/useProfileViewModel.ts:146 | the code-unit length equals the number of characters exactly when no character lies outside the Basic Multilingual Plane |
| JsText.Utf16LengthOfOneCharacter | src/viewmodels/useProfileViewModel.ts:146 | one astral-plane character is two code units, any other character one |
| JsText.Trim | src/viewmodels/useProfileViewModel.ts:146 | `trim()` yields the infix between the leading and trailing white space (ECMAScript's set); its ends are not white space; it is empty exactly when the whole string is white space |
| JsText.Split | src/services/imageService.ts:22 | `split('.')` yields at least one piece and no piece contains the separator |
| JsText.JoinSplit | src/services/imageService.ts:22 | joining the pieces of a split with the separator restores the string |
| JsText.SplitJoin | src/services/imageService.ts:22 | splitting the join of separator-free pieces restores the pieces |
| JsText.LastPieceIsTextAfterLastSeparator | src/services/imageService.ts:22 | `split('.').pop()` is the text after the last dot: a dot-free suffix preceded by a dot, or the whole string exactly when it has no dot |
| JsText.ParseDecimalOfDecimal | src/services/imageService.ts:23 | the decimal rendering of the timestamp in the key loses nothing: it reads back as the same number |
| Profile.DefaultFormIsEmpty | src/viewmodels/useProfileViewModel.ts:25-34 | every field of `defaultForm` is empty: `''`, the unset gender or `null` |
| Profile.OnlyEmptyFormIsDefault | src/viewmodels/useProfileViewModel.ts:25-34 | a form whose every field is empty is `defaultForm` |
| Profile.ActivityFactorTable | src/viewmodels/useProfileViewModel.ts:37-42 | `activityFactors` maps sedentary, light, moderate and active to 1.2, 1.375, 1.55 and 1.725, each level's factor strictly above the previous one's |
| Profile.Round | src/viewmodels/useProfileViewModel.ts:62-63 | `Math.round(x)` is the integer within half a unit of `x`, halves rounding up |
| Profile.CalculateTMB | src/viewmodels/useProfileViewModel.ts:59-65 | null exactly when weight, height or age is missing or zero, or gender is unset; otherwise within half a unit of 10w + 6.25h − 5a + 5 (male) or − 161 (female) |
| Profile.MaleFemaleGap | src/viewmodels/useProfileViewModel.ts:61-63 | for the same weight, height and age, the male rate exceeds the female rate by exactly 166 |
| Profile.TMBExample | src/viewmodels/useProfileViewModel.ts:61-63 | 82 kg, 175 cm, 30 years give 1769 (male) and 1603 (female) |
| Profile.SuggestDailyCalories | src/viewmodels/useProfileViewModel.ts:71-80 | deficit is 500; maintenance is the rate times the level's factor (sedentary when unset), rounded; suggested ≥ 1200, and suggested = maintenance − 500 exactly when maintenance ≥ 1700, otherwise 1200 |
| Profile.SuggestionMonotoneInTMB | src/viewmodels/useProfileViewModel.ts:72-77 | a higher basal rate never gives a lower maintenance or suggestion |
| Profile.SuggestionMonotoneInActivity | src/viewmodels/useProfileViewModel.ts:37-42 | the factors 1.2 < 1.375 < 1.55 < 1.725 order the levels: for a non-negative rate a more active level never gives a lower maintenance or suggestion |
| Profile.SuggestionExamples | src/viewmodels/useProfileViewModel.ts:71-80 | 1600 sedentary gives 1920/1420/500, 1600 active gives 2760/2260, unset equals sedentary, 800 sedentary hits the 1200 floor |
| Profile.DeriveMetrics | src/viewmodels/useProfileViewModel.ts:89-91 | the screen's rate is `calculateTMB` of the form and the age, missing exactly when an input is falsy; suggestions exist exactly when the rate is present and non-zero, are then `suggestDailyCalories(tmb, activity_level)` and at least 1200 |
| Profile.FirstFailing | src/viewmodels/useProfileViewModel.ts:145-153 | reference for an ordered list of checks: none when all pass, otherwise a failing check all of whose predecessors pass |
| Profile.NoFailingCheckMeansAllPass | src/viewmodels/useProfileViewModel.ts:145-153 | the check order lists every check, so no failing check in that order means every check passes |
| Profile.Validate | src/viewmodels/useProfileViewModel.ts:145-153 | no message exactly when every check passes (trimmed name at least 2 UTF-16 code units, gender male/female, birthdate non-empty, height > 0, weight > 0, level set); otherwise the message of the first failing check in that order |
| Profile.SampleFormIsValid | src/viewmodels/useProfileViewModel.ts:145-153 | a form with a two-letter name, a 1 cm height and every other field set passes |
| Profile.NameLengthBoundary | src/viewmodels/useProfileViewModel.ts:146 | a one-letter name, with or without surrounding spaces, is rejected with the name message |
| Profile.AstralNameIsLongEnough | src/viewmodels/useProfileViewModel.ts:146 | a name of one emoji (U+1F600) is two code units long and the otherwise valid form passes |
| Profile.HeightBoundary | src/viewmodels/useProfileViewModel.ts:149 | a 0 cm height is rejected with the height message, and the name check still comes first |
| Profile.DefaultFormIsInvalid | src/viewmodels/useProfileViewModel.ts:25-34 | the default form fails on the name and has no rate or suggestions |
| Profile.ValidFormHasTMB | src/viewmodels/useProfileViewModel.ts:145-153 | a form that passes validation has a basal rate for every non-zero age |
| Profile.FormExtensionality | src/viewmodels/useProfileViewModel.ts:14-23 | two forms agreeing on every key are equal |
| Profile.SetField | src/viewmodels/useProfileViewModel.ts:140-142 | the key gets the value and every other key keeps its old value |
| Profile.SetFieldToCurrentValue | src/viewmodels/useProfileViewModel.ts:140-142 | writing a field's current value back leaves the form unchanged |
| Profile.SetFieldLastWriteWins | src/viewmodels/useProfileViewModel.ts:140-142 | of two writes to one key, the second wins |
| Profile.SetFieldCommutes | src/viewmodels/useProfileViewModel.ts:140-142 | writes to different keys commute |
| Profile.SaveThenLoad | src/viewmodels/useProfileViewModel.ts:181-192 | the upsert payload copies every form field verbatim (`preferences` null when absent): loading it back as the profile loader does yields the same form |
| Profile.SaveProfile | src/viewmodels/useProfileViewModel.ts:156-211 | a validation failure returns false with its message and makes no remote call; otherwise it asks for the user first; true exactly when validation passes, a user is signed in and the upsert succeeds; false always leaves an error message: `Usuário não autenticado` with only the user lookup made when no user is signed in, the exception's message or `Erro ao salvar perfil` when the lookup throws (again with only the lookup made), and the upsert's error or exception message or `Erro ao salvar perfil` when the upsert fails; the only upsert carries the form's fields, the user id, the save time and conflict target `user_id` |
| Quota.ConsumeQuota | src/services/quotaService.ts:17-42 | calls `consume_user_quota` with the arguments unchanged; ok exactly when no error and data is `true` or an array whose first element is `true`; an RPC error gives its message, other data `Sem saldo de quota`, an exception its message or `Erro desconhecido` |
| Quota.GrantedIsStricterThanTruthy | src/services/quotaService.ts:34-38 | a granted response is truthy, but `[false]`, `1` and `"true"` are truthy and refused |
| Quota.ResponseExamples | src/services/quotaService.ts:26-41 | `true`, `[true]`, `[true,false]` grant; `false`, `[]`, `[[true]]` give `Sem saldo de quota`; an error wins over `true`; a message-less exception gives `Erro desconhecido` |
| Quota.ArgumentsForwarded | src/services/quotaService.ts:17-24 | the amount defaults to 1 and the call made does not depend on the response |
| ImageUpload.FileExt | src/services/imageService.ts:22 | the extension is dot-free, is a suffix of the URI, is preceded by a dot when the URI has one, and is the whole URI when it has none |
| ImageUpload.FallbackExtensionIsDead | src/services/imageService.ts:22 | `pop()` never returns undefined here, so the `'jpg'` fallback is never taken |
| ImageUpload.StorageKey | src/services/imageService.ts:23 | the key starts with `userId + "/"` and ends with `"." + fileExt` |
| ImageUpload.StorageKeyKeepsExtension | src/services/imageService.ts:22-23 | the text after the key's last dot is the local file's extension |
| ImageUpload.ContentType | src/services/imageService.ts:34 | the blob's type when non-empty, otherwise `image/` followed by the extension |
| ImageUpload.ReplayStep | src/services/imageService.ts:16-101 | replaying one more call of a run takes one more step of the life-cycle automaton |
| ImageUpload.StatusUpdateIsLast | src/services/imageService.ts:64-97 | in any trace the automaton accepts, a status update is the last call and closes the row |
| ImageUpload.UpdatesAreTerminal | src/services/imageService.ts:64-97 | in any accepted trace, every status update sets `done` or `failed`, never back to `uploaded` |
| ImageUpload.ClassifyFollowsGrantedQuota | src/services/imageService.ts:64-75 | in any accepted trace, classification comes immediately after a quota call that granted the unit |
| ImageUpload.QuotaCallIsFourth | src/services/imageService.ts:16-64 | in any trace accepted from the start, the quota call comes after exactly the fetch, the upload and the insert |
| ImageUpload.ApplyUpdate | src/services/imageService.ts:87-90 | an applied update sets the status and, for `done`, the detected foods; a `failed` update keeps the foods; an update that did not take effect changes nothing |
| ImageUpload.ChargeAndClassify | src/services/imageService.ts:64-97 | after registration: one quota call with (`userId`, `image`, 1), recorded with its answer; ok exactly when granted and classified; ok returns the row's id and path; the row is `uploaded` exactly when the update did not take effect and `done` exactly when the run succeeds and the update took effect, with the classifier's foods |
| ImageUpload.Register | src/services/imageService.ts:44-64 | after the upload: the insert is the third call, with the user, the path and `uploaded`; ok exactly when the insert, the quota and the classification succeed; a row exists exactly when the insert returned one, and ok returns its id and path |
| ImageUpload.UploadMealImage | src/services/imageService.ts:16-101 | the trace follows the life cycle; ok exactly when fetch, upload, insert, quota and classification all succeed; not ok always carries an error; a row exists exactly when the insert succeeded, with the store's path or else the key; the fourth call, when there is one, is the quota call with the user, `image` and 1, carrying the quota's answer |
| ImageUpload.FetchFailurePath | src/services/imageService.ts:98-100 | a failed fetch returns its message or `Erro desconhecido`, having made no other call |
| ImageUpload.UploadErrorPath | src/services/imageService.ts:31-40 | an upload error returns `{ok: false, error: message}` after exactly the fetch and the upload (key, content type, no overwrite); no row, quota or update |
| ImageUpload.InsertErrorPath | src/services/imageService.ts:57-59 | an insert error or a missing row returns its message or `Erro ao registrar imagem`; no quota call, no update, no row |
| ImageUpload.QuotaDeniedPath | src/services/imageService.ts:64-69 | a refused quota gives exactly one update, to `failed`, no classification, and the quota's own error |
| ImageUpload.ClassifiedPath | src/services/imageService.ts:86-92 | success classifies with the row id and path, updates to `done` with the foods, and returns `{ok: true, imageId, storagePath}` |
| ImageUpload.ClassifyFailurePath | src/services/imageService.ts:93-97 | a classification failure updates to `failed` and returns its message or `Erro ao classificar imagem` |
| ImageUpload.AtMostOneStatusUpdate | src/services/imageService.ts:64-97 | every run makes at most one status update, and never sets the row back to `uploaded` |
| ImageUpload.ClassifyOnlyAfterGrantedQuota | src/services/imageService.ts:64-75 | classification is attempted only as the fifth call, right after a quota call that granted the unit, and only when `consumeQuota` answers ok |
| ImageUpload.ResultIgnoresStatusUpdate | src/services/imageService.ts:87-92 | the result and the calls do not depend on whether the status update took effect |
| ImageUpload.StubClassifierNeverFails | src/services/imageService.ts:84 | with the fixed classifier the code ships, a registered image succeeds exactly when the quota is granted |

## Left out

- `calculateAge` is not modelled. It reads the wall clock and uses `differenceInYears`. The age is an input instead: `None` stands for a missing or unparsable birthdate.
- IEEE-754 rounding is not modelled: arithmetic is exact decimal. Double rounding of `6.25*h` or `tmb*1.375` near a `.5` boundary can differ from the model.
- Unpaired UTF-16 surrogates are not modelled. A Dafny `string` holds Unicode scalar values only, while a JavaScript string may hold a lone surrogate, which `length` counts as 1.
- NaN is not modelled. `Number("abc")` can put NaN into the form; NaN is falsy and fails every comparison.
- Values outside the form's declared types (`gender`, `activity_level`) are not modelled. Such values can only come from the database.
- `undefined` and `''` for `activity_level` are one value (`None`). They are treated alike everywhere except the payload's verbatim copy.
- `loadProfile` is modelled only for the field mapping `FormFromRow`. Its remote calls and the `PGRST116` handling are left out.
- The Supabase client, `fetch`/`blob`, `uuidv4` and `Date.now` are modelled only as outcomes in `Collaborators` or as parameters.
  - The model assumes that storage, insert and update calls report errors as values and that only `fetch`/`blob` and the classifier throw. In the code, `uuidv4()` runs before `fetch` and a throw there reaches the outer handler with no call made; that path is not modelled. The shipped constant classifier cannot throw; the model admits a throwing one.
  - A rejected promise from the status update is not modelled.
- The real classifier is not part of this model. The code has a constant stub there (`StubClassifier`). The model takes any classifier outcome, and a `Classify` call records the arguments the code's comments say it will send.
- React state (`loading`, `saving`), effects and concurrent invocations are not modelled. For `SaveProfile`, `error` is the final value of the `error` state.
- ImageUpload.StorageKey: the uniqueness of keys, which rests on `Date.now` and `uuidv4`, is not stated.
- The screens, navigation, theme, login and home view models are not modelled. They are presentation and wiring.
