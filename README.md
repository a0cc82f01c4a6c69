# File conversion front end: the decision logic, in Dafny

This project models the decision logic of a browser front end. The user picks a
conversion, such as docx to pdf, and uploads a file. The page forwards the file to
a remote conversion service and shows the attempt in a dialog. A separate form
registers new accounts. Four pieces are modelled. Every other part of the front
end is display code or a call into an outside client.

- `Js` (`js.dfy`): the JavaScript behaviour the other modules rely on. It covers
  absent values, truthiness of strings, `String.prototype.split` on one
  character (with its inverse `join`), and `String.prototype.length`, which
  counts UTF-16 code units.
- `ConversionDialog` (`conversion_dialog.dfy`): the attempt record with its
  four-valued status. The header, icon and CSS class are total functions of the
  status; a missing record gets its own value. The dialog object is a class. Its
  private visibility flag and its output events change as the parent or the
  user acts. Events are appended to an `emitted` sequence, in order.
- `Convert` (`convert.dfy`): one call of the conversion client. A call posts to
  `https://v2.convertapi.com/convert/<from>/to/<to>`. The request body has a
  `File` parameter and a `StoreFile` parameter, in that order. The headers are
  a bearer token and `application/json`. The file data is the second
  comma-separated field of the data URL produced by the browser's file reader.
  A read failure gives a fixed error and posts nothing. Any answer from the
  service is passed on unchanged. The reader's outcome and the service's answer
  are inputs.
- `Home` (`home.dfy`): the page's attempt slot. It has four fields: dialog
  data, dialog visibility, the in-progress flag and the banner text.
  `HomeComponent` has one method per callback: start, the 500 ms cosmetic
  tick, success, error, the 3000 ms banner clear, and close. Each method is
  proved equal to the pure `Step` function. `Run` applies any sequence of
  events, since the callbacks can arrive in any order. The interleaving lemmas
  are proved over `Step` and `Run`.
- `Register` (`register.dfy`): the registration form's submit handler. It is
  split at its `await` into two methods. `OnSubmit` does the ordered
  validation and issues the sign-up call. `OnSignUpSettled` is the
  try/catch/finally that runs once the call settles. `SubmitAndAwait` runs
  both parts with nothing in between.

## Races the code leaves open

The code has no guard against stale callbacks, and the model keeps it that way.
These lemmas show the resulting behaviour:

- The cosmetic tick checks only that dialog data exists. A tick after a success
  relabels the completed data as converting again: progress drops from 100 to
  70 and the download URL stays (`LateTickRevertsCompletion`). A tick after an
  error relabels the data as converting at 70: the data keeps its error text
  while `StatusIcon` gives the spinner (`LateTickRelabelsError`). So
  progress does not only go up, and a download URL can appear with a status
  other than completed.
- Completions carry no attempt id. A late success from an older attempt
  overwrites a newer attempt's data and clears the in-progress flag
  (`StaleResponseOverwritesNewerAttempt`). A result that arrives after the
  dialog was closed fills the slot again while the dialog stays hidden
  (`ResultAfterCloseFillsHiddenSlot`).
- A success with no output files changes only the in-progress flag. An attempt
  shown as in flight stays in flight (`EmptyResponseStallsAttempt`).

What does hold under every interleaving is `Coherent`
(`RunKeepsCoherent`):

- the progress matches the status (30, 70, 100, 0);
- a download URL and an error text never appear together;
- an error text is never empty;
- a visible dialog always has data;
- the banner shows one of its three texts.

## Model

| member | source | states |
|---|---|---|
| `Js.Split` | src/app/services/convert.ts:49 | `split` on one character gives at least one field, and no field contains the separator |
| `Js.JoinSplit` | src/app/services/convert.ts:49 | joining the fields of a split with the separator gives back the original string |
| `Js.SplitSingle` | src/app/services/convert.ts:49 | a string splits into one field exactly when it has no separator, and that field is the whole string |
| `Js.SplitAtFirst` | src/app/services/convert.ts:49 | when the head has no separator, the fields of head + sep + tail are the head followed by the fields of the tail |
| `Js.Utf16Length` | src/app/pages/register/register.component.ts:36 | `length` counts UTF-16 code units, so it is at least the number of characters and at most twice that |
| `Js.Utf16LengthOfBmp` | src/app/pages/register/register.component.ts:36 | for text made only of Basic Multilingual Plane characters, `length` equals the number of characters |
| `ConversionDialog.StatusNamed` | src/app/components/conversion-dialog/conversion-dialog.component.ts:12 | reading back one of the four status literals gives the status with that name |
| `ConversionDialog.DialogHeader` | src/app/components/conversion-dialog/conversion-dialog.component.ts:50-65 | the neutral title 'Conversión de archivo' appears exactly when there is no data |
| `ConversionDialog.HeaderIdentifiesStatus` | src/app/components/conversion-dialog/conversion-dialog.component.ts:50-65 | two records get the same title exactly when they have the same status, so the four status titles are distinct |
| `ConversionDialog.StatusIcon` | src/app/components/conversion-dialog/conversion-dialog.component.ts:67-81 | spinner exactly for uploading or converting, check mark exactly for completed, cross exactly for error, file icon exactly for no data |
| `ConversionDialog.StatusClass` | src/app/components/conversion-dialog/conversion-dialog.component.ts:83-98 | the class is the status's own literal, and '' when there is no data |
| `ConversionDialog.ClassIdentifiesStatus` | src/app/components/conversion-dialog/conversion-dialog.component.ts:83-98 | the class can be read back as the record's status, and fails to read back exactly when there is no data |
| `ConversionDialog.ConversionDialogComponent.constructor` | src/app/components/conversion-dialog/conversion-dialog.component.ts:26-39 | the dialog starts hidden, with no data and nothing emitted |
| `ConversionDialog.ConversionDialogComponent.SetVisible` | src/app/components/conversion-dialog/conversion-dialog.component.ts:26-29 | the `visible` input sets the flag and emits nothing |
| `ConversionDialog.ConversionDialogComponent.SetData` | src/app/components/conversion-dialog/conversion-dialog.component.ts:35 | the `data` input replaces the data and changes nothing else |
| `ConversionDialog.ConversionDialogComponent.SetDialogVisible` | src/app/components/conversion-dialog/conversion-dialog.component.ts:45-48 | the `dialogVisible` setter sets the flag and emits `visibleChange` with the same value |
| `ConversionDialog.ConversionDialogComponent.OnHide` | src/app/components/conversion-dialog/conversion-dialog.component.ts:100-103 | hiding leaves the flag false and emits `visibleChange(false)` and then `close` |
| `ConversionDialog.ConversionDialogComponent.OnDownload` | src/app/components/conversion-dialog/conversion-dialog.component.ts:105-109 | emits exactly the download URL when there is data and its URL is a non-empty string; otherwise emits nothing |
| `ConversionDialog.ConversionDialogComponent.CloseDialog` | src/app/components/conversion-dialog/conversion-dialog.component.ts:111-113 | closing leaves the flag false and emits `visibleChange(false)`, never `close` |
| `Convert.ConversionUrlInjective` | src/app/services/convert.ts:33-35 | for formats without a slash, the endpoint determines the pair of formats it was built from |
| `Convert.DataPart` | src/app/services/convert.ts:49 | the data is absent exactly when the data URL has no comma, and when present it holds no comma |
| `Convert.DataPartAfterFirstComma` | src/app/services/convert.ts:49 | after the first comma, the data runs up to the next comma or to the end |
| `Convert.DataPartOfDataUrl` | src/app/services/convert.ts:49 | for `data:<type>;base64,<payload>` with no comma in the type or the payload (RFC 2397, section 3), the data is exactly the payload |
| `Convert.ConvertFile` | src/app/services/convert.ts:37-84 | a read failure posts nothing and yields 'Error al leer el archivo'; otherwise the POST goes to the formats' endpoint with the two parameters in order (file name with the data part, then StoreFile true), 'Bearer ' + token and 'application/json', and the service's answer is passed on unchanged |
| `Convert.PostCarriesPayload` | src/app/services/convert.ts:48-70 | for a base64 data URL, the posted file value is the file's name with exactly the encoded payload, and the token can be read back from the authorization header |
| `Home.StepKeepsCoherent` | src/app/pages/home/home.component.ts:49-119 | every callback keeps the page coherent |
| `Home.RunKeepsCoherent` | src/app/pages/home/home.component.ts:49-119 | the page stays coherent under any sequence of callbacks |
| `Home.TimersKeepClosedSlotEmpty` | src/app/pages/home/home.component.ts:62-70 | after a close, timer callbacks alone never refill the slot or change the visibility or in-progress flags |
| `Home.TimersKeepAttempt` | src/app/pages/home/home.component.ts:62-69 | timer callbacks alone keep file name, formats, download URL and error text; only status and progress change |
| `Home.LateTickRevertsCompletion` | src/app/pages/home/home.component.ts:62-92 | a tick after a success turns completed/100 into converting/70 and keeps the download URL |
| `Home.LateTickRelabelsError` | src/app/pages/home/home.component.ts:62-104 | a tick after an error turns the data into converting/70, keeps its error text, and `StatusIcon` of the data is then the spinner |
| `Home.StaleResponseOverwritesNewerAttempt` | src/app/pages/home/home.component.ts:49-92 | an older attempt's success after a newer start writes the older attempt's whole record into the slot (its file name and both formats, completed, 100, the first file's URL, no error text) and clears the in-progress flag |
| `Home.ResultAfterCloseFillsHiddenSlot` | src/app/pages/home/home.component.ts:94-119 | an error after a close fills the slot again while the dialog stays hidden |
| `Home.EmptyResponseStallsAttempt` | src/app/pages/home/home.component.ts:78-92 | a success without output files changes only the in-progress flag, so for data that was in flight `StatusIcon` stays the spinner |
| `Home.StartForgetsPrevious` | src/app/pages/home/home.component.ts:50-60 | the state after a start does not depend on the state before it |
| `Home.ReadFailureInDialogData` | src/app/pages/home/home.component.ts:94-106 | for a file that cannot be read, the dialog data's error text is 'Error al leer el archivo' and the banner text is the generic failure |
| `Home.ReportScenario` | src/app/pages/home/home.component.ts:49-92 | report.docx to pdf with the tick before the response ends completed/100 with the service's URL and the success banner; with the response first it ends converting |
| `Home.HomeComponent.constructor` | src/app/pages/home/home.component.ts:27-31 | the page starts with no data, hidden dialog, not converting, empty banner |
| `Home.HomeComponent.ConvertFile` | src/app/pages/home/home.component.ts:49-73 | data becomes {file name, the option's formats, uploading, 30, no URL, no error text}; dialog visible, converting, banner ''; the client is called with the option's formats, the file and the token |
| `Home.HomeComponent.OnProgressTimer` | src/app/pages/home/home.component.ts:62-70 | with data present, whatever its status, only status (converting) and progress (70) change; without data nothing changes |
| `Home.HomeComponent.OnNext` | src/app/pages/home/home.component.ts:75-93 | with output files, data becomes completed/100 with the first file's URL and this call's file and formats, banner '¡Conversión completada!'; without, data and banner stay; in-progress ends false |
| `Home.HomeComponent.OnError` | src/app/pages/home/home.component.ts:94-108 | data becomes error/0 with the error's message if truthy, else 'Error al convertir el archivo'; banner 'Error al convertir el archivo'; in-progress false |
| `Home.HomeComponent.OnBannerTimer` | src/app/pages/home/home.component.ts:90 | the banner becomes '' and nothing else changes |
| `Home.HomeComponent.OnDialogClose` | src/app/pages/home/home.component.ts:116-119 | the dialog is hidden and the data dropped, whatever the status |
| `Register.RegisterComponent.constructor` | src/app/pages/register/register.component.ts:15-20 | the form starts empty, not loading, with no messages |
| `Register.RegisterComponent.SetForm` | src/app/pages/register/register.component.ts:15-17 | the inputs are replaced and the handler's state is kept |
| `Register.RegisterComponent.OnSubmit` | src/app/pages/register/register.component.ts:24-43 | messages are cleared; a mismatch is reported before a length under 6, both with loading false and no call; otherwise sign-up is called with the form's email and password while loading stays true |
| `Register.RegisterComponent.OnSignUpSettled` | src/app/pages/register/register.component.ts:42-59 | a returned error writes its own message to the error text; a clean return writes the confirmation to the success text and schedules the login redirect; an exception writes the retry text; loading ends false |
| `Register.RegisterComponent.SubmitAndAwait` | src/app/pages/register/register.component.ts:24-59 | sign-up is called exactly when both checks pass; mismatch and too-short paths end with their error text and no success text; after a call, exactly one of the two messages is written (a returned error's own text, possibly empty, the confirmation, or the retry text) and the other stays ''; the redirect is scheduled exactly on a clean return; loading is false on every path |

## Left out

- Browser and framework plumbing is not modelled. This covers the file reader,
  the HTTP client, the observables and their `complete` signal, real timer
  durations and console logging. Timers are explicit events, and the
  reader's result and the service's answer are inputs.
- Any event can fire at any time in the model, including a banner clear with
  no earlier success. This is wider than the real schedule and covers every
  real interleaving.
- `onConversionSelected` is left out. It records the choice and builds a DOM
  file input. `onDialogDownload` is left out too: it only opens a window.
- The page templates are not part of this model. So the binding between the
  dialog's `visibleChange`/`close` outputs and the page's `dialogVisible` and
  `onDialogClose` is not modelled.
- The browser does the base64 encoding, so the data URL is an opaque string.
- The configured token comes from environment variables, so it is a
  parameter.
- The `default` branches of the three status switches cannot run, because
  `Status` has exactly the four values of the source's union type.
- `Convert.ConversionUrl`, `Convert.RequestBody` and `Convert.RequestHeaders`
  are plain expressions with no contract of their own. What they produce is
  stated in `Convert.ConvertFile` and `Convert.ConversionUrlInjective`.
- Conversion cost and file sizes are integers, not JavaScript numbers.
  Neither value is used by the modelled code.
- Error messages are modelled as strings. An `error.message` that is present
  but is not a string is not modelled.
- Register: the two-second delay before the redirect to `/login` and the
  router are left out. `OnSignUpSettled` only reports that the redirect was
  scheduled.
- The sign-up call into the authentication backend is an input. The service
  wrapper, the login page, the route guard, the info modal, the conversion
  card and the environment file are not part of this model.
