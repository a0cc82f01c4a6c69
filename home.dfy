/** The home page's conversion-attempt slot: the dialog data, the dialog's
    visibility, the in-progress flag and the banner text, rewritten by the
    start of a conversion, its cosmetic progress timer, the client's success
    and error callbacks, the banner timer and the closing of the dialog.
    Each callback is an event; events arrive one at a time in any order. */
module Home {
  import opened Js
  import opened ConversionDialog
  import Convert

  /** A catalog entry: one supported pair of formats with its display text. */
  datatype ConversionOption = ConversionOption(
    id: string,
    title: string,
    description: string,
    fromFormat: string,
    toFormat: string,
    icon: string)

  const CompletedBanner := "¡Conversión completada!"
  const FailedBanner := "Error al convertir el archivo"
  /** The dialog's error text when the error carries no message of its own. */
  const FallbackError := "Error al convertir el archivo"

  /** The four signals of the page that the conversion flow writes. */
  datatype HomeState = HomeState(
    dialogData: Option<DialogData>,
    dialogVisible: bool,
    isConverting: bool,
    errorMessage: string)

  const Initial := HomeState(None, false, false, "")

  /** The callbacks of the flow. The success and error callbacks belong to
      the call that scheduled them and carry that call's file and option. */
  datatype Event =
    | Started(file: Convert.File, conversion: ConversionOption)
    | ProgressTimerFired
    | Responded(file: Convert.File, conversion: ConversionOption, response: Convert.ConversionResponse)
    | Errored(file: Convert.File, conversion: ConversionOption, error: Convert.ErrorValue)
    | BannerTimerFired
    | DialogClosed

  /** The service's answer names at least one output file. */
  predicate HasFiles(response: Convert.ConversionResponse)
  {
    response.files.Some? && |response.files.value| > 0
  }

  /** The state after one event. */
  function Step(s: HomeState, e: Event): HomeState
  {
    match e
    case Started(file, conversion) =>
      HomeState(
        Some(DialogData(file.name, conversion.fromFormat, conversion.toFormat, Uploading, 30, None, None)),
        true, true, "")
    case ProgressTimerFired =>
      if s.dialogData.Some?
      then s.(dialogData := Some(s.dialogData.value.(status := Converting, progress := 70)))
      else s
    case Responded(file, conversion, response) =>
      if HasFiles(response) then
        s.(dialogData := Some(DialogData(file.name, conversion.fromFormat, conversion.toFormat,
                                         Completed, 100, response.files.value[0].url, None)),
           errorMessage := CompletedBanner,
           isConverting := false)
      else s.(isConverting := false)
    case Errored(file, conversion, error) =>
      s.(dialogData := Some(DialogData(file.name, conversion.fromFormat, conversion.toFormat,
                                       Error, 0, None, Some(OrElse(error.message, FallbackError)))),
         errorMessage := FailedBanner,
         isConverting := false)
    case BannerTimerFired =>
      s.(errorMessage := "")
    case DialogClosed =>
      s.(dialogVisible := false, dialogData := None)
  }

  /** The state after a sequence of events, applied first to last. */
  function Run(s: HomeState, events: seq<Event>): HomeState
    decreases |events|
  {
    if events == [] then s else Run(Step(s, events[0]), events[1..])
  }

  /** The progress each status is shown with. */
  function ProgressOf(status: Status): int
  {
    match status
    case Uploading => 30
    case Converting => 70
    case Completed => 100
    case Error => 0
  }

  /** What every dialog data the flow writes satisfies: the progress belongs
      to the status, a download URL and an error text never come together,
      an error text is never empty, an uploading attempt has neither, a
      completed attempt has no error text and a failed one has an error text
      and no URL. A converting attempt may still carry either. */
  ghost predicate CoherentData(d: DialogData)
  {
    && d.progress == ProgressOf(d.status)
    && !(d.downloadUrl.Some? && d.errorMessage.Some?)
    && (d.errorMessage.Some? ==> d.errorMessage.value != "")
    && (d.status == Uploading ==> d.downloadUrl.None? && d.errorMessage.None?)
    && (d.status == Completed ==> d.errorMessage.None?)
    && (d.status == Error ==> d.downloadUrl.None? && d.errorMessage.Some?)
  }

  /** The invariant of the page: coherent dialog data, a visible dialog
      always has data, and the banner shows one of its three texts. */
  ghost predicate Coherent(s: HomeState)
  {
    && (s.dialogData.Some? ==> CoherentData(s.dialogData.value))
    && (s.dialogVisible ==> s.dialogData.Some?)
    && s.errorMessage in {"", CompletedBanner, FailedBanner}
  }

  lemma StepKeepsCoherent(s: HomeState, e: Event)
    requires Coherent(s)
    ensures Coherent(Step(s, e))
  {
  }

  /** Whatever the interleaving of callbacks, the page stays coherent. */
  lemma {:induction false} RunKeepsCoherent(s: HomeState, events: seq<Event>)
    requires Coherent(s)
    ensures Coherent(Run(s, events))
    decreases |events|
  {
    if events != [] {
      StepKeepsCoherent(s, events[0]);
      RunKeepsCoherent(Step(s, events[0]), events[1..]);
    }
  }

  predicate IsTimer(e: Event)
  {
    e.ProgressTimerFired? || e.BannerTimerFired?
  }

  /** Timers alone never bring a closed dialog back: the slot stays empty and
      the visibility and in-progress flags keep their values. */
  lemma {:induction false} TimersKeepClosedSlotEmpty(s: HomeState, events: seq<Event>)
    requires s.dialogData.None?
    requires forall i :: 0 <= i < |events| ==> IsTimer(events[i])
    ensures Run(s, events).dialogData.None?
    ensures Run(s, events).dialogVisible == s.dialogVisible
    ensures Run(s, events).isConverting == s.isConverting
    decreases |events|
  {
    if events != [] {
      TimersKeepClosedSlotEmpty(Step(s, events[0]), events[1..]);
    }
  }

  /** Timers alone keep the attempt's identity: file name, formats, download
      URL and error text survive any number of progress ticks, whatever the
      status; only the status and the progress can change. */
  lemma {:induction false} TimersKeepAttempt(s: HomeState, events: seq<Event>)
    requires s.dialogData.Some?
    requires forall i :: 0 <= i < |events| ==> IsTimer(events[i])
    ensures var d := Run(s, events).dialogData;
            && d.Some?
            && d.value.(status := s.dialogData.value.status, progress := s.dialogData.value.progress)
               == s.dialogData.value
    decreases |events|
  {
    if events != [] {
      TimersKeepAttempt(Step(s, events[0]), events[1..]);
    }
  }

  /** The cosmetic tick is not cancelled by a result: a tick that fires after
      a successful response relabels the completed data as converting again,
      with progress falling from 100 to 70 and the download URL kept. */
  lemma LateTickRevertsCompletion(s: HomeState, file: Convert.File, conversion: ConversionOption,
                                  response: Convert.ConversionResponse)
    requires HasFiles(response)
    ensures var done := Step(s, Responded(file, conversion, response));
            var d := Step(done, ProgressTimerFired).dialogData;
            && done.dialogData.value.status == Completed && done.dialogData.value.progress == 100
            && d.Some? && d.value.status == Converting && d.value.progress == 70
            && d.value.downloadUrl == response.files.value[0].url
  {
  }

  /** A late tick after an error likewise relabels the data as converting at 70:
      the data keeps the error text while `StatusIcon` gives the spinner. */
  lemma LateTickRelabelsError(s: HomeState, file: Convert.File, conversion: ConversionOption,
                              error: Convert.ErrorValue)
    ensures var d := Step(Step(s, Errored(file, conversion, error)), ProgressTimerFired).dialogData;
            && d.Some? && d.value.status == Converting && d.value.progress == 70
            && d.value.errorMessage == Some(OrElse(error.message, FallbackError))
            && StatusIcon(d) == SpinnerIcon
  {
  }

  /** Completions are not tagged with their attempt: the response of an
      earlier attempt that arrives after a newer start replaces the newer
      attempt's data with the earlier file and marks the page idle although
      the newer call is still outstanding. */
  lemma StaleResponseOverwritesNewerAttempt(
    s: HomeState, older: Convert.File, olderOption: ConversionOption,
    newer: Convert.File, newerOption: ConversionOption, response: Convert.ConversionResponse)
    requires HasFiles(response)
    ensures var t := Step(Step(Step(s, Started(older, olderOption)), Started(newer, newerOption)),
                          Responded(older, olderOption, response));
            && t.dialogData == Some(DialogData(older.name, olderOption.fromFormat, olderOption.toFormat,
                                               Completed, 100, response.files.value[0].url, None))
            && !t.isConverting
  {
  }

  /** A result that arrives after the dialog was closed fills the slot again
      while the dialog stays hidden. */
  lemma ResultAfterCloseFillsHiddenSlot(s: HomeState, file: Convert.File, conversion: ConversionOption,
                                        error: Convert.ErrorValue)
    ensures var t := Step(Step(s, DialogClosed), Errored(file, conversion, error));
            t.dialogData.Some? && !t.dialogVisible
  {
  }

  /** A success without output files leaves the slot and the banner as they
      were, so an attempt still shown as uploading or converting stays so. */
  lemma EmptyResponseStallsAttempt(s: HomeState, file: Convert.File, conversion: ConversionOption,
                                   response: Convert.ConversionResponse)
    requires !HasFiles(response)
    ensures Step(s, Responded(file, conversion, response)) == s.(isConverting := false)
    ensures s.dialogData.Some? && s.dialogData.value.status.InFlight() ==>
              StatusIcon(Step(s, Responded(file, conversion, response)).dialogData) == SpinnerIcon
  {
  }

  /** A start replaces everything: the state after it does not depend on
      the state before. */
  lemma StartForgetsPrevious(s1: HomeState, s2: HomeState, file: Convert.File, conversion: ConversionOption)
    ensures Step(s1, Started(file, conversion)) == Step(s2, Started(file, conversion))
  {
  }

  /** For a file that cannot be read, the dialog data's error text is the
      reader's own message, while the banner text is the generic conversion
      failure. */
  lemma ReadFailureInDialogData(s: HomeState, file: Convert.File, conversion: ConversionOption,
                                 call: Convert.Call, service: Convert.Post -> Convert.Outcome)
    ensures var x := Convert.ConvertFile(call, Convert.ReadFailed, service);
            && x.outcome.Failed?
            && var t := Step(s, Errored(file, conversion, x.outcome.error));
               t.dialogData.Some?
               && t.dialogData.value.errorMessage == Some("Error al leer el archivo")
               && t.errorMessage == FailedBanner
  {
  }

  /** A docx-to-pdf run: a docx file converted to pdf, with the tick before
      the response, ends completed with the service's URL; with the response
      before the tick it ends shown as converting. */
  lemma ReportScenario()
    ensures var option := ConversionOption("docx-pdf", "", "", "docx", "pdf", "");
            var file := Convert.File("report.docx");
            var answer := Convert.ConversionResponse(
              0, Some([Convert.OutputFile("report.pdf", "pdf", 0, None, Some("https://cdn/x.pdf"))]));
            && Step(Step(Step(Initial, Started(file, option)), ProgressTimerFired), Responded(file, option, answer))
               == HomeState(Some(DialogData("report.docx", "docx", "pdf", Completed, 100,
                                            Some("https://cdn/x.pdf"), None)),
                            true, false, CompletedBanner)
            && var late := Step(Step(Step(Initial, Started(file, option)), Responded(file, option, answer)),
                                ProgressTimerFired);
               late.dialogData.Some? && late.dialogData.value.status == Converting
  {
  }

  class HomeComponent {
    var dialogData: Option<DialogData>
    var dialogVisible: bool
    var isConverting: bool
    var errorMessage: string

    function State(): HomeState
      reads this
    {
      HomeState(dialogData, dialogVisible, isConverting, errorMessage)
    }

    ghost predicate Valid()
      reads this
    {
      Coherent(State())
    }

    constructor ()
      ensures Valid() && State() == Initial
    {
      dialogData := None;
      dialogVisible := false;
      isConverting := false;
      errorMessage := "";
    }

    /** Starts an attempt for `file` with `conversion`, and gives the call it
        makes on the conversion client with the configured `token`. */
    method ConvertFile(file: Convert.File, conversion: ConversionOption, token: string)
      returns (call: Convert.Call)
      requires Valid()
      modifies this
      ensures Valid() && State() == Step(old(State()), Started(file, conversion))
      ensures dialogData == Some(DialogData(file.name, conversion.fromFormat, conversion.toFormat,
                                            Uploading, 30, None, None))
      ensures dialogVisible && isConverting && errorMessage == ""
      ensures call == Convert.Call(conversion.fromFormat, conversion.toFormat, file, token)
    {
      isConverting := true;
      errorMessage := "";
      dialogData := Some(DialogData(file.name, conversion.fromFormat, conversion.toFormat,
                                    Uploading, 30, None, None));
      dialogVisible := true;
      call := Convert.Call(conversion.fromFormat, conversion.toFormat, file, token);
    }

    /** The 500 ms timer: whenever there is data, whatever its status, it is
        relabelled converting at 70 with every other field kept. */
    method OnProgressTimer()
      requires Valid()
      modifies this
      ensures Valid() && State() == Step(old(State()), ProgressTimerFired)
      ensures old(dialogData).Some? ==>
                dialogData == Some(old(dialogData).value.(status := Converting, progress := 70))
      ensures old(dialogData).None? ==> dialogData == None
      ensures dialogVisible == old(dialogVisible) && isConverting == old(isConverting)
      ensures errorMessage == old(errorMessage)
    {
      if dialogData.Some? {
        dialogData := Some(dialogData.value.(status := Converting, progress := 70));
      }
    }

    /** The success callback of the call made for `file` and `conversion`. */
    method OnNext(file: Convert.File, conversion: ConversionOption, response: Convert.ConversionResponse)
      requires Valid()
      modifies this
      ensures Valid() && State() == Step(old(State()), Responded(file, conversion, response))
      ensures HasFiles(response) ==>
                && dialogData == Some(DialogData(file.name, conversion.fromFormat, conversion.toFormat,
                                                 Completed, 100, response.files.value[0].url, None))
                && errorMessage == CompletedBanner
      ensures !HasFiles(response) ==> dialogData == old(dialogData) && errorMessage == old(errorMessage)
      ensures !isConverting && dialogVisible == old(dialogVisible)
    {
      if response.files.Some? && |response.files.value| > 0 {
        var converted := response.files.value[0];
        dialogData := Some(DialogData(file.name, conversion.fromFormat, conversion.toFormat,
                                      Completed, 100, converted.url, None));
        errorMessage := CompletedBanner;
      }
      isConverting := false;
    }

    /** The error callback of the call made for `file` and `conversion`. */
    method OnError(file: Convert.File, conversion: ConversionOption, error: Convert.ErrorValue)
      requires Valid()
      modifies this
      ensures Valid() && State() == Step(old(State()), Errored(file, conversion, error))
      ensures dialogData == Some(DialogData(file.name, conversion.fromFormat, conversion.toFormat, Error, 0, None,
                                            Some(if Truthy(error.message) then error.message.value
                                                 else FallbackError)))
      ensures errorMessage == FailedBanner && !isConverting && dialogVisible == old(dialogVisible)
    {
      dialogData := Some(DialogData(file.name, conversion.fromFormat, conversion.toFormat, Error, 0, None,
                                    Some(OrElse(error.message, FallbackError))));
      errorMessage := FailedBanner;
      isConverting := false;
    }

    /** The 3000 ms timer scheduled by a success: clears the banner only. */
    method OnBannerTimer()
      requires Valid()
      modifies this
      ensures Valid() && State() == Step(old(State()), BannerTimerFired)
      ensures errorMessage == ""
      ensures dialogData == old(dialogData) && dialogVisible == old(dialogVisible)
      ensures isConverting == old(isConverting)
    {
      errorMessage := "";
    }

    /** Closing the dialog hides it and drops the data, whatever the status. */
    method OnDialogClose()
      requires Valid()
      modifies this
      ensures Valid() && State() == Step(old(State()), DialogClosed)
      ensures !dialogVisible && dialogData == None
      ensures isConverting == old(isConverting) && errorMessage == old(errorMessage)
    {
      dialogVisible := false;
      dialogData := None;
    }
  }
}
