/** The conversion dialog: the data it is given about one conversion attempt,
    the presentation it derives from the attempt's status, and the dialog
    object whose visibility flag and output events change as the user acts. */
module ConversionDialog {
  import opened Js

  /** The four values of the attempt's status field. */
  datatype Status = Uploading | Converting | Completed | Error
  {
    /** The string literal of the status in the source's union type. */
    function Name(): string
    {
      match this
      case Uploading => "uploading"
      case Converting => "converting"
      case Completed => "completed"
      case Error => "error"
    }

    /** Whether the attempt is still in flight as far as the dialog can tell. */
    predicate InFlight()
    {
      this == Uploading || this == Converting
    }
  }

  /** Reads a status literal back; anything but the four literals is not a status. */
  function StatusNamed(name: string): (s: Option<Status>)
    ensures s.Some? ==> s.value.Name() == name
    ensures s.None? ==> forall st: Status :: st.Name() != name
  {
    if name == "uploading" then Some(Uploading)
    else if name == "converting" then Some(Converting)
    else if name == "completed" then Some(Completed)
    else if name == "error" then Some(Error)
    else None
  }

  /** What the dialog is told about one attempt; `downloadUrl` and
      `errorMessage` are the optional fields of the record. */
  datatype DialogData = DialogData(
    fileName: string,
    fromFormat: string,
    toFormat: string,
    status: Status,
    progress: int,
    downloadUrl: Option<string>,
    errorMessage: Option<string>)

  const DefaultHeader := "Conversión de archivo"
  const SpinnerIcon := "pi pi-spin pi-spinner"
  const DoneIcon := "pi pi-check-circle"
  const FailedIcon := "pi pi-times-circle"
  const FileIcon := "pi pi-file"

  /** The dialog title: a fixed title per status, and a neutral title that
      only the absence of data produces. */
  function DialogHeader(data: Option<DialogData>): (header: string)
    ensures header == DefaultHeader <==> data.None?
  {
    match data
    case None => DefaultHeader
    case Some(d) =>
      match d.status
      case Uploading => "Subiendo archivo..."
      case Converting => "Convirtiendo archivo..."
      case Completed => "¡Conversión completada!"
      case Error => "Error en la conversión"
  }

  /** The four status titles are pairwise distinct: the title tells the status. */
  lemma HeaderIdentifiesStatus(a: DialogData, b: DialogData)
    ensures DialogHeader(Some(a)) == DialogHeader(Some(b)) <==> a.status == b.status
  {
  }

  /** The icon: one spinner for both in-flight statuses, a check mark for a
      completed attempt, a cross for a failed one, a file when there is no data. */
  function StatusIcon(data: Option<DialogData>): (icon: string)
    ensures icon == SpinnerIcon <==> data.Some? && data.value.status.InFlight()
    ensures icon == DoneIcon <==> data.Some? && data.value.status == Completed
    ensures icon == FailedIcon <==> data.Some? && data.value.status == Error
    ensures icon == FileIcon <==> data.None?
  {
    match data
    case None => FileIcon
    case Some(d) =>
      match d.status
      case Uploading => SpinnerIcon
      case Converting => SpinnerIcon
      case Completed => DoneIcon
      case Error => FailedIcon
  }

  /** The CSS class: the status literal itself, or no class without data. */
  function StatusClass(data: Option<DialogData>): (cls: string)
    ensures data.Some? ==> cls == data.value.status.Name()
    ensures data.None? ==> cls == ""
  {
    match data
    case None => ""
    case Some(d) =>
      match d.status
      case Uploading => "uploading"
      case Converting => "converting"
      case Completed => "completed"
      case Error => "error"
  }

  /** The class names a status unambiguously and is empty exactly when there is no data. */
  lemma ClassIdentifiesStatus(data: Option<DialogData>)
    ensures data.Some? ==> StatusNamed(StatusClass(data)) == Some(data.value.status)
    ensures StatusNamed(StatusClass(data)).None? <==> data.None?
  {
  }

  /** The events the dialog sends to its parent, in the order sent. */
  datatype Emission = VisibleChange(visible: bool) | Download(url: string) | Close

  class ConversionDialogComponent {
    /** The private visibility flag behind both the `visible` input and `dialogVisible`. */
    var visible: bool
    /** The `data` input. */
    var data: Option<DialogData>
    /** Everything emitted on `visibleChange`, `download` and `close` so far. */
    var emitted: seq<Emission>

    constructor ()
      ensures !visible && data == None && emitted == []
    {
      visible := false;
      data := None;
      emitted := [];
    }

    /** The parent writes the `visible` input: the flag changes, nothing is emitted. */
    method SetVisible(value: bool)
      modifies this
      ensures visible == value
      ensures data == old(data) && emitted == old(emitted)
    {
      visible := value;
    }

    /** The parent writes the `data` input. */
    method SetData(value: Option<DialogData>)
      modifies this
      ensures data == value
      ensures visible == old(visible) && emitted == old(emitted)
    {
      data := value;
    }

    /** The dialog itself writes `dialogVisible`: the flag changes and the new
        value is emitted on `visibleChange`. */
    method SetDialogVisible(value: bool)
      modifies this
      ensures visible == value
      ensures emitted == old(emitted) + [VisibleChange(value)]
      ensures data == old(data)
    {
      visible := value;
      emitted := emitted + [VisibleChange(value)];
    }

    /** The dialog was hidden: the flag drops, `visibleChange(false)` is emitted, then `close`. */
    method OnHide()
      modifies this
      ensures !visible
      ensures emitted == old(emitted) + [VisibleChange(false), Close]
      ensures data == old(data)
    {
      SetDialogVisible(false);
      emitted := emitted + [Close];
    }

    /** The download button: emits the download URL when the data carries a
        non-empty one, and otherwise emits nothing. */
    method OnDownload()
      modifies this
      ensures data.Some? && Truthy(data.value.downloadUrl) ==>
                emitted == old(emitted) + [Download(data.value.downloadUrl.value)]
      ensures !(data.Some? && Truthy(data.value.downloadUrl)) ==> emitted == old(emitted)
      ensures visible == old(visible) && data == old(data)
    {
      if data.Some? && Truthy(data.value.downloadUrl) {
        emitted := emitted + [Download(data.value.downloadUrl.value)];
      }
    }

    /** The close button: the flag drops and `visibleChange(false)` is emitted,
        but `close` is not. */
    method CloseDialog()
      modifies this
      ensures !visible
      ensures emitted == old(emitted) + [VisibleChange(false)]
      ensures Close !in emitted[|old(emitted)|..]
      ensures data == old(data)
    {
      SetDialogVisible(false);
    }
  }
}
