/** The facade over the external e-mail editor widget: one editor reference
    shared by every facade, per-facade `isLoading`/`error` flags, the guarded
    operations, and the image-upload callback the facade registers.

    The editor is not modelled: every call into it is replaced by its outcome,
    given as a parameter (it returns, it throws, or it answers through a
    callback that may not have fired yet).
 */
module EditorOperations {
  import opened JsValues

  const NotInitializedError: string := "Редактор не инициализирован"
  const BadDesignError: string := "Некорректные данные дизайна"
  const BadBodyValuesError: string := "Некорректные параметры тела письма"
  const ImageTooLargeError: string := "Файл слишком большой. Максимум 5 MB"
  const ImageReadError: string := "Ошибка чтения файла"

  /** 5 MiB, the largest image attachment that is read. */
  const MaxImageBytes: nat := 5 * 1024 * 1024

  /** An opaque handle to an editor widget; only its presence matters. */
  datatype EditorHandle = EditorHandle(id: nat)

  /** The outcome of a synchronous call into the editor. */
  datatype CallOutcome = Returned | Threw(thrown: Thrown)

  /** The outcome of a call into the editor that answers through a callback:
      it throws before calling back, it has called back with a value, it has
      called back and then thrown, or it has not called back yet. */
  datatype AsyncCall<T> =
    | ThrewAtOnce(thrown: Thrown)
    | CalledBack(value: T)
    | CalledBackThenThrew(value: T, thrown: Thrown)
    | NotCalledBackYet

  /** The argument `exportHtml`'s callback receives. */
  datatype ExportHtmlData = ExportHtmlData(html: string)

  /** The error a guarded synchronous operation leaves behind once an editor
      is set: the argument's message when the argument is refused, the thrown
      message when the editor throws, and none when the editor returns. */
  function CallError(argumentOk: bool, invalidMessage: string, call: CallOutcome): Option<string>
  {
    if !argumentOk then Some(invalidMessage)
    else match call
      case Returned => None
      case Threw(t) => Some(MessageOr(t, UnknownError))
  }

  /** The single-slot cell of the module: the editor handle every facade
      reads. */
  class EditorSlot {
    var instance: Option<EditorHandle>

    constructor ()
      ensures instance == None
    {
      instance := None;
    }
  }

  /** One `useEditorOperations` facade: a view of the shared slot and its own
      flags. */
  class EditorOperations {
    const slot: EditorSlot
    var isLoading: bool
    var error: Option<string>

    constructor (slot: EditorSlot)
      ensures this.slot == slot && !isLoading && error == None
    {
      this.slot := slot;
      isLoading := false;
      error := None;
    }

    /** `editorInstance`: a direct read of the shared slot. */
    function EditorInstance(): Option<EditorHandle>
      reads this, slot
    {
      slot.instance
    }

    /** `setEditorInstance`: overwrites the shared slot; no facade's flags
        change. */
    method SetEditorInstance(instance: Option<EditorHandle>)
      modifies slot
      ensures slot.instance == instance
    {
      slot.instance := instance;
    }

    /** The shape shared by `loadDesign`, `setBodyValues` and
        `registerImageCallback`: the "not initialized" guard that leaves
        `isLoading` alone, then the flags set, the argument check, the call
        and the flags reset on every exit. */
    method GuardedCall(argumentOk: bool, invalidMessage: string, call: CallOutcome) returns (ok: bool)
      modifies this
      ensures slot.instance.None? ==>
        !ok && error == Some(NotInitializedError) && isLoading == old(isLoading)
      ensures slot.instance.Some? ==>
        !isLoading && error == CallError(argumentOk, invalidMessage, call)
      ensures ok <==> slot.instance.Some? && argumentOk && call.Returned?
      ensures ok <==> error == None
    {
      if slot.instance.None? {
        error := Some(NotInitializedError);
        ok := false;
        return;
      }
      isLoading := true;
      error := None;
      if !argumentOk {
        isLoading := false;
        error := Some(invalidMessage);
        ok := false;
        return;
      }
      match call
      case Returned =>
        isLoading := false;
        ok := true;
      case Threw(t) =>
        isLoading := false;
        error := Some(MessageOr(t, UnknownError));
        ok := false;
    }

    /** `loadDesign`: true exactly when an editor is set, the design is an
        object and the editor's `loadDesign` returns. */
    method LoadDesign(json: Json, call: CallOutcome) returns (ok: bool)
      modifies this
      ensures slot.instance.None? ==>
        !ok && error == Some(NotInitializedError) && isLoading == old(isLoading)
      ensures slot.instance.Some? ==> !isLoading && error == CallError(IsObject(json), BadDesignError, call)
      ensures ok <==> slot.instance.Some? && IsObject(json) && call.Returned?
      ensures ok <==> error == None
    {
      ok := GuardedCall(IsObject(json), BadDesignError, call);
    }

    /** `setBodyValues`: true exactly when an editor is set, the values are an
        object and the editor's `setBodyValues` returns. */
    method SetBodyValues(values: Json, call: CallOutcome) returns (ok: bool)
      modifies this
      ensures slot.instance.None? ==>
        !ok && error == Some(NotInitializedError) && isLoading == old(isLoading)
      ensures slot.instance.Some? ==> !isLoading && error == CallError(IsObject(values), BadBodyValuesError, call)
      ensures ok <==> slot.instance.Some? && IsObject(values) && call.Returned?
      ensures ok <==> error == None
    {
      ok := GuardedCall(IsObject(values), BadBodyValuesError, call);
    }

    /** `registerImageCallback`: installs `ImageCallback` with the editor;
        true exactly when an editor is set and the registration returns. */
    method RegisterImageCallback(registration: CallOutcome) returns (ok: bool)
      modifies this
      ensures slot.instance.None? ==>
        !ok && error == Some(NotInitializedError) && isLoading == old(isLoading)
      ensures slot.instance.Some? ==> !isLoading
      ensures ok <==> slot.instance.Some? && registration.Returned?
      ensures slot.instance.Some? && registration.Threw? ==>
        error == Some(MessageOr(registration.thrown, UnknownError))
      ensures ok <==> error == None
    {
      ok := GuardedCall(true, "", registration);
    }

    /** `saveDesign`: resolves with null when no editor is set or when the
        editor throws before calling back, with the design once the editor
        calls back (even if it throws afterwards), and is
        still awaited (with `isLoading` set) before that. */
    method SaveDesign(reply: AsyncCall<Json>) returns (r: Pending<Option<Json>>)
      modifies this
      ensures slot.instance.None? ==>
        r == Resolved(None) && error == Some(NotInitializedError) && isLoading == old(isLoading)
      ensures slot.instance.Some? ==> (isLoading <==> r.Awaiting?) && match reply
        case ThrewAtOnce(t) => r == Resolved(None) && error == Some(MessageOr(t, UnknownError))
        case CalledBack(design) => r == Resolved(Some(design)) && error == None
        case CalledBackThenThrew(design, t) =>
          r == Resolved(Some(design)) && error == Some(MessageOr(t, UnknownError))
        case NotCalledBackYet => r == Awaiting && error == None
    {
      if slot.instance.None? {
        error := Some(NotInitializedError);
        r := Resolved(None);
        return;
      }
      isLoading := true;
      error := None;
      match reply
      case ThrewAtOnce(t) =>
        isLoading := false;
        error := Some(MessageOr(t, UnknownError));
        r := Resolved(None);
      case CalledBack(design) =>
        isLoading := false;
        r := Resolved(Some(design));
      case CalledBackThenThrew(design, t) =>
        // the callback resolves first; the `catch` still records the message,
        // and its `resolve(null)` has no effect on a settled promise
        isLoading := false;
        r := Resolved(Some(design));
        error := Some(MessageOr(t, UnknownError));
      case NotCalledBackYet =>
        r := Awaiting;
    }

    /** `exportHtml`: as `saveDesign`, resolving with the `html` field of the
        data the editor calls back with. */
    method ExportHtml(reply: AsyncCall<ExportHtmlData>) returns (r: Pending<Option<string>>)
      modifies this
      ensures slot.instance.None? ==>
        r == Resolved(None) && error == Some(NotInitializedError) && isLoading == old(isLoading)
      ensures slot.instance.Some? ==> (isLoading <==> r.Awaiting?) && match reply
        case ThrewAtOnce(t) => r == Resolved(None) && error == Some(MessageOr(t, UnknownError))
        case CalledBack(data) => r == Resolved(Some(data.html)) && error == None
        case CalledBackThenThrew(data, t) =>
          r == Resolved(Some(data.html)) && error == Some(MessageOr(t, UnknownError))
        case NotCalledBackYet => r == Awaiting && error == None
    {
      if slot.instance.None? {
        error := Some(NotInitializedError);
        r := Resolved(None);
        return;
      }
      isLoading := true;
      error := None;
      match reply
      case ThrewAtOnce(t) =>
        isLoading := false;
        error := Some(MessageOr(t, UnknownError));
        r := Resolved(None);
      case CalledBack(data) =>
        isLoading := false;
        r := Resolved(Some(data.html));
      case CalledBackThenThrew(data, t) =>
        // the callback resolves first; the `catch` still records the message,
        // and its `resolve(null)` has no effect on a settled promise
        isLoading := false;
        r := Resolved(Some(data.html));
        error := Some(MessageOr(t, UnknownError));
      case NotCalledBackYet =>
        r := Awaiting;
    }

    /** The image-upload callback: the `done` payloads it emits, in order,
        for an upload and the events its file reader fires. It writes only
        this facade's `error`. */
    method ImageCallback(upload: ImageUploadData, events: seq<ImageReaderEvent>)
      returns (dones: seq<DonePayload>)
      modifies this`error
      ensures dones == ImageDones(upload, events)
      ensures error == ImageError(upload, events, old(error))
    {
      var attachment := FirstAttachment(upload);
      if attachment.None? {
        dones := [EmptyDone];
        return;
      }
      if attachment.value.size > MaxImageBytes {
        error := Some(ImageTooLargeError);
        dones := [EmptyDone];
        return;
      }
      dones := [];
      var i := 0;
      while i < |events|
        invariant 0 <= i <= |events|
        invariant dones == ReaderDones(events[..i])
        invariant error == ErrorAfterEvents(events[..i], old(error))
      {
        match events[i] {
          case Progress(lengthComputable, percent) =>
            if lengthComputable {
              dones := dones + [DonePayload(percent, None)];
            }
          case Load(dataUrl) =>
            dones := dones + [DonePayload(100, Some(dataUrl))];
          case ReadError =>
            error := Some(ImageReadError);
            dones := dones + [EmptyDone];
        }
        assert events[..i + 1][..i] == events[..i];
        i := i + 1;
      }
      assert events[..|events|] == events;
    }
  }

  /** Two facades over one slot: a handle set through one is seen by the
      other, and neither facade's flags move when the slot is written. */
  method SharedSlotAcrossFacades(handle: EditorHandle, design: map<Text, Json>)
  {
    var slot := new EditorSlot();
    var first := new EditorOperations(slot);
    var second := new EditorOperations(slot);
    var ok := second.LoadDesign(JObject(design), Returned);
    assert !ok && second.error == Some(NotInitializedError) && !second.isLoading;
    first.SetEditorInstance(Some(handle));
    assert first.error == None && second.error == Some(NotInitializedError);
    ok := second.LoadDesign(JObject(design), Returned);
    assert ok && second.error == None && !second.isLoading;
    first.SetEditorInstance(None);
    var html := second.ExportHtml(CalledBack(ExportHtmlData("<p></p>")));
    assert html == Resolved(None) && second.error == Some(NotInitializedError);
  }

  // ---------------------------------------------------------------------
  // The image-upload callback

  datatype Attachment = Attachment(size: nat)

  /** The descriptor the editor passes to the callback (`attachments?`). */
  datatype ImageUploadData = ImageUploadData(attachments: Option<seq<Attachment>>)

  /** The file reader's events: a progress event (with or without a known
      total, and the rounded percentage), `onload` with the data URL, or
      `onerror`. */
  datatype ImageReaderEvent = Progress(lengthComputable: bool, percent: int) | Load(dataUrl: string) | ReadError

  /** The payload of one `done(...)` call; `url` is absent on progress. */
  datatype DonePayload = DonePayload(progress: int, url: Option<string>)

  /** `{ progress: 100, url: '' }` */
  const EmptyDone: DonePayload := DonePayload(100, Some(""))

  /** `file.attachments?.[0]` */
  function FirstAttachment(upload: ImageUploadData): Option<Attachment>
  {
    match upload.attachments
    case None => None
    case Some(list) => if list == [] then None else Some(list[0])
  }

  /** The `done` calls one reader event triggers. */
  function EventDones(e: ImageReaderEvent): seq<DonePayload>
  {
    match e
    case Progress(lengthComputable, percent) =>
      if lengthComputable then [DonePayload(percent, None)] else []
    case Load(dataUrl) => [DonePayload(100, Some(dataUrl))]
    case ReadError => [EmptyDone]
  }

  /** The `done` calls a sequence of reader events triggers, in order. */
  function ReaderDones(events: seq<ImageReaderEvent>): seq<DonePayload>
  {
    if events == [] then []
    else ReaderDones(events[..|events| - 1]) + EventDones(events[|events| - 1])
  }

  /** The facade's `error` after a sequence of reader events. */
  function ErrorAfterEvents(events: seq<ImageReaderEvent>, before: Option<string>): Option<string>
  {
    if events == [] then before
    else if events[|events| - 1].ReadError? then Some(ImageReadError)
    else ErrorAfterEvents(events[..|events| - 1], before)
  }

  /** The `done` calls of the whole callback. */
  function ImageDones(upload: ImageUploadData, events: seq<ImageReaderEvent>): seq<DonePayload>
  {
    match FirstAttachment(upload)
    case None => [EmptyDone]
    case Some(attachment) =>
      if attachment.size > MaxImageBytes then [EmptyDone] else ReaderDones(events)
  }

  /** The facade's `error` after the whole callback. */
  function ImageError(upload: ImageUploadData, events: seq<ImageReaderEvent>, before: Option<string>): Option<string>
  {
    match FirstAttachment(upload)
    case None => before
    case Some(attachment) =>
      if attachment.size > MaxImageBytes then Some(ImageTooLargeError)
      else ErrorAfterEvents(events, before)
  }

  /** Without an attachment there is exactly one `done`, the empty one, and
      `error` is untouched; an attachment over 5 MiB gives the same single
      `done` and the size error; exactly 5 MiB is read. */
  lemma ImageCallbackEarlyExits(upload: ImageUploadData, events: seq<ImageReaderEvent>, before: Option<string>)
    ensures FirstAttachment(upload).None? ==>
      ImageDones(upload, events) == [EmptyDone] && ImageError(upload, events, before) == before
    ensures FirstAttachment(upload).Some? && FirstAttachment(upload).value.size > MaxImageBytes ==>
      ImageDones(upload, events) == [EmptyDone] && ImageError(upload, events, before) == Some(ImageTooLargeError)
    ensures FirstAttachment(upload).Some? && FirstAttachment(upload).value.size <= 5242880 ==>
      ImageDones(upload, events) == ReaderDones(events)
  {
  }

  /** The reader's handlers keep no state: the `done` calls of two runs of
      events are those of each run, one after the other. */
  lemma {:induction false} ReaderDonesAppend(events: seq<ImageReaderEvent>, more: seq<ImageReaderEvent>)
    ensures ReaderDones(events + more) == ReaderDones(events) + ReaderDones(more)
  {
    if more != [] {
      var init := more[..|more| - 1];
      assert (events + more)[..|events + more| - 1] == events + init;
      ReaderDonesAppend(events, init);
    } else {
      assert events + more == events;
    }
  }

  /** No deduplication: two equal length-computable progress events give two
      equal `done` calls. */
  lemma ProgressNotDeduplicated(events: seq<ImageReaderEvent>, percent: int)
    ensures ReaderDones(events + [Progress(true, percent), Progress(true, percent)])
      == ReaderDones(events) + [DonePayload(percent, None), DonePayload(percent, None)]
  {
    var tick := Progress(true, percent);
    ReaderDonesAppend(events, [tick, tick]);
    assert [tick][..0] == [];
    assert ReaderDones([tick]) == [DonePayload(percent, None)];
    assert [tick, tick][..1] == [tick];
    assert ReaderDones([tick, tick]) == ReaderDones([tick]) + EventDones(tick);
  }

  lemma {:induction false} ProgressDonesHaveNoUrl(progress: seq<ImageReaderEvent>)
    requires forall i :: 0 <= i < |progress| ==> progress[i].Progress?
    ensures forall k :: 0 <= k < |ReaderDones(progress)| ==> ReaderDones(progress)[k].url.None?
  {
    if progress != [] {
      ProgressDonesHaveNoUrl(progress[..|progress| - 1]);
    }
  }

  /** For the events a reader fires (progress events, then one load or one
      error), exactly one `done` carries a `url`, and it is the last one. */
  lemma TerminalDoneIsUniqueAndLast(progress: seq<ImageReaderEvent>, last: ImageReaderEvent)
    requires forall i :: 0 <= i < |progress| ==> progress[i].Progress?
    requires !last.Progress?
    ensures var dones := ReaderDones(progress + [last]);
      && dones != []
      && dones[|dones| - 1].url.Some?
      && forall k :: 0 <= k < |dones| - 1 ==> dones[k].url.None?
  {
    assert (progress + [last])[..|progress|] == progress;
    ProgressDonesHaveNoUrl(progress);
  }

  /** The callback records the read error exactly when the reader reported
      one; otherwise the earlier `error` stays. */
  lemma {:induction false} ErrorAfterEventsSpec(events: seq<ImageReaderEvent>, before: Option<string>)
    ensures ErrorAfterEvents(events, before) ==
      if exists i :: 0 <= i < |events| && events[i].ReadError? then Some(ImageReadError) else before
  {
    if events != [] {
      var init := events[..|events| - 1];
      ErrorAfterEventsSpec(init, before);
      if !events[|events| - 1].ReadError? {
        assert forall i :: 0 <= i < |init| ==> init[i] == events[i];
      }
    }
  }
}
