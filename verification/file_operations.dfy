/** File transfer of the mail editor: uploading a JSON design file, saving a
    design as a JSON download and exporting HTML as a download, with the
    `isLoading`/`error` flags each operation keeps.
 */
module FileOperations {
  import opened JsValues
  import FileName

  /** 10 MiB, the largest accepted upload. */
  const MaxUploadBytes: nat := 10 * 1024 * 1024

  const JsonExtension: Text := Bmp(".json")
  const HtmlExtension: Text := Bmp(".html")

  const OnlyJsonError: string := "Поддерживаются только JSON файлы"
  const FileTooLargeError: string := "Размер файла превышает 10MB"
  const ReadFailedError: string := "Ошибка чтения файла"
  const BadStructureError: string := "Некорректная структура JSON файла"
  const ParseFailedError: string := "Ошибка парсинга JSON"
  const BadDesignError: string := "Некорректные данные дизайна"
  const BadFileNameError: string := "Некорректное имя файла"
  const BadHtmlError: string := "Некорректный HTML контент"

  /** What a successful operation carries in `data`: the parsed design of an
      upload, or `{ fileName }` of a download. */
  datatype Payload = Design(value: Json) | Saved(fileName: Text)

  /** The envelope `{ success, data?, error? }` every operation resolves with. */
  datatype FileOperationResult = FileOperationResult(success: bool, data: Option<Payload>, error: Option<string>)

  function Succeeded(data: Payload): FileOperationResult
  {
    FileOperationResult(true, Some(data), None)
  }

  function Failed(message: string): FileOperationResult
  {
    FileOperationResult(false, None, Some(message))
  }

  /** A success carries data and no error; a failure carries an error and no
      data. */
  predicate WellFormed(r: FileOperationResult)
  {
    if r.success then r.data.Some? && r.error.None? else r.data.None? && r.error.Some?
  }

  /** The file chosen for upload, as far as the checks look at it. */
  datatype SourceFile = SourceFile(name: Text, size: nat)

  /** Which reader event has been handled: none yet (the reader fires its
      events only after `readAsText` has returned), `onload` with the text
      read, or `onerror`. `Loaded` and `ReadFailed` stand for the state once
      that event's handler has run. */
  datatype ReaderEvent = NotFiredYet | Loaded(text: string) | ReadFailed

  /** The outcome of `JSON.parse` on a text. */
  datatype ParseOutcome = Parsed(value: Json) | ParseThrew(thrown: Thrown)

  /** `s.endsWith(suffix)` */
  predicate EndsWith(s: Text, suffix: Text)
  {
    |suffix| <= |s| && s[|s| - |suffix|..] == suffix
  }

  /** The checks `uploadFile` makes before it reads: the extension first,
      then the size. The result is the message of the first failed check. */
  function UploadPrecheck(file: SourceFile): Option<string>
  {
    if !EndsWith(file.name, JsonExtension) then Some(OnlyJsonError)
    else if file.size > MaxUploadBytes then Some(FileTooLargeError)
    else None
  }

  /** The wrong extension is reported whatever the size; a `.json` file is
      refused for its size exactly when it is larger than 10 MiB. */
  lemma UploadPrecheckOrder(file: SourceFile)
    ensures !EndsWith(file.name, JsonExtension) ==> UploadPrecheck(file) == Some(OnlyJsonError)
    ensures EndsWith(file.name, JsonExtension) ==>
      (UploadPrecheck(file) == Some(FileTooLargeError) <==> file.size > MaxUploadBytes)
    ensures UploadPrecheck(file) == None <==> EndsWith(file.name, JsonExtension) && file.size <= 10485760
  {
  }

  /** The `onload` handler of `uploadFile`: an empty text is a read error; a
      parse error gives the parser's message; a value that is not an object
      is refused; an object (or array) is the design. */
  function ClassifyLoad(text: string, parse: string -> ParseOutcome): (r: FileOperationResult)
    ensures WellFormed(r)
  {
    if text == "" then Failed(ReadFailedError)
    else
      match parse(text)
      case ParseThrew(t) => Failed(MessageOr(t, ParseFailedError))
      case Parsed(json) =>
        if !IsObject(json) then Failed(BadStructureError) else Succeeded(Design(json))
  }

  /** The four outcomes of reading, and the parser is not consulted for an
      empty text. */
  lemma ClassifyLoadOutcomes(text: string, parse: string -> ParseOutcome)
    ensures text == "" ==> ClassifyLoad(text, parse) == Failed(ReadFailedError)
    ensures text != "" && parse(text).ParseThrew? && parse(text).thrown.ErrorObject? ==>
      ClassifyLoad(text, parse) == Failed(parse(text).thrown.message)
    ensures text != "" && parse(text) == ParseThrew(NonError) ==>
      ClassifyLoad(text, parse) == Failed(ParseFailedError)
    ensures text != "" && parse(text).Parsed? ==>
      (ClassifyLoad(text, parse).success <==> IsObject(parse(text).value))
    ensures text != "" && parse(text).Parsed? && !IsObject(parse(text).value) ==>
      ClassifyLoad(text, parse) == Failed(BadStructureError)
    ensures ClassifyLoad(text, parse).success ==>
      text != "" && parse(text).Parsed? && ClassifyLoad(text, parse).data == Some(Design(parse(text).value))
  {
  }

  /** The name a download is saved under: the sanitised name with the
      extension appended unless the sanitised name already ends with it. */
  function FinalFileName(fileName: Text, extension: Text): Text
  {
    var cleanName := FileName.Sanitize(fileName);
    if EndsWith(cleanName, extension) then cleanName else cleanName + extension
  }

  /** The sanitiser turns every `.` into `_`, so a sanitised name never ends
      with an extension that starts with `.`: the final name is always the
      sanitised name followed by the extension. */
  lemma FinalFileNameAppends(fileName: Text, extension: Text)
    requires extension != [] && extension[0] == FileName.Dot
    ensures FinalFileName(fileName, extension) == FileName.Sanitize(fileName) + extension
  {
  }

  /** The argument checks of `saveDesign`: the design first, then the name. */
  function SaveDesignCheck(design: Json, fileName: Text): Option<string>
  {
    if !IsObject(design) then Some(BadDesignError)
    else if fileName == [] then Some(BadFileNameError)
    else None
  }

  /** The argument checks of `exportHtml`: the HTML first, then the name. */
  function ExportHtmlCheck(html: string, fileName: Text): Option<string>
  {
    if html == "" then Some(BadHtmlError)
    else if fileName == [] then Some(BadFileNameError)
    else None
  }

  /** A design that is not an object is reported before a bad name. */
  lemma SaveDesignCheckOrder(design: Json, fileName: Text)
    ensures !IsObject(design) ==> SaveDesignCheck(design, fileName) == Some(BadDesignError)
    ensures IsObject(design) && fileName == [] ==> SaveDesignCheck(design, fileName) == Some(BadFileNameError)
    ensures SaveDesignCheck(design, fileName) == None <==> IsObject(design) && fileName != []
  {
  }

  /** Empty HTML is reported before a bad name. */
  lemma ExportHtmlCheckOrder(html: string, fileName: Text)
    ensures html == "" ==> ExportHtmlCheck(html, fileName) == Some(BadHtmlError)
    ensures html != "" && fileName == [] ==> ExportHtmlCheck(html, fileName) == Some(BadFileNameError)
    ensures ExportHtmlCheck(html, fileName) == None <==> html != "" && fileName != []
  {
  }

  /** The state of one `useFileOperations` instance. */
  class FileOperations {
    var isLoading: bool
    var error: Option<string>

    constructor ()
      ensures !isLoading && error == None
    {
      isLoading := false;
      error := None;
    }

    /** `uploadFile`. A failed pre-read check is recorded in `error`; a
        failure reported by the reader's callbacks is only returned. The
        loading flag is set on entry and stays set exactly while the result
        is still awaited. */
    method UploadFile(file: SourceFile, event: ReaderEvent, parse: string -> ParseOutcome)
      returns (r: Pending<FileOperationResult>)
      modifies this
      ensures isLoading <==> r.Awaiting?
      ensures r.Resolved? ==> WellFormed(r.value)
      ensures UploadPrecheck(file).Some? ==>
        r == Resolved(Failed(UploadPrecheck(file).value)) && error == UploadPrecheck(file)
      ensures UploadPrecheck(file).None? ==> error == None && match event
        case NotFiredYet => r == Awaiting
        case Loaded(text) => r == Resolved(ClassifyLoad(text, parse))
        case ReadFailed => r == Resolved(Failed(ReadFailedError))
    {
      isLoading := true;
      error := None;
      var precheck := UploadPrecheck(file);
      if precheck.Some? {
        isLoading := false;
        error := precheck;
        r := Resolved(Failed(precheck.value));
        return;
      }
      match event
      case NotFiredYet =>
        r := Awaiting;
      case Loaded(text) =>
        r := Resolved(ClassifyLoad(text, parse));
        isLoading := false;
      case ReadFailed =>
        isLoading := false;
        r := Resolved(Failed(ReadFailedError));
    }

    /** `saveDesign`. On success the download is named by the sanitised name
        followed by `.json`; on failure the message is returned and recorded. */
    method SaveDesign(design: Json, fileName: Text) returns (r: FileOperationResult)
      modifies this
      ensures !isLoading && WellFormed(r)
      ensures r.success <==> SaveDesignCheck(design, fileName) == None
      ensures r.success ==>
        r.data == Some(Saved(FileName.Sanitize(fileName) + JsonExtension)) && error == None
      ensures !r.success ==> r.error == SaveDesignCheck(design, fileName) && error == r.error
    {
      isLoading := true;
      error := None;
      var check := SaveDesignCheck(design, fileName);
      if check.Some? {
        isLoading := false;
        error := check;
        r := Failed(check.value);
        return;
      }
      var finalFileName := FinalFileName(fileName, JsonExtension);
      FinalFileNameAppends(fileName, JsonExtension);
      isLoading := false;
      r := Succeeded(Saved(finalFileName));
    }

    /** `exportHtml`. On success the download is named by the sanitised name
        followed by `.html`; on failure the message is returned and recorded. */
    method ExportHtml(html: string, fileName: Text) returns (r: FileOperationResult)
      modifies this
      ensures !isLoading && WellFormed(r)
      ensures r.success <==> ExportHtmlCheck(html, fileName) == None
      ensures r.success ==>
        r.data == Some(Saved(FileName.Sanitize(fileName) + HtmlExtension)) && error == None
      ensures !r.success ==> r.error == ExportHtmlCheck(html, fileName) && error == r.error
    {
      isLoading := true;
      error := None;
      var check := ExportHtmlCheck(html, fileName);
      if check.Some? {
        isLoading := false;
        error := check;
        r := Failed(check.value);
        return;
      }
      var finalFileName := FinalFileName(fileName, HtmlExtension);
      FinalFileNameAppends(fileName, HtmlExtension);
      isLoading := false;
      r := Succeeded(Saved(finalFileName));
    }
  }
}
