/**
 * The bot wrapper: construction, the two Telegram Bot API URLs, the two-step
 * file retrieval, the output-name derivation and the two conversion handlers.
 *
 * Everything outside the process (HTTP requests with their timeout, JSON
 * decoding, the HEIC codec, the SDK's Send) is a `Services` record of total
 * functions; every request the bot makes is recorded as a `Call`, so that
 * the order of the stages and their short-circuiting can be stated.
 */
module TgBot {
  import opened Wrappers
  import opened Strings
  import opened BotApi

  datatype Error = Error(reason: string)

  /** The configured key and the token the SDK client was created with. */
  datatype TgBot = TgBot(apiKey: string, token: string)

  /** The outside world, as the bot sees it. */
  datatype Services = Services(
    get: string -> Result<Bytes, Error>,          // HTTP GET and reading of the body
    decodeFilePath: Bytes -> Result<string, Error>, // JSON decoding of a getFile reply
    heicToJpg: Bytes -> Result<Bytes, Error>,      // the external HEIC codec
    send: Upload -> Outcome<Error>)                // the SDK's Send

  /** A request the bot makes to the outside world. */
  datatype Call = Get(url: string) | Convert(input: Bytes) | Send(upload: Upload)

  /** What a handler ends with: success, or the log line of the stage that failed. */
  datatype Report = Sent | GetDocumentError(error: Error) | HeicToJpgError(error: Error) | SendError(error: Error)

  // ---------------------------------------------------------------- construction

  /** `ParseEnvs`: the key comes from the required variable BOT_API_KEY. */
  function ParseEnvs(botApiKey: Option<string>): (r: Result<string, Error>)
    ensures r.Ok? <==> botApiKey.Some?
    ensures r.Ok? ==> r.value == botApiKey.value
  {
    match botApiKey
    case Some(key) => Ok(key)
    case None => Err(Error("env parsing error: required environment variable \"BOT_API_KEY\" is not set"))
  }

  /**
   * `NewTgBot`. The error of ParseEnvs is overwritten before it is checked, so
   * a missing variable leaves the key empty and only the SDK's own check of
   * the token (`getMe`) decides whether construction fails.
   */
  function NewTgBot(botApiKey: Option<string>, getMe: string -> Outcome<Error>): (r: Result<TgBot, Error>)
    ensures var key := if botApiKey.Some? then botApiKey.value else "";
            && (r.Ok? <==> getMe(key).Pass?)
            && (r.Ok? ==> r.value.apiKey == key && r.value.token == key)
            && (r.Err? ==> r.error == getMe(key).error)
  {
    var parsed := ParseEnvs(botApiKey);
    var key := if parsed.Ok? then parsed.value else "";
    match getMe(key)
    case Pass => Ok(TgBot(key, key))
    case Fail(e) => Err(e)
  }

  /** A missing BOT_API_KEY is never reported by NewTgBot itself. */
  lemma MissingKeyIsNotReported(getMe: string -> Outcome<Error>)
    requires getMe("").Pass?
    ensures ParseEnvs(None).Err?
    ensures NewTgBot(None, getMe) == Ok(TgBot("", ""))
  {
  }

  // ---------------------------------------------------------------- URLs

  const GetFilePrefix := "https://api.telegram.org/bot"
  const GetFileQuery := "/getFile?file_id="
  const FilePrefix := "https://api.telegram.org/file/bot"

  /** The getFile query of `getFilePath`, with token and file id inserted verbatim. */
  function GetFileUrl(token: string, fileId: string): string {
    GetFilePrefix + token + GetFileQuery + fileId
  }

  /** The download URL of `getFile`, with token and server-side path inserted verbatim. */
  function FileUrl(token: string, filePath: string): string {
    FilePrefix + token + "/" + filePath
  }

  /**
   * Reads `prefix + a + separator + b` back into `(a, b)`, where `a` ends at
   * the first occurrence of the separator's first character.
   */
  function SplitUrl(url: string, prefix: string, separator: string): Option<(string, string)>
    requires separator != []
  {
    if !(prefix <= url) then None
    else
      var rest := url[|prefix|..];
      var k := IndexOf(rest, separator[0]);
      if separator <= rest[k..] then Some((rest[..k], rest[k + |separator|..])) else None
  }

  /** Joining and then splitting gives back both parts. */
  lemma SplitUrlJoin(prefix: string, a: string, separator: string, b: string)
    requires separator != [] && separator[0] !in a
    ensures SplitUrl(prefix + a + separator + b, prefix, separator) == Some((a, b))
  {
    var url := prefix + a + separator + b;
    var tail := separator + b;
    assert url == prefix + (a + tail);
    var rest := url[|prefix|..];
    assert rest == a + tail;
    IndexOfAppend(a, tail, separator[0]);
    assert rest[|a|..] == tail;
    assert tail[|separator|..] == b;
  }

  /** Whatever splits is the join of its parts. */
  lemma SplitUrlParts(url: string, prefix: string, separator: string)
    requires separator != [] && SplitUrl(url, prefix, separator).Some?
    ensures url == prefix + SplitUrl(url, prefix, separator).value.0 + separator + SplitUrl(url, prefix, separator).value.1
    ensures separator[0] !in SplitUrl(url, prefix, separator).value.0
  {
  }

  /** SplitUrl inverts the join exactly when the first part avoids the separator's first character. */
  lemma SplitUrlParses(url: string, prefix: string, separator: string, a: string, b: string)
    requires separator != []
    ensures SplitUrl(url, prefix, separator) == Some((a, b)) <==> url == prefix + a + separator + b && separator[0] !in a
  {
    if SplitUrl(url, prefix, separator).Some? {
      SplitUrlParts(url, prefix, separator);
    }
    if separator[0] !in a {
      SplitUrlJoin(prefix, a, separator, b);
    }
  }

  /** Reads token and file id back out of a getFile query URL. */
  function ParseGetFileUrl(url: string): Option<(string, string)> {
    SplitUrl(url, GetFilePrefix, GetFileQuery)
  }

  /** Reads token and file path back out of a download URL. */
  function ParseFileUrl(url: string): Option<(string, string)> {
    SplitUrl(url, FilePrefix, "/")
  }

  /**
   * A URL is a getFile query exactly when it parses, and it then names the
   * token and file id it was built from. Telegram tokens contain no '/'.
   */
  lemma GetFileUrlParses(url: string, token: string, fileId: string)
    ensures ParseGetFileUrl(url) == Some((token, fileId)) <==> url == GetFileUrl(token, fileId) && '/' !in token
  {
    SplitUrlParses(url, GetFilePrefix, GetFileQuery, token, fileId);
  }

  /** The same for download URLs; the file path may itself contain '/'. */
  lemma FileUrlParses(url: string, token: string, filePath: string)
    ensures ParseFileUrl(url) == Some((token, filePath)) <==> url == FileUrl(token, filePath) && '/' !in token
  {
    SplitUrlParses(url, FilePrefix, "/", token, filePath);
  }

  /** A getFile query is never a download URL, whatever the tokens, ids and paths. */
  lemma GetFileUrlIsNotDownload(token: string, fileId: string, token': string, filePath: string)
    ensures GetFileUrl(token, fileId) != FileUrl(token', filePath)
    ensures ParseFileUrl(GetFileUrl(token, fileId)).None?
  {
    assert GetFileUrl(token, fileId)[25] == 'b';
    assert FileUrl(token', filePath)[25] == 'f';
    var url := GetFileUrl(token, fileId);
    assert url[..|FilePrefix|] != FilePrefix by {
      assert |url| < |FilePrefix| || url[..|FilePrefix|][25] == 'b';
    }
  }

  // ---------------------------------------------------------------- retrieval

  /** What `getFilePath` yields: the request error, the JSON decoding error, or the path. */
  function FilePathOf(svc: Services, token: string, fileId: string): Result<string, Error> {
    match svc.get(GetFileUrl(token, fileId))
    case Err(e) => Err(e)
    case Ok(body) => svc.decodeFilePath(body)
  }

  /** What `GetDocument` yields: the first error of the two requests, or the downloaded bytes. */
  function DocumentOf(svc: Services, token: string, fileId: string): Result<Bytes, Error> {
    match FilePathOf(svc, token, fileId)
    case Err(e) => Err(e)
    case Ok(filePath) => svc.get(FileUrl(token, filePath))
  }

  /** The requests `GetDocument` issues: the download only after the path was obtained. */
  function RetrievalTrace(svc: Services, token: string, fileId: string): seq<Call> {
    [Get(GetFileUrl(token, fileId))] +
    match FilePathOf(svc, token, fileId)
    case Err(_) => []
    case Ok(filePath) => [Get(FileUrl(token, filePath))]
  }

  /** `getFilePath`: one GET of the getFile query, then the JSON decoding of its body. */
  method GetFilePath(bot: TgBot, svc: Services, fileId: string) returns (filePath: Result<string, Error>, calls: seq<Call>)
    ensures calls == [Get(GetFileUrl(bot.token, fileId))]
    ensures filePath == FilePathOf(svc, bot.token, fileId)
  {
    var url := GetFileUrl(bot.token, fileId);
    calls := [Get(url)];
    var resp := svc.get(url);
    if resp.Err? {
      return Err(resp.error), calls;
    }
    filePath := svc.decodeFilePath(resp.value);
  }

  /** `getFile`: one GET of the download URL. */
  method GetFile(bot: TgBot, svc: Services, filePath: string) returns (file: Result<Bytes, Error>, calls: seq<Call>)
    ensures calls == [Get(FileUrl(bot.token, filePath))]
    ensures file == svc.get(FileUrl(bot.token, filePath))
  {
    var url := FileUrl(bot.token, filePath);
    calls := [Get(url)];
    file := svc.get(url);
  }

  /** `GetDocument`: resolve the file id to a path, then download; stop at the first error. */
  method GetDocument(bot: TgBot, svc: Services, fileId: string) returns (file: Result<Bytes, Error>, calls: seq<Call>)
    ensures file == DocumentOf(svc, bot.token, fileId)
    ensures calls == RetrievalTrace(svc, bot.token, fileId)
  {
    var filePath;
    filePath, calls := GetFilePath(bot, svc, fileId);
    if filePath.Err? {
      return Err(filePath.error), calls;
    }
    var more;
    file, more := GetFile(bot, svc, filePath.value);
    calls := calls + more;
  }

  /**
   * Retrieval always starts with the getFile query; when that stage fails its
   * error is returned and no download request is issued at all.
   */
  lemma RetrievalShortCircuits(svc: Services, token: string, fileId: string)
    ensures |RetrievalTrace(svc, token, fileId)| >= 1
    ensures RetrievalTrace(svc, token, fileId)[0] == Get(GetFileUrl(token, fileId))
    ensures forall c :: c in RetrievalTrace(svc, token, fileId) ==> c.Get?
    ensures FilePathOf(svc, token, fileId).Err? ==>
              && DocumentOf(svc, token, fileId) == Err(FilePathOf(svc, token, fileId).error)
              && forall c :: c in RetrievalTrace(svc, token, fileId) ==> c.Get? && ParseFileUrl(c.url).None?
    ensures FilePathOf(svc, token, fileId).Ok? ==>
              RetrievalTrace(svc, token, fileId)[1..] == [Get(FileUrl(token, FilePathOf(svc, token, fileId).value))]
  {
    GetFileUrlIsNotDownload(token, fileId, token, "");
  }

  // ---------------------------------------------------------------- output name

  const LowerExt := "heic"
  const UpperExt := "HEIC"

  /**
   * The output name: TrimRight by "heic", then by "HEIC", then ".jpg"
   * appended. Both cutsets are character sets, so the '.' before the
   * extension stays and letters of a name can be eaten.
   */
  function JpgName(fileName: string): (r: string)
    ensures |r| >= 4 && r[|r| - 4..] == ".jpg"
    ensures r[..|r| - 4] <= fileName
  {
    TrimRight(TrimRight(fileName, LowerExt), UpperExt) + ".jpg"
  }

  /**
   * `name` splits as stem + upper + lower: `lower` is the longest run of
   * characters of "heic" at its end, `upper` the longest run of characters
   * of "HEIC" before that, and `stem` the rest.
   */
  ghost predicate HeicSplit(name: string, stem: string, upper: string, lower: string) {
    && name == stem + upper + lower
    && AllIn(lower, LowerExt)
    && AllIn(upper, UpperExt)
    && (stem + upper == [] || (stem + upper)[|stem + upper| - 1] !in LowerExt)
    && (stem == [] || stem[|stem| - 1] !in UpperExt)
  }

  /** Whatever split satisfies HeicSplit, its stem is what JpgName keeps. */
  lemma JpgNameOfSplit(name: string, stem: string, upper: string, lower: string)
    requires HeicSplit(name, stem, upper, lower)
    ensures JpgName(name) == stem + ".jpg"
  {
    assert name[..|stem + upper|] == stem + upper;
    assert name[|stem + upper|..] == lower;
    TrimRightUnique(name, LowerExt, stem + upper);
    assert (stem + upper)[|stem|..] == upper;
    TrimRightUnique(stem + upper, UpperExt, stem);
  }

  /** Every name has such a split, and JpgName is its stem followed by ".jpg". */
  lemma JpgNameSplits(name: string) returns (stem: string, upper: string, lower: string)
    ensures HeicSplit(name, stem, upper, lower)
    ensures JpgName(name) == stem + ".jpg"
  {
    var trimmed := TrimRight(name, LowerExt);
    stem := TrimRight(trimmed, UpperExt);
    upper := trimmed[|stem|..];
    lower := name[|trimmed|..];
    assert trimmed == stem + upper;
    assert name == trimmed + lower;
    assert AllIn(lower, LowerExt) && AllIn(upper, UpperExt);
    assert trimmed == [] || trimmed[|trimmed| - 1] !in LowerExt;
    assert stem == [] || stem[|stem| - 1] !in UpperExt;
  }

  /** A name not ending in any of h, e, i, c, H, E, I, C only gets ".jpg" appended. */
  lemma JpgNameKeepsPlainName(name: string)
    requires name == [] || name[|name| - 1] !in LowerExt + UpperExt
    ensures JpgName(name) == name + ".jpg"
  {
  }

  /** The '.' before the extension is never trimmed: "x.heic" becomes "x..jpg". */
  lemma JpgNameKeepsDot(stem: string)
    ensures JpgName(stem + ".heic") == stem + "..jpg"
  {
    var dotted := stem + ".";
    assert stem + ".heic" == dotted + [] + LowerExt;
    JpgNameOfSplit(stem + ".heic", dotted, [], LowerExt);
    assert dotted + ".jpg" == stem + "..jpg";
  }

  /** Nor in upper case: "photo.HEIC" becomes "photo..jpg". */
  lemma JpgNameKeepsDotUpper(stem: string)
    ensures JpgName(stem + ".HEIC") == stem + "..jpg"
  {
    var dotted := stem + ".";
    assert stem + ".HEIC" == dotted + UpperExt + [];
    JpgNameOfSplit(stem + ".HEIC", dotted, UpperExt, []);
    assert dotted + ".jpg" == stem + "..jpg";
  }

  /** A name made only of the letters h, e, i, c (such as "chic") becomes ".jpg". */
  lemma JpgNameOfLowerLetters(name: string)
    requires AllIn(name, LowerExt)
    ensures JpgName(name) == ".jpg"
  {
  }

  /** Letters of the name itself go when they are in the cut set: "niche" becomes "n.jpg". */
  lemma JpgNameEatsLetters()
    ensures JpgName("niche") == "n.jpg"
  {
    assert "niche" == "n" + "" + "iche";
    assert AllIn("iche", LowerExt);
    JpgNameOfSplit("niche", "n", "", "iche");
  }

  /** Only the lower-case letters of a mixed-case extension go first: ".Heic" still leaves "..jpg". */
  lemma JpgNameCapitalExtension(stem: string)
    ensures JpgName(stem + ".Heic") == stem + "..jpg"
  {
    var dotted := stem + ".";
    assert stem + ".Heic" == dotted + "H" + "eic";
    JpgNameOfSplit(stem + ".Heic", dotted, "H", "eic");
    assert dotted + ".jpg" == stem + "..jpg";
  }

  /**
   * Each trim runs once, lower case first: for ".hEIC" the second trim
   * leaves a name ending in a letter of "heic", which stays.
   */
  lemma JpgNameMixedCase(stem: string)
    ensures JpgName(stem + ".hEIC") == stem + ".h.jpg"
  {
    var kept := stem + ".h";
    assert stem + ".hEIC" == kept + "EIC" + [];
    JpgNameOfSplit(stem + ".hEIC", kept, "EIC", []);
    assert kept + ".jpg" == stem + ".h.jpg";
  }

  // ---------------------------------------------------------------- handlers

  /** There is a conversion request among `calls`. */
  ghost predicate Converts(calls: seq<Call>) {
    exists c :: c in calls && c.Convert?
  }

  /** There is a send request among `calls`. */
  ghost predicate Sends(calls: seq<Call>) {
    exists c :: c in calls && c.Send?
  }

  /**
   * What a handler does with a message carrying a document: retrieve it,
   * convert it, send it as `kind` to the message's chat under JpgName of
   * the document's name, stopping at the first stage that fails and
   * reporting that stage's error.
   */
  ghost predicate Handled(kind: UploadKind, bot: TgBot, svc: Services, message: Message, report: Report, calls: seq<Call>) {
    && message.document.Some?
    && var doc := message.document.value;
       var retrieval := RetrievalTrace(svc, bot.token, doc.fileId);
       match DocumentOf(svc, bot.token, doc.fileId)
       case Err(e) => report == GetDocumentError(e) && calls == retrieval
       case Ok(heic) =>
         match svc.heicToJpg(heic)
         case Err(e) => report == HeicToJpgError(e) && calls == retrieval + [Convert(heic)]
         case Ok(jpg) =>
           var upload := Upload(kind, message.chatId, JpgName(doc.fileName), jpg);
           && calls == retrieval + [Convert(heic), Send(upload)]
           && report == match svc.send(upload) case Pass => Sent case Fail(e) => SendError(e)
  }

  /** The body shared by both handlers; they differ only in the kind of upload. */
  method Heic2Jpg(kind: UploadKind, bot: TgBot, svc: Services, message: Message) returns (report: Report, calls: seq<Call>)
    requires message.document.Some?
    ensures Handled(kind, bot, svc, message, report, calls)
  {
    var doc := message.document.value;
    var file;
    file, calls := GetDocument(bot, svc, doc.fileId);
    if file.Err? {
      return GetDocumentError(file.error), calls;
    }
    calls := calls + [Convert(file.value)];
    var jpgFile := svc.heicToJpg(file.value);
    if jpgFile.Err? {
      return HeicToJpgError(jpgFile.error), calls;
    }
    var jpgName := TrimRight(doc.fileName, LowerExt);
    jpgName := TrimRight(jpgName, UpperExt);
    jpgName := jpgName + ".jpg";
    var upload := Upload(kind, message.chatId, jpgName, jpgFile.value);
    calls := calls + [Send(upload)];
    var sent := svc.send(upload);
    report := if sent.Fail? then SendError(sent.error) else Sent;
  }

  /** `Heic2JpgDoc`: convert the message's document and send it back as a document. */
  method Heic2JpgDoc(bot: TgBot, svc: Services, message: Message) returns (report: Report, calls: seq<Call>)
    requires message.document.Some?
    ensures Handled(DocumentUpload, bot, svc, message, report, calls)
  {
    report, calls := Heic2Jpg(DocumentUpload, bot, svc, message);
  }

  /** `Heic2JpgCompress`: convert the message's document and send it back as a photo. */
  method Heic2JpgCompress(bot: TgBot, svc: Services, message: Message) returns (report: Report, calls: seq<Call>)
    requires message.document.Some?
    ensures Handled(PhotoUpload, bot, svc, message, report, calls)
  {
    report, calls := Heic2Jpg(PhotoUpload, bot, svc, message);
  }

  /**
   * The stages run in order and each runs exactly when all before it
   * succeeded; a send goes to the message's chat under the derived name.
   */
  lemma HandledStages(kind: UploadKind, bot: TgBot, svc: Services, message: Message, report: Report, calls: seq<Call>)
    requires Handled(kind, bot, svc, message, report, calls)
    ensures var doc := message.document.value;
            var retrieval := RetrievalTrace(svc, bot.token, doc.fileId);
            var fetched := DocumentOf(svc, bot.token, doc.fileId);
            && retrieval <= calls
            && (Converts(calls) <==> fetched.Ok?)
            && (Sends(calls) <==> fetched.Ok? && svc.heicToJpg(fetched.value).Ok?)
            && (report.GetDocumentError? <==> fetched.Err?)
            && (report.HeicToJpgError? <==> fetched.Ok? && svc.heicToJpg(fetched.value).Err?)
            && (report.Sent? || report.SendError? <==> Sends(calls))
            && forall c :: c in calls && c.Send? ==>
                 c.upload.kind == kind && c.upload.chatId == message.chatId && c.upload.name == JpgName(doc.fileName)
  {
    var doc := message.document.value;
    var retrieval := RetrievalTrace(svc, bot.token, doc.fileId);
    RetrievalShortCircuits(svc, bot.token, doc.fileId);
    var fetched := DocumentOf(svc, bot.token, doc.fileId);
    if fetched.Ok? {
      var heic := fetched.value;
      assert Convert(heic) in calls;
      if svc.heicToJpg(heic).Ok? {
        var upload := Upload(kind, message.chatId, JpgName(doc.fileName), svc.heicToJpg(heic).value);
        assert Send(upload) in calls;
        assert forall c :: c in calls && c.Send? ==> c == Send(upload);
      } else {
        assert forall c :: c in calls ==> c in retrieval || c == Convert(heic);
      }
    }
  }

  /**
   * The document handler and the photo handler issue the same requests on
   * the same message, except that the uploads differ in kind: in particular
   * both derive the same file name.
   */
  lemma HandlersAgree(bot: TgBot, svc: Services, message: Message, report: Report, calls: seq<Call>, report': Report, calls': seq<Call>)
    requires Handled(DocumentUpload, bot, svc, message, report, calls)
    requires Handled(PhotoUpload, bot, svc, message, report', calls')
    ensures |calls| == |calls'|
    ensures forall k :: 0 <= k < |calls| ==>
              calls[k] == calls'[k] || (calls[k].Send? && calls'[k].Send? && calls[k].upload.(kind := PhotoUpload) == calls'[k].upload)
  {
  }
}
