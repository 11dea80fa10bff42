/**
 * The program's entry point: build the bot, then handle the updates of the
 * long-poll feed one at a time, choosing for each one of three actions by a
 * priority-ordered switch.
 */
module Main {
  import opened Wrappers
  import opened BotApi
  import opened TgBot

  /** The one command the bot answers to, as a reply to a HEIC document. */
  const FullCommand := "/full"

  /** The MIME type that marks a document as HEIC; compared exactly. */
  const HeicMimeType := "image/heic"

  /** What the switch decides for one update; the argument is the message whose document is converted. */
  datatype Action = Ignore | Compress(message: Message) | FullDoc(message: Message)

  /** The message carries a document whose MIME type is exactly "image/heic". */
  predicate IsHeicDocument(m: Message) {
    m.document.Some? && m.document.value.mimeType == HeicMimeType
  }

  /**
   * The switch of the update loop. Its cases are tried in order, so a
   * message with a HEIC document of its own is compressed whatever its text
   * or reply, and "/full" only counts when that first case did not apply.
   */
  function Classify(u: Update): (a: Action)
    ensures u.message.None? ==> a == Ignore
    ensures a.Compress? <==> u.message.Some? && IsHeicDocument(u.message.value)
    ensures a.Compress? ==> a.message == u.message.value
    ensures a.FullDoc? <==>
              && u.message.Some?
              && !IsHeicDocument(u.message.value)
              && u.message.value.text == FullCommand
              && u.message.value.replyTo.Some?
              && IsHeicDocument(u.message.value.replyTo.value)
    ensures a.FullDoc? ==> a.message == u.message.value.replyTo.value
    ensures !a.Ignore? ==> IsHeicDocument(a.message)
  {
    match u.message
    case None => Ignore
    case Some(m) =>
      if m.document.Some? && m.document.value.mimeType == HeicMimeType then Compress(m)
      else if m.text == FullCommand && m.replyTo.Some? && m.replyTo.value.document.Some?
              && m.replyTo.value.document.value.mimeType == HeicMimeType then FullDoc(m.replyTo.value)
      else Ignore
  }

  /** A HEIC document of the message itself wins over a "/full" reply. */
  lemma CompressTakesPriority(m: Message)
    requires IsHeicDocument(m)
    ensures Classify(Update(Some(m))) == Compress(m)
  {
  }

  /** "/full" is ignored unless it replies to a message with a HEIC document. */
  lemma FullNeedsHeicReply(m: Message)
    requires !IsHeicDocument(m) && m.text == FullCommand
    requires m.replyTo.None? || m.replyTo.value.document.None? || m.replyTo.value.document.value.mimeType != HeicMimeType
    ensures Classify(Update(Some(m))) == Ignore
  {
  }

  /** MIME type and command are matched exactly: no case folding, no HEIF, no "@botname" suffix. */
  lemma MatchingIsExact(text: string, doc: Document, reply: Option<Message>, chatId: int, heic: Message)
    requires IsHeicDocument(heic)
    ensures Classify(Update(Some(Message(text, Some(doc.(mimeType := "image/HEIC")), None, chatId)))) == Ignore
    ensures Classify(Update(Some(Message(text, Some(doc.(mimeType := "image/heif")), None, chatId)))) == Ignore
    ensures Classify(Update(Some(Message("/full@bot", None, Some(heic), chatId)))) == Ignore
  {
  }

  /** What the loop did with one update: the action, the handler's report, the requests made. */
  datatype Handling = Handling(action: Action, report: Option<Report>, calls: seq<Call>)

  /**
   * One iteration of the loop: an ignored update causes no request at all;
   * otherwise the photo handler runs on the message itself, or the document
   * handler on the replied-to message.
   */
  ghost predicate Served(bot: TgBot, svc: Services, u: Update, h: Handling) {
    && h.action == Classify(u)
    && match h.action
       case Ignore => h.report == None && h.calls == []
       case Compress(m) => h.report.Some? && Handled(PhotoUpload, bot, svc, m, h.report.value, h.calls)
       case FullDoc(m) => h.report.Some? && Handled(DocumentUpload, bot, svc, m, h.report.value, h.calls)
  }

  /**
   * The `for update := range` loop over a finite prefix of the feed: updates
   * are handled one at a time, in order, each independently of the others.
   */
  method Serve(bot: TgBot, svc: Services, updates: seq<Update>) returns (log: seq<Handling>)
    ensures |log| == |updates|
    ensures forall i :: 0 <= i < |updates| ==> Served(bot, svc, updates[i], log[i])
  {
    log := [];
    var i := 0;
    while i < |updates|
      invariant 0 <= i <= |updates|
      invariant |log| == i
      invariant forall k :: 0 <= k < i ==> Served(bot, svc, updates[k], log[k])
    {
      var action := Classify(updates[i]);
      var handling := Handling(action, None, []);
      match action {
        case Ignore =>
        case Compress(m) =>
          var report, calls := Heic2JpgCompress(bot, svc, m);
          handling := Handling(action, Some(report), calls);
        case FullDoc(m) =>
          var report, calls := Heic2JpgDoc(bot, svc, m);
          handling := Handling(action, Some(report), calls);
      }
      log := log + [handling];
      i := i + 1;
    }
  }

  /** The loop's actions are Classify applied to each update, in order. */
  lemma ServedActions(bot: TgBot, svc: Services, updates: seq<Update>, log: seq<Handling>)
    requires |log| == |updates|
    requires forall i :: 0 <= i < |updates| ==> Served(bot, svc, updates[i], log[i])
    ensures forall i :: 0 <= i < |updates| ==> log[i].action == Classify(updates[i])
    ensures forall i :: 0 <= i < |updates| ==> (log[i].calls == [] <==> log[i].action == Ignore)
  {
  }

  /**
   * `main`: when the bot cannot be built the program panics before reading
   * any update; otherwise it serves the updates.
   */
  method Run(botApiKey: Option<string>, getMe: string -> Outcome<Error>, svc: Services, updates: seq<Update>)
    returns (result: Result<seq<Handling>, Error>)
    ensures NewTgBot(botApiKey, getMe).Err? ==> result == Err(NewTgBot(botApiKey, getMe).error)
    ensures NewTgBot(botApiKey, getMe).Ok? ==>
              && result.Ok?
              && |result.value| == |updates|
              && forall i :: 0 <= i < |updates| ==> Served(NewTgBot(botApiKey, getMe).value, svc, updates[i], result.value[i])
  {
    var bot := NewTgBot(botApiKey, getMe);
    if bot.Err? {
      return Err(bot.error);
    }
    var log := Serve(bot.value, svc, updates);
    result := Ok(log);
  }
}
