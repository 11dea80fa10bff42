# heic2jpg_bot, modelled in Dafny

A Telegram bot that converts HEIC images to JPEG. It long-polls the Bot API for
updates and decides for each update, by a priority-ordered switch, whether to
ignore it, to compress the message's own HEIC document, or to answer a `/full`
reply by converting the replied-to message's HEIC document. A conversion is
the same three-stage pipeline in either case:

1. retrieve the file, first through the `getFile` query, then by downloading `file/bot<token>/<path>`;
2. convert it with the external codec;
3. send it back to the chat as a photo or as a document.

The output name is derived by two character-set trims (`strings.TrimRight`
by `"heic"`, then by `"HEIC"`) followed by `".jpg"`.

Modules, one per component:

- `Wrappers` (wrappers.dfy): `Option`, `Result`, `Outcome`.
- `Strings` (strings.dfy): Go's `strings.TrimRight` as a function, the backward scan that computes it, and an index search used to parse URLs.
- `BotApi` (botapi.dfy): the SDK values the bot reads and builds: `Update`, `Message`, `Document`, `Upload`.
- `TgBot` (tgbot.dfy): the contents of tgbot.go.
  - Construction.
  - The two URLs, with parsers proved to invert them.
  - The retrieval stages.
  - The output name.
  - The two handlers.
- `Main` (main.go → main.dfy): the constants, `Classify` for the switch, the update loop `Serve`, and `Run` for `main`.

The outside world is a `Services` record of total functions. It holds the HTTP
GET with body read, the JSON decoding of a `getFile` reply, the HEIC codec and
the SDK's `Send`. Every request a handler makes is recorded as a `Call` in a
returned trace; the `getMe` check at construction and the long poll are not
recorded. What a handler would log is returned as a `Report`. Stage
order and short-circuiting are stated over these traces.

A literal-suffix reading of the name derivation would turn `"photo.HEIC"`
and `"x.heic"` into `"photo.jpg"` and `"x.jpg"`. Because the trims work on
character sets, the code gives `"photo..jpg"` and `"x..jpg"`, and the model
follows the code. The `.` is never trimmed (`TgBot.JpgNameKeepsDot`). Letters of the
name itself can be removed (`"niche"` gives `"n.jpg"`). An extension in mixed
case is only partly removed (`"x.hEIC"` gives `"x.h.jpg"`).

Two quirks of the code: the first is modelled, the second is listed under Left out below.

- `NewTgBot` overwrites the error from `ParseEnvs` (tgbot.go:24-26). So a missing `BOT_API_KEY` is not reported: the SDK is simply handed an empty token. `TgBot.MissingKeyIsNotReported` proves this.
- `defer resp.Body.Close()` runs before the error check (tgbot.go:72-73, 97-98). A failed request would therefore dereference a nil response instead of returning its error. The model takes the error-return path that the surrounding code is written for.

## Model

| member | source | states |
|---|---|---|
| `Strings.TrimRight` | tgbot.go:123-124 | Result is a prefix of the input, does not end in a cutset character, and everything removed is in the cutset |
| `Strings.TrimRightUnique` | tgbot.go:123-124 | Those three properties determine TrimRight's result (the maximal trailing run is removed, nothing else) |
| `Strings.TrimRightIdempotent` | tgbot.go:123-124 | Trimming twice with the same cutset equals trimming once |
| `Strings.TrimRightKeeps` | tgbot.go:123-124 | A string not ending in a cutset character is returned unchanged |
| `Strings.TrimRightScan` | tgbot.go:123 | The backward index scan returns exactly TrimRight(s, cutset) |
| `TgBot.ParseEnvs` | tgbot.go:39-45 | Succeeds exactly when BOT_API_KEY is present, yielding its value |
| `TgBot.NewTgBot` | tgbot.go:22-37 | Succeeds exactly when the SDK accepts the key (empty when the variable is missing); the bot's key and token are that key; the only error reported is the SDK's |
| `TgBot.MissingKeyIsNotReported` | tgbot.go:24-26 | Env parsing fails without BOT_API_KEY, yet NewTgBot succeeds with an empty key whenever the SDK accepts it |
| `TgBot.SplitUrlParses` | tgbot.go:71-96 | Helper for the two URL lemmas below (it models no source line by itself): for any prefix and non-empty separator, splitting a URL gives (a, b) if and only if the URL is prefix + a + separator + b and a avoids the separator's first character |
| `TgBot.GetFileUrlParses` | tgbot.go:71 | A URL parses to (token, id) if and only if it is `https://api.telegram.org/bot<token>/getFile?file_id=<id>` with a '/'-free token |
| `TgBot.FileUrlParses` | tgbot.go:96 | A URL parses to (token, path) if and only if it is `https://api.telegram.org/file/bot<token>/<path>` with a '/'-free token |
| `TgBot.GetFileUrlIsNotDownload` | tgbot.go:71-96 | A getFile query never equals, and never parses as, a download URL |
| `TgBot.GetFilePath` | tgbot.go:70-93 | Issues exactly one GET, to the getFile query for the file id; returns the request error, else the decoding result |
| `TgBot.GetFile` | tgbot.go:95-109 | Issues exactly one GET, to the download URL for the path, and returns its result |
| `TgBot.GetDocument` | tgbot.go:56-68 | Returns DocumentOf (first error of the two stages, else the bytes) and issues RetrievalTrace (the download only after the path was obtained) |
| `TgBot.RetrievalShortCircuits` | tgbot.go:56-68 | Retrieval starts with the getFile query; if that stage fails its error is returned and no request is a download URL; otherwise exactly one download of the resolved path follows |
| `TgBot.JpgName` | tgbot.go:123-125 | The name ends in ".jpg" and what precedes it is a prefix of the original file name |
| `TgBot.JpgNameOfSplit` | tgbot.go:123-125 | If the name is stem + U + L, with L the maximal trailing run of {h,e,i,c} and U the maximal run of {H,E,I,C} before it, the output is stem + ".jpg" |
| `TgBot.JpgNameSplits` | tgbot.go:123-125 | Every name has such a split, and the output is its stem + ".jpg"; the stem does not end in H, E, I or C |
| `TgBot.JpgNameKeepsPlainName` | tgbot.go:123-125 | A name whose last character is outside {h,e,i,c,H,E,I,C} yields name + ".jpg" |
| `TgBot.JpgNameKeepsDot` | tgbot.go:123-125 | stem + ".heic" yields stem + "..jpg": the '.' is never trimmed |
| `TgBot.JpgNameKeepsDotUpper` | tgbot.go:123-125 | stem + ".HEIC" also yields stem + "..jpg" |
| `TgBot.JpgNameOfLowerLetters` | tgbot.go:123-125 | A name made only of h, e, i, c (such as "chic") yields ".jpg" |
| `TgBot.JpgNameEatsLetters` | tgbot.go:123-125 | "niche" yields "n.jpg": letters of the name itself are trimmed |
| `TgBot.JpgNameCapitalExtension` | tgbot.go:123-125 | stem + ".Heic" yields stem + "..jpg" |
| `TgBot.JpgNameMixedCase` | tgbot.go:123-125 | stem + ".hEIC" yields stem + ".h.jpg": the lower-case trim runs once, before the upper-case one |
| `TgBot.Heic2Jpg` | tgbot.go:111-136 | The shared handler body satisfies Handled for the given upload kind |
| `TgBot.Heic2JpgDoc` | tgbot.go:111-136 | Retrieve, convert, send as a document under JpgName to the message's chat, stopping at and reporting the first failing stage |
| `TgBot.Heic2JpgCompress` | tgbot.go:138-163 | The same pipeline, sending as a photo |
| `TgBot.HandledStages` | tgbot.go:111-149 | Retrieval requests come first; conversion runs exactly when retrieval succeeded; a send happens exactly when retrieval and conversion succeeded; the report names the first failing stage; every send goes to the message's chat under JpgName of the document's name |
| `TgBot.HandlersAgree` | tgbot.go:111-163 | On the same message both handlers issue the same requests, except that the uploads differ in kind: same name, chat and bytes |
| `Main.Classify` | main.go:14-22 | No message gives Ignore; Compress exactly for a message with its own "image/heic" document; FullDoc exactly for a "/full" reply to a message with an "image/heic" document when the first case does not apply, and its argument is the replied-to message |
| `Main.CompressTakesPriority` | main.go:17-18 | A message with its own HEIC document is compressed whatever its text or reply |
| `Main.FullNeedsHeicReply` | main.go:19-20 | When the message has no HEIC document of its own, "/full" without a reply, or replying to a message without a document, or with another MIME type, is ignored |
| `Main.MatchingIsExact` | main.go:4-20 | "image/HEIC", "image/heif" and "/full@bot" all lead to Ignore |
| `Main.Serve` | main.go:13-23 | One record per update, in order. Each holds Classify of that update. An ignored update makes no request. Otherwise the photo handler acted on the message, or the document handler on the replied-to message |
| `Main.ServedActions` | main.go:13-23 | The loop's action log is Classify mapped over the updates, and an update causes requests if and only if it is not ignored |
| `Main.Run` | main.go:7-24 | A failed NewTgBot stops the program before any update is read; otherwise every update is served by the constructed bot |

## Left out

- HTTP requests, their 10-second client timeout and the reading of response bodies are components of `Services.get`. A request gets the same answer every time it is made, which a real network does not promise.
- The JSON decoding of the getFile reply is `Services.decodeFilePath`. Its `ok` field is not consulted by the code either.
- `HeicToJpg` is not part of this model. It is the external codec, `Services.heicToJpg`.
- The Telegram SDK is reduced to the values it exchanges. This covers `NewBotAPI` (its token check is the `getMe` parameter of `NewTgBot`), `GetUpdates` with its poll settings (the model takes a finite sequence of updates), `NewDocument`/`NewPhoto` (the `Upload` kind) and `Send` (`Services.send`, whose returned message is unused).
- Only the presence of the one required variable is modelled from `env.Parse`.
- Log output is left out. What each `log.Printf` would report is returned as a `Report`.
- The nil dereference of `defer resp.Body.Close()` on a failed request is not modelled (tgbot.go:72-73, 97-98). The model returns the request error instead. In the real program that dereference is a panic nobody recovers, so the first failed GET ends `main` and the update loop stops; in the model `Serve` reports a `GetDocumentError` and goes on with the next update.
- Go strings are sequences of Unicode code points here. Invalid UTF-8 is not modelled.
- The update feed is an endless channel. `Serve` handles a finite prefix of it.
