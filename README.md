# Hotel receptionist voice bot: transcript logger and translation decisions

This project models the two pieces of logic the hotel receptionist voice bot
implements itself, and proves properties of them in Dafny.

- **Transcript logger and session loop** (`src/bot_main.py`). `TranscriptLogger`
  keeps the conversation as an ordered list of `{timestamp, speaker, message}`
  entries. Each `add_entry` appends one entry to that list and one
  `[HH:MM:SS] SPEAKER: message` line to the transcript file, which it opens in
  append mode. `save_full_transcript` truncates the file and rewrites it from
  the list, one `[<ISO timestamp>] SPEAKER: message` line per entry. `bot()`
  brackets the session with two SYSTEM entries. In between it logs finished user
  transcriptions as USER and finished reply transcripts as RECEPTIONIST, and it
  ignores every other event. It then saves the file and returns the entries'
  lines joined by newlines.
- **Translation decisions** (`src/translator.py`). `detect_language` and
  `translate_to_english` are guarded decision procedures around two chat-model
  calls. The guards are length gates, the English/Unknown gate and the
  fall-back-to-original rule when a call fails. `batch_translate` maps
  `translate_to_english` over a list.

Modules:

- `Wrappers` (`wrappers.dfy`) holds `Option`, which stands for Python's `None` defaults and for a call that raised.
- `Text` (`text.dfy`) holds Python's `str.strip()` (whitespace as `str.isspace()` defines it) and `str.lower()`.
- `Translator` (`translator.dfy`) models `TranslationService`. Each chat-model call is a function
  parameter (an oracle). The detection oracle `string -> Option<string>` gives the model's raw reply.
  The translation oracle `(string, string) -> Option<string>` gives the raw translation. `None` means the call raised.
  `_create_translation_result` is the `TranslationResult` datatype's constructor.
- `Clock` (`clock.dfy`) models a naive `datetime` and its three renderings.
  These are `strftime('%H:%M:%S')`, `isoformat()` and `strftime('%Y%m%d_%H%M%S')`.
- `Files` (`files.dfy`) models the file system as a `Disk` class. It maps each file name to its contents.
  `open(name, "a")` and `write` become `Append`, and `open(name, "w")` becomes `Truncate`.
- `BotMain` (`bot_main.dfy`) holds the `TranscriptLogger` class, with the `transcript` list as a
  `seq<Entry>` field. It also holds the event mapping as pure functions and `bot()` as the method `Bot`.
  `Bot` is proved against the pure `SessionEntries`. The clock is a parameter: `clock(k)` is the k-th `datetime.now()` reading.
  Reading 0 names the file. Reading k ≥ 1 stamps the k-th entry.

Two facts about the code are worth knowing.

- The incremental line and the rewritten line for the same entry always differ.
  One carries `HH:MM:SS` and the other the full ISO timestamp.
  The ISO timestamp does contain that same `HH:MM:SS` at positions 11-18
  (`IncrementalLineDiffersFromRewrite`, `IsoContainsHms`).
- `tests/test_translation.py` expects a logger that translates entries. It builds one with
  `enable_translation=True` (line 24), unpacks two file names from `save_full_transcript`
  (line 58) and calls `save_json_transcript` (line 59). `src/bot_main.py` defines none of these:
  its logger takes only a file name, and `save_full_transcript` returns that one name.
  The model follows `src/bot_main.py`, so translation is not wired into the logger.

## Model

| member | source | states |
|---|---|---|
| Text.Strip | src/translator.py:53 | `str.strip()` leaves no whitespace at either end. Its result is empty exactly when the text is all whitespace. |
| Text.StripStartSpec | src/translator.py:53 | The left half of `strip()` removes only whitespace. What it keeps is a suffix of the input that does not start with whitespace. |
| Text.StripEndSpec | src/translator.py:58 | The right half of `strip()` removes only whitespace. What it keeps is a prefix of the input that does not end with whitespace. |
| Text.Lower | src/translator.py:159 | `str.lower()` keeps the length, leaves no ASCII capital letter, and changes each character only in case. |
| Text.LowerIsWordIff | src/translator.py:159 | `lower()` yields a lower-case word exactly when the text spells that word letter by letter in any mix of cases. |
| Translator.DetectLanguage | src/translator.py:53-63 | A text shorter than 3 characters once stripped gives "Unknown". So does a failed call. Otherwise the result is the stripped reply. The result never has whitespace at either end. |
| Translator.ShortTextSkipsDetection | src/translator.py:53-54 | For short or empty texts the model is not consulted: any two detection oracles give the same answer, "Unknown". |
| Translator.ShouldTranslate | src/translator.py:150-159 | `_should_translate(lang)` is false exactly when `lang` spells "english" or "unknown" in any case. |
| Translator.UnknownNotTranslated | src/translator.py:159 | The "Unknown" sentinel is never translated. |
| Translator.TranslationCall | src/translator.py:186-219 | A successful translation never has whitespace at either end, because the reply is stripped. The call fails exactly when the model call fails. |
| Translator.TranslateToEnglish | src/translator.py:127-148 | `original` is always the text. Blank text gives (text, text, "Unknown", false). Otherwise the language is the given one, else the detected one. `needs_translation` holds exactly when that language should be translated and the call succeeded, and then `translated` is the stripped reply. Otherwise `translated` is the text. A translated text never has whitespace at either end. |
| Translator.GivenLanguageSkipsDetection | src/translator.py:131-132 | When a source language is given, the detection oracle has no influence on the result. |
| Translator.ShortTextNeverTranslated | src/translator.py:127-136 | Without a given language, a text under 3 stripped characters comes back unchanged, as "Unknown", not translated, whatever the models would say. |
| Translator.TranslatedOnlyForeignLanguages | src/translator.py:135-143 | A result marked as translated has a language other than English or Unknown in any case, and the translation call succeeded. |
| Translator.BatchTranslate | src/translator.py:240-243 | The result has one element per input text, in order. Element i is `translate_to_english(texts[i])` with detection, and its `original` is `texts[i]`. |
| Clock.PadDigitsReadsBack | src/bot_main.py:31 | A zero-padded field read back as decimal gives the number again, for every number that fits the width. |
| Clock.Hms | src/bot_main.py:31 | `%H:%M:%S` is always eight characters. |
| Clock.Iso | src/bot_main.py:23 | `isoformat()` of a naive datetime is 19 characters without microseconds and 26 with them. |
| Clock.FileStamp | src/bot_main.py:13 | `%Y%m%d_%H%M%S` is 15 characters: digits, with the underscore at position 8. |
| Clock.HmsShape | src/bot_main.py:31 | `%H:%M:%S` is 8 characters: digits with colons at positions 2 and 5. |
| Clock.IsoShape | src/bot_main.py:23 | `isoformat()` is `YYYY-MM-DDTHH:MM:SS` (19 characters): `-` at 4 and 7, `T` at 10, `:` at 13 and 16, digits everywhere else. A `.ffffff` part (26 characters in all, `.` at 19) appears exactly when there are microseconds. |
| Clock.IsoContainsHms | src/bot_main.py:23-31 | The ISO timestamp stored in an entry holds, at positions 11 to 18, exactly the `HH:MM:SS` written in the incremental line. |
| Clock.FileStampInjective | src/bot_main.py:13 | Two valid datetimes with the same `%Y%m%d_%H%M%S` stamp agree on every field down to the second. |
| Files.Disk.Truncate | src/bot_main.py:35 | Opening in "w" mode leaves the file empty and every other file unchanged. |
| Files.Disk.Append | src/bot_main.py:30-31 | An append-mode write adds the text after the current contents (a missing file counts as empty). The old contents stay a prefix. No other file changes. |
| BotMain.TranscriptLogger.constructor | src/bot_main.py:11-16 | A new logger has an empty transcript. Its file name is the given one, or `hotel_conversation_<YYYYmmdd_HHMMSS>.txt` from the clock. |
| BotMain.DefaultFileName | src/bot_main.py:13-14 | A default file name is 38 characters, with the stamp at positions 19-33 and `.txt` at the end. |
| BotMain.DefaultFileNamesDistinct | src/bot_main.py:12-14 | Default file names taken at different seconds differ. |
| BotMain.TranscriptLogger.AddEntry | src/bot_main.py:18-31 | The transcript grows by exactly one entry, and earlier entries are unchanged. The new entry has the given speaker and message and the ISO form of the given timestamp, or of the clock when none is given. Exactly one `[HH:MM:SS] speaker: message` line is appended to the file. The previous contents stay a prefix, and no other file changes. |
| BotMain.TranscriptLogger.SaveFullTranscript | src/bot_main.py:33-41 | The file then holds exactly the rendered transcript, one ISO line per entry in list order. Earlier content is gone. The transcript is unchanged, and the logger's file name is returned. The new content depends only on the transcript, so two saves in a row leave identical files. |
| BotMain.IncrementalLine | src/bot_main.py:31 | The appended line is 14 characters longer than speaker and message together. It opens with the bracketed `HH:MM:SS` time at positions 1-8 and ends with a newline. |
| BotMain.Rendered | src/bot_main.py:35-39 | The rewritten file is empty exactly when the transcript is empty. Otherwise it ends with a newline. |
| BotMain.Joined | src/bot_main.py:125-128 | The joined string starts with the first entry's line and ends with the last entry's line. |
| BotMain.RenderedLineCount | src/bot_main.py:35-39 | When no field contains a line break, the rewritten file contains exactly one newline per entry. |
| BotMain.RenderedIsJoinedPlusNewline | src/bot_main.py:125-128 | The `"\n".join` of the entries' lines plus one newline is exactly what `save_full_transcript` writes. |
| BotMain.IncrementalLineDiffersFromRewrite | src/bot_main.py:22-39 | The line `add_entry` appends never equals the line the rewrite produces for the same entry. Both carry the same clock time. |
| BotMain.EventTurn | src/bot_main.py:99-110 | An event yields a turn exactly when it is a finished input transcription or a finished reply transcript. USER goes with the first and RECEPTIONIST with the second. The message is the event's transcript. |
| BotMain.EventTurns | src/bot_main.py:97-110 | A stream of events yields at most one turn per event, and every turn is USER or RECEPTIONIST. |
| BotMain.EventTurnsCount | src/bot_main.py:97-110 | There are as many USER turns as input-transcription events and as many RECEPTIONIST turns as reply-transcript events. |
| BotMain.OtherEventsIgnored | src/bot_main.py:99-110 | An event of any other type adds no turn. |
| BotMain.HandleEvent | src/bot_main.py:99-110 | One loop pass logs the event's turn through `add_entry`. An ignored event changes neither the transcript nor any file. |
| BotMain.IncrementalLineIsOneLine | src/bot_main.py:31 | An appended line holds exactly one newline when neither speaker nor message holds one. |
| BotMain.IsoHasNoLineBreak | src/bot_main.py:23 | A stored ISO timestamp never contains a line break. |
| BotMain.IncrementalLogLineCount | src/bot_main.py:30-39 | When no speaker or message holds a line break, the lines `add_entry` appends for a list of turns contain one newline per turn. The rewrite of the same turns, stamped with the same clock readings, has the same count. |
| BotMain.EventLoopPass | src/bot_main.py:97-110 | One pass of the event loop extends both the transcript and the file by the event's turn, if any, and leaves them as the first i + 1 events dictate. |
| BotMain.Converse | src/bot_main.py:93-110 | On a fresh logger, the session block logs the start entry and then each event's turn in order, each stamped with the next clock reading. The logger's file then holds its old contents followed by one `[HH:MM:SS]` line per logged turn. No other file changes. |
| BotMain.Finish | src/bot_main.py:118-121 | The `finally` block appends the "Session ended" SYSTEM entry, rewrites the file from the transcript and returns its name. |
| BotMain.SessionEntries | src/bot_main.py:95-120 | A session records one entry per recognised event plus two. |
| BotMain.SessionTurnsShape | src/bot_main.py:95-120 | A session's turns start with the start turn and end with "Session ended". No SYSTEM turn appears between them. |
| BotMain.SessionBracketed | src/bot_main.py:95-120 | The session transcript has one entry per recognised event plus two. Its first entry is the SYSTEM "agent started" entry and its last the SYSTEM "Session ended" entry, each with its clock reading. No other entry is SYSTEM. |
| BotMain.SessionStringMatchesFile | src/bot_main.py:118-128 | The string `bot()` returns, plus a newline, is the final content of the transcript file. |
| BotMain.Bot | src/bot_main.py:53-129 | After a normal session the default-named file holds exactly the rewritten session transcript, and no other file changes. The returned string is the session entries' lines joined by newlines. |

Two functions have no row because the rows above state what they compute. `BotMain.EntryLine`
renders one entry as at `src/bot_main.py:38` and `:126`, and `Rendered`, `Joined` and
`IncrementalLineDiffersFromRewrite` state its properties. `Translator.ChosenLanguage` is the language choice
at `src/translator.py:131-132`, and `TranslateToEnglish` and `GivenLanguageSkipsDetection` state its properties.

## Left out

- The `RealtimeAgent`/`RealtimeRunner` session, its configuration and the asynchronous iteration: the event stream is given as a finite list of (type, transcript) events.
- Bot: models only a session that ends normally; the `KeyboardInterrupt` and `Exception` branches (their extra SYSTEM entries) are not modelled, only the `finally` block that every exit runs.
- File system failures (permissions, disk full): every write succeeds in the model; in the code they propagate to the caller.
- `print` output, the console messages of `bot()` and of the translator's error handlers.
- Translator.BatchTranslate: the oracles are fixed functions of their arguments, so equal texts in one batch get equal results. The real calls run at `temperature=0.3` and can fail transiently, so they promise no such thing. The same holds for `DetectLanguage` and `TranslateToEnglish` called twice on one text.
- The chat-model calls themselves (prompts, model name, temperature, token limits, the `text[:200]` truncation of the detection prompt): each is an oracle that either returns a reply or fails.
- `TranslationService.__init__` (client creation from an API key) and the `_language_cache` it declares but never uses.
- Text.LowerChar: lower-cases the ASCII letters only; Python's `str.lower()` also maps non-ASCII letters (e.g. the Kelvin sign to `k`), so a non-ASCII spelling of "english" or "unknown" is decided differently.
- Timezone-aware datetimes passed to `add_entry` (their `isoformat()` carries a UTC offset): timestamps are naive, as `datetime.now()` returns them.
- Clock.FileStamp: renders the year with four digits; for years below 1000 the platform's `strftime('%Y')` may not pad.
- `None` as an event transcript or message: messages are strings.
- `voice_input_handler.py` and `code/voice_input_handler.py` (microphone capture: device I/O, threads and floating point), `src/reader.py` (an extraction agent hosted by a model), `src/main.py` (HTTP handlers), `src/reservation_db.py` and `code/reservation_db.py` (a JSON load and one database insert).
- The translation-enabled logger, `save_json_transcript` and the tuple-returning `save_full_transcript` that `tests/test_translation.py` calls, and `HotelRequest`/`save_request_to_json`/`app` that the other tests import: `src/bot_main.py` does not define them.
