/**
 * The transcript logger of the hotel receptionist bot (src/bot_main.py):
 * `TranscriptLogger` keeps the session's entries in memory and appends one
 * line per entry to its text file, and `save_full_transcript` rewrites that
 * file from memory. `bot()`'s session loop is modelled as `Bot` over a list
 * of events, proved against the pure `SessionEntries`.
 */
module BotMain {
  import opened Wrappers
  import opened Clock
  import opened Files

  /** One `{timestamp, speaker, message}` dictionary; the timestamp is stored as `isoformat()`. */
  datatype Entry = Entry(timestamp: string, speaker: string, message: string)

  function EntryAt(t: Timestamp, speaker: string, message: string): Entry {
    Entry(Iso(t), speaker, message)
  }

  /**
   * The line `add_entry` appends to the file: `[HH:MM:SS] speaker: message`
   * and a newline. The clock time fills positions 1 to 8, between brackets.
   */
  function IncrementalLine(t: Timestamp, speaker: string, message: string): (r: string)
    ensures |r| == |speaker| + |message| + 14
    ensures r[0] == '['
    ensures r[1..9] == Hms(t)
    ensures r[9] == ']'
    ensures r[|r| - 1] == '\n'
  {
    var head := "[" + Hms(t) + "] ";
    assert head[1..9] == Hms(t);
    head + speaker + ": " + message + "\n"
  }

  /** An entry as `save_full_transcript` and `bot()` render it, without a newline. */
  function EntryLine(e: Entry): string {
    "[" + e.timestamp + "] " + e.speaker + ": " + e.message
  }

  /**
   * What `save_full_transcript` writes: every entry's line, each followed by
   * a newline. It is empty only for an empty transcript, and otherwise ends
   * with a newline.
   */
  function Rendered(entries: seq<Entry>): (r: string)
    ensures r == [] <==> entries == []
    ensures r != [] ==> r[|r| - 1] == '\n'
  {
    if entries == [] then ""
    else Rendered(entries[..|entries| - 1]) + EntryLine(entries[|entries| - 1]) + "\n"
  }

  /** Rendering one more entry appends its line. */
  lemma RenderedStep(entries: seq<Entry>, i: nat)
    requires i < |entries|
    ensures Rendered(entries[..i + 1]) == Rendered(entries[..i]) + (EntryLine(entries[i]) + "\n")
  {
    assert entries[..i + 1][..i] == entries[..i];
  }

  /**
   * `"\n".join(...)` of the entries' lines, as `bot()` returns them: it starts
   * with the first entry's line and ends with the last entry's line.
   */
  function Joined(entries: seq<Entry>): (r: string)
    ensures entries != [] ==> EntryLine(entries[0]) <= r
    ensures entries != [] ==>
              var last := EntryLine(entries[|entries| - 1]);
              |last| <= |r| && r[|r| - |last|..] == last
  {
    if entries == [] then ""
    else if |entries| == 1 then EntryLine(entries[0])
    else Joined(entries[..|entries| - 1]) + "\n" + EntryLine(entries[|entries| - 1])
  }

  /** The returned transcript is the rewritten file without its final newline. */
  lemma {:induction false} RenderedIsJoinedPlusNewline(entries: seq<Entry>)
    requires entries != []
    ensures Rendered(entries) == Joined(entries) + "\n"
  {
    if |entries| > 1 {
      RenderedIsJoinedPlusNewline(entries[..|entries| - 1]);
    } else {
      assert entries[..0] == [];
    }
  }

  function CountChar(c: char, s: string): nat {
    if s == [] then 0 else CountChar(c, s[..|s| - 1]) + (if s[|s| - 1] == c then 1 else 0)
  }

  lemma {:induction false} CountCharAppend(c: char, a: string, b: string)
    ensures CountChar(c, a + b) == CountChar(c, a) + CountChar(c, b)
  {
    if b != [] {
      assert (a + b)[..|a + b| - 1] == a + b[..|b| - 1];
      CountCharAppend(c, a, b[..|b| - 1]);
    } else {
      assert a + b == a;
    }
  }

  lemma {:induction false} CountCharAbsent(c: char, s: string)
    requires c !in s
    ensures CountChar(c, s) == 0
  {
    if s != [] {
      assert s[..|s| - 1] + [s[|s| - 1]] == s;
      CountCharAbsent(c, s[..|s| - 1]);
    }
  }

  /** No field of the entry contains a line break. */
  predicate SingleLine(e: Entry) {
    '\n' !in e.timestamp && '\n' !in e.speaker && '\n' !in e.message
  }

  /**
   * The rewritten file has exactly one line per entry, provided no message
   * (or speaker, or timestamp) itself contains a line break.
   */
  lemma {:induction false} RenderedLineCount(entries: seq<Entry>)
    requires forall i :: 0 <= i < |entries| ==> SingleLine(entries[i])
    ensures CountChar('\n', Rendered(entries)) == |entries|
  {
    if entries != [] {
      var e := entries[|entries| - 1];
      RenderedLineCount(entries[..|entries| - 1]);
      assert '\n' !in EntryLine(e) by {
        assert SingleLine(e);
      }
      CountCharAbsent('\n', EntryLine(e));
      CountCharAppend('\n', Rendered(entries[..|entries| - 1]), EntryLine(e));
      CountCharAppend('\n', Rendered(entries[..|entries| - 1]) + EntryLine(e), "\n");
    }
  }

  /**
   * The line `add_entry` appends never equals the line the rewrite produces
   * for the same entry (the rewrite uses the ISO timestamp), yet the ISO
   * timestamp carries the same `HH:MM:SS` clock time.
   */
  lemma IncrementalLineDiffersFromRewrite(t: Timestamp, speaker: string, message: string)
    ensures IncrementalLine(t, speaker, message) != EntryLine(EntryAt(t, speaker, message)) + "\n"
    ensures EntryAt(t, speaker, message).timestamp[11..19] == Hms(t)
  {
  }

  /**
   * `"hotel_conversation_" + strftime('%Y%m%d_%H%M%S') + ".txt"`: 38
   * characters, the stamp at positions 19 to 33.
   */
  function DefaultFileName(now: Timestamp): (r: string)
    ensures |r| == 38 && r[19..34] == FileStamp(now) && r[34..] == ".txt"
  {
    "hotel_conversation_" + FileStamp(now) + ".txt"
  }

  /** Default file names taken at different seconds differ. */
  lemma DefaultFileNamesDistinct(t1: Timestamp, t2: Timestamp)
    requires t1.Valid() && t2.Valid()
    requires (t1.year, t1.month, t1.day, t1.hour, t1.minute, t1.second)
          != (t2.year, t2.month, t2.day, t2.hour, t2.minute, t2.second)
    ensures DefaultFileName(t1) != DefaultFileName(t2)
  {
    if DefaultFileName(t1) == DefaultFileName(t2) {
      var prefix := "hotel_conversation_";
      assert FileStamp(t1) == DefaultFileName(t1)[|prefix|..|prefix| + 15];
      assert FileStamp(t2) == DefaultFileName(t2)[|prefix|..|prefix| + 15];
      FileStampInjective(t1, t2);
    }
  }

  class TranscriptLogger {
    const filename: string
    var transcript: seq<Entry>

    /** `TranscriptLogger(filename)`; `now` is the clock reading taken when no name is given. */
    constructor (filename: Option<string>, now: Timestamp)
      ensures filename.Some? ==> this.filename == filename.value
      ensures filename.None? ==> this.filename == DefaultFileName(now)
      ensures transcript == []
    {
      this.filename := if filename.Some? then filename.value else DefaultFileName(now);
      transcript := [];
    }

    /**
     * `add_entry(speaker, message, timestamp)`; `now` is the clock reading
     * used when no timestamp is given. One entry joins the transcript and
     * one `HH:MM:SS` line is appended after whatever the file held.
     */
    method AddEntry(disk: Disk, speaker: string, message: string, timestamp: Option<Timestamp>, now: Timestamp)
      modifies this, disk
      ensures transcript == old(transcript) + [EntryAt(timestamp.GetOr(now), speaker, message)]
      ensures disk.files == old(disk.files)[filename :=
                ContentOf(old(disk.files), filename) + IncrementalLine(timestamp.GetOr(now), speaker, message)]
    {
      var t := if timestamp.Some? then timestamp.value else now;
      transcript := transcript + [EntryAt(t, speaker, message)];
      disk.Append(filename, IncrementalLine(t, speaker, message));
    }

    /**
     * `save_full_transcript()`: truncates the file and writes one ISO line
     * per entry, in order; the transcript is untouched and the name returned.
     */
    method SaveFullTranscript(disk: Disk) returns (name: string)
      modifies disk
      ensures name == filename
      ensures disk.files == old(disk.files)[filename := Rendered(transcript)]
    {
      disk.Truncate(filename);
      assert transcript[..0] == [];
      for i := 0 to |transcript|
        invariant disk.files == old(disk.files)[filename := Rendered(transcript[..i])]
      {
        RenderedStep(transcript, i);
        disk.Append(filename, EntryLine(transcript[i]) + "\n");
        UpdateOverrides(old(disk.files), filename, Rendered(transcript[..i]), Rendered(transcript[..i + 1]));
      }
      assert transcript[..|transcript|] == transcript;
      name := filename;
    }
  }

  /** One event of the realtime session: its `type` and its `transcript`. */
  datatype Event = Event(kind: string, transcript: string)

  const InputTranscriptionCompleted := "conversation.item.input_audio_transcription.completed"
  const AudioTranscriptDone := "response.audio_transcript.done"

  /** A speaker/message pair handed to `add_entry`. */
  datatype Turn = Turn(speaker: string, message: string)

  const StartTurn := Turn("SYSTEM", "Hotel receptionist agent started")
  const EndTurn := Turn("SYSTEM", "Session ended")

  predicate IsTranscriptEvent(e: Event) {
    e.kind == InputTranscriptionCompleted || e.kind == AudioTranscriptDone
  }

  /** The turn one event contributes: a finished user transcription or a finished reply; nothing otherwise. */
  function EventTurn(e: Event): (r: Option<Turn>)
    ensures r.Some? <==> IsTranscriptEvent(e)
    ensures r.Some? ==> r.value.message == e.transcript
    ensures r.Some? ==> (r.value.speaker == "USER" <==> e.kind == InputTranscriptionCompleted)
    ensures r.Some? ==> (r.value.speaker == "RECEPTIONIST" <==> e.kind == AudioTranscriptDone)
  {
    if e.kind == InputTranscriptionCompleted then Some(Turn("USER", e.transcript))
    else if e.kind == AudioTranscriptDone then Some(Turn("RECEPTIONIST", e.transcript))
    else None
  }

  /** The turns a stream of events contributes, in order. */
  function EventTurns(events: seq<Event>): (r: seq<Turn>)
    ensures |r| <= |events|
    ensures forall k :: 0 <= k < |r| ==> r[k].speaker == "USER" || r[k].speaker == "RECEPTIONIST"
  {
    if events == [] then []
    else
      var last := events[|events| - 1];
      EventTurns(events[..|events| - 1]) + (if EventTurn(last).Some? then [EventTurn(last).value] else [])
  }

  function CountSpeaker(turns: seq<Turn>, speaker: string): nat {
    if turns == [] then 0
    else CountSpeaker(turns[..|turns| - 1], speaker) + (if turns[|turns| - 1].speaker == speaker then 1 else 0)
  }

  function CountKind(events: seq<Event>, kind: string): nat {
    if events == [] then 0
    else CountKind(events[..|events| - 1], kind) + (if events[|events| - 1].kind == kind then 1 else 0)
  }

  /**
   * There is one USER turn per finished input transcription and one
   * RECEPTIONIST turn per finished reply transcript; every other event adds nothing.
   */
  lemma {:induction false} EventTurnsCount(events: seq<Event>)
    ensures CountSpeaker(EventTurns(events), "USER") == CountKind(events, InputTranscriptionCompleted)
    ensures CountSpeaker(EventTurns(events), "RECEPTIONIST") == CountKind(events, AudioTranscriptDone)
  {
    if events != [] {
      var init := events[..|events| - 1];
      var last := events[|events| - 1];
      EventTurnsCount(init);
      var turns := EventTurns(init);
      if EventTurn(last).Some? {
        assert (turns + [EventTurn(last).value])[..|turns|] == turns;
      } else {
        assert turns + [] == turns;
      }
    }
  }

  /** Appending an event of any other type leaves the turns as they were. */
  lemma OtherEventsIgnored(events: seq<Event>, e: Event)
    requires !IsTranscriptEvent(e)
    ensures EventTurns(events + [e]) == EventTurns(events)
  {
  }

  /** The turns of a whole session: the start entry, the event turns, and the final entry. */
  function SessionTurns(events: seq<Event>): seq<Turn> {
    [StartTurn] + EventTurns(events) + [EndTurn]
  }

  /** Turns stamped with clock readings 1, 2, ... (reading 0 names the file). */
  function Stamped(turns: seq<Turn>, clock: nat -> Timestamp): (r: seq<Entry>)
    ensures |r| == |turns|
  {
    if turns == [] then []
    else
      var last := turns[|turns| - 1];
      Stamped(turns[..|turns| - 1], clock) + [EntryAt(clock(|turns|), last.speaker, last.message)]
  }

  /** Entry k carries turn k's speaker and message and the (k+1)-th clock reading. */
  lemma {:induction false} StampedAt(turns: seq<Turn>, clock: nat -> Timestamp, k: nat)
    requires k < |turns|
    ensures Stamped(turns, clock)[k] == EntryAt(clock(k + 1), turns[k].speaker, turns[k].message)
  {
    if k < |turns| - 1 {
      StampedAt(turns[..|turns| - 1], clock, k);
    }
  }

  lemma UpdateOverrides(m: map<string, string>, k: string, a: string, b: string)
    ensures m[k := a][k := b] == m[k := b]
  {
  }

  lemma StampedSnoc(turns: seq<Turn>, t: Turn, clock: nat -> Timestamp)
    ensures Stamped(turns + [t], clock) == Stamped(turns, clock) + [EntryAt(clock(|turns| + 1), t.speaker, t.message)]
  {
  }

  /** One more event adds its turn, if any, after the earlier ones. */
  lemma EventTurnsStep(events: seq<Event>, i: nat)
    requires i < |events|
    ensures [StartTurn] + EventTurns(events[..i + 1])
         == [StartTurn] + EventTurns(events[..i])
            + (if EventTurn(events[i]).Some? then [EventTurn(events[i]).value] else [])
  {
    assert events[..i + 1][..i] == events[..i];
  }

  /** One more event adds its entry, if any, stamped with the next clock reading. */
  lemma SessionStep(events: seq<Event>, i: nat, clock: nat -> Timestamp)
    requires i < |events|
    ensures var before := Stamped([StartTurn] + EventTurns(events[..i]), clock);
            var turn := EventTurn(events[i]);
            Stamped([StartTurn] + EventTurns(events[..i + 1]), clock)
              == before + (if turn.Some? then [EntryAt(clock(|before| + 1), turn.value.speaker, turn.value.message)] else [])
  {
    var turns := [StartTurn] + EventTurns(events[..i]);
    EventTurnsStep(events, i);
    if EventTurn(events[i]).Some? {
      StampedSnoc(turns, EventTurn(events[i]).value, clock);
    } else {
      assert turns + [] == turns;
    }
  }

  /**
   * What the `add_entry` calls for `turns` append to the file, in order:
   * turn k's `[HH:MM:SS]` line, stamped with clock reading k + 1.
   */
  function IncrementalLog(turns: seq<Turn>, clock: nat -> Timestamp): string {
    if turns == [] then ""
    else
      var last := turns[|turns| - 1];
      IncrementalLog(turns[..|turns| - 1], clock) + IncrementalLine(clock(|turns|), last.speaker, last.message)
  }

  lemma IncrementalLogSnoc(turns: seq<Turn>, t: Turn, clock: nat -> Timestamp)
    ensures IncrementalLog(turns + [t], clock)
         == IncrementalLog(turns, clock) + IncrementalLine(clock(|turns| + 1), t.speaker, t.message)
  {
  }

  /** One more event appends its turn's line, if any, stamped with the next clock reading. */
  lemma LogStep(events: seq<Event>, i: nat, clock: nat -> Timestamp)
    requires i < |events|
    ensures var turns := [StartTurn] + EventTurns(events[..i]);
            var turn := EventTurn(events[i]);
            IncrementalLog([StartTurn] + EventTurns(events[..i + 1]), clock)
              == IncrementalLog(turns, clock)
                 + (if turn.Some? then IncrementalLine(clock(|turns| + 1), turn.value.speaker, turn.value.message) else "")
  {
    var turns := [StartTurn] + EventTurns(events[..i]);
    EventTurnsStep(events, i);
    if EventTurn(events[i]).Some? {
      IncrementalLogSnoc(turns, EventTurn(events[i]).value, clock);
    } else {
      assert turns + [] == turns;
    }
  }

  /** An incremental line is one line when neither the speaker nor the message holds a line break. */
  lemma IncrementalLineIsOneLine(t: Timestamp, speaker: string, message: string)
    requires '\n' !in speaker && '\n' !in message
    ensures CountChar('\n', IncrementalLine(t, speaker, message)) == 1
  {
    var h := Hms(t);
    HmsShape(t);
    assert '\n' !in h by {
      forall i | 0 <= i < 8 ensures h[i] != '\n' {
        if i != 2 && i != 5 {
          assert IsDigit(h[i]);
        }
      }
    }
    var body := "[" + h + "] " + speaker + ": " + message;
    assert '\n' !in body;
    CountCharAbsent('\n', body);
    CountCharAppend('\n', body, "\n");
    assert IncrementalLine(t, speaker, message) == body + "\n";
  }

  /** The rewrite of stamped turns has one newline per turn when no speaker or message holds one. */
  lemma {:induction false} StampedLineCount(turns: seq<Turn>, clock: nat -> Timestamp)
    requires forall k :: 0 <= k < |turns| ==> '\n' !in turns[k].speaker && '\n' !in turns[k].message
    ensures CountChar('\n', Rendered(Stamped(turns, clock))) == |turns|
  {
    var es := Stamped(turns, clock);
    forall i | 0 <= i < |turns| ensures SingleLine(es[i]) {
      StampedAt(turns, clock, i);
      IsoHasNoLineBreak(clock(i + 1));
    }
    RenderedLineCount(es);
  }

  /** An ISO timestamp is digits and separators only, so it never holds a line break. */
  lemma IsoHasNoLineBreak(t: Timestamp)
    ensures '\n' !in Iso(t)
  {
    var r := Iso(t);
    IsoShape(t);
    forall i | 0 <= i < |r| ensures r[i] != '\n' {
      if i != 4 && i != 7 && i != 10 && i != 13 && i != 16 && i != 19 {
        assert IsDigit(r[i]);
      }
    }
  }

  /**
   * The appended log has exactly one line per turn, provided no speaker or
   * message contains a line break: the same line count as the rewrite.
   */
  lemma {:induction false} IncrementalLogLineCount(turns: seq<Turn>, clock: nat -> Timestamp)
    requires forall k :: 0 <= k < |turns| ==> '\n' !in turns[k].speaker && '\n' !in turns[k].message
    ensures CountChar('\n', IncrementalLog(turns, clock)) == |turns|
    ensures CountChar('\n', Rendered(Stamped(turns, clock))) == |turns|
  {
    StampedLineCount(turns, clock);
    if turns != [] {
      var init := turns[..|turns| - 1];
      var last := turns[|turns| - 1];
      IncrementalLogLineCount(init, clock);
      IncrementalLineIsOneLine(clock(|turns|), last.speaker, last.message);
      CountCharAppend('\n', IncrementalLog(init, clock), IncrementalLine(clock(|turns|), last.speaker, last.message));
    }
  }

  /** Appending to a file that was set to `base + log` leaves it set to `base + (log + line)`. */
  lemma AppendAfterLog(start: map<string, string>, name: string, base: string, log: string, line: string,
                       files: map<string, string>)
    requires var before := start[name := base + log]; files == before[name := ContentOf(before, name) + line]
    ensures files == start[name := base + (log + line)]
  {
    assert base + log + line == base + (log + line);
  }

  /** The entries `bot()` records for a session whose events are `events`. */
  function SessionEntries(events: seq<Event>, clock: nat -> Timestamp): (r: seq<Entry>)
    ensures |r| == |EventTurns(events)| + 2
  {
    Stamped(SessionTurns(events), clock)
  }

  /** The session's turns: the start turn, the event turns, then the end turn, and SYSTEM nowhere between. */
  lemma SessionTurnsShape(events: seq<Event>)
    ensures var turns := SessionTurns(events);
            |turns| == |EventTurns(events)| + 2
            && turns[0] == StartTurn && turns[|turns| - 1] == EndTurn
            && forall k :: 0 < k < |turns| - 1 ==> turns[k].speaker != "SYSTEM"
  {
  }

  /**
   * A session's transcript opens with the start entry, closes with
   * "Session ended", has SYSTEM entries nowhere else, and holds one entry
   * per transcription event between them.
   */
  lemma SessionBracketed(events: seq<Event>, clock: nat -> Timestamp)
    ensures var es := SessionEntries(events, clock);
            |es| == |EventTurns(events)| + 2
            && es[0] == EntryAt(clock(1), "SYSTEM", "Hotel receptionist agent started")
            && es[|es| - 1] == EntryAt(clock(|es|), "SYSTEM", "Session ended")
            && forall k :: 0 < k < |es| - 1 ==> es[k].speaker != "SYSTEM"
  {
    var turns := SessionTurns(events);
    var es := SessionEntries(events, clock);
    SessionTurnsShape(events);
    StampedAt(turns, clock, 0);
    StampedAt(turns, clock, |turns| - 1);
    forall k | 0 < k < |es| - 1 ensures es[k].speaker != "SYSTEM" {
      StampedAt(turns, clock, k);
    }
  }

  /** The string `bot()` returns is the final file's content without its trailing newline. */
  lemma SessionStringMatchesFile(events: seq<Event>, clock: nat -> Timestamp)
    ensures Rendered(SessionEntries(events, clock)) == Joined(SessionEntries(events, clock)) + "\n"
  {
    RenderedIsJoinedPlusNewline(SessionEntries(events, clock));
  }

  /**
   * One pass of `bot()`'s event loop: a finished user transcription is
   * logged as USER, a finished reply transcript as RECEPTIONIST, and any
   * other event changes nothing. `now` is the clock reading `add_entry` takes.
   */
  method HandleEvent(logger: TranscriptLogger, disk: Disk, event: Event, now: Timestamp)
    modifies logger, disk
    ensures EventTurn(event).None? ==> logger.transcript == old(logger.transcript) && disk.files == old(disk.files)
    ensures EventTurn(event).Some? ==>
              var turn := EventTurn(event).value;
              logger.transcript == old(logger.transcript) + [EntryAt(now, turn.speaker, turn.message)]
              && disk.files == old(disk.files)[logger.filename :=
                   ContentOf(old(disk.files), logger.filename) + IncrementalLine(now, turn.speaker, turn.message)]
  {
    if event.kind == InputTranscriptionCompleted {
      logger.AddEntry(disk, "USER", event.transcript, None, now);
    } else if event.kind == AudioTranscriptDone {
      logger.AddEntry(disk, "RECEPTIONIST", event.transcript, None, now);
    }
  }

  /** The transcript and the file after the start entry and the first `i` events. */
  ghost predicate LoggedUpTo(logger: TranscriptLogger, disk: Disk, events: seq<Event>, i: nat,
                             clock: nat -> Timestamp, start: map<string, string>, base: string)
    requires i <= |events|
    reads logger, disk
  {
    var turns := [StartTurn] + EventTurns(events[..i]);
    logger.transcript == Stamped(turns, clock)
    && disk.files == start[logger.filename := base + IncrementalLog(turns, clock)]
  }

  /** One pass of the event loop takes the logged state from `i` events to `i + 1`. */
  method EventLoopPass(logger: TranscriptLogger, disk: Disk, events: seq<Event>, i: nat, clock: nat -> Timestamp,
                       ghost start: map<string, string>, ghost base: string)
    requires i < |events|
    requires LoggedUpTo(logger, disk, events, i, clock, start, base)
    modifies logger, disk
    ensures LoggedUpTo(logger, disk, events, i + 1, clock, start, base)
  {
    ghost var log := IncrementalLog([StartTurn] + EventTurns(events[..i]), clock);
    var now := clock(|logger.transcript| + 1);
    SessionStep(events, i, clock);
    LogStep(events, i, clock);
    HandleEvent(logger, disk, events[i], now);
    if EventTurn(events[i]).Some? {
      var turn := EventTurn(events[i]).value;
      AppendAfterLog(start, logger.filename, base, log, IncrementalLine(now, turn.speaker, turn.message), disk.files);
    } else {
      assert log + "" == log;
    }
  }

  /**
   * The body of `bot()`'s `async with session:` block on a fresh logger: the
   * start entry, then one pass of the event loop per event. The logger's
   * file gains one `[HH:MM:SS]` line per logged turn after whatever it held;
   * no other file changes.
   */
  method Converse(logger: TranscriptLogger, disk: Disk, events: seq<Event>, clock: nat -> Timestamp)
    requires logger.transcript == []
    modifies logger, disk
    ensures logger.transcript == Stamped([StartTurn] + EventTurns(events), clock)
    ensures disk.files == old(disk.files)[logger.filename :=
              ContentOf(old(disk.files), logger.filename) + IncrementalLog([StartTurn] + EventTurns(events), clock)]
  {
    ghost var start := disk.files;
    ghost var base := ContentOf(start, logger.filename);
    ghost var first := IncrementalLine(clock(1), StartTurn.speaker, StartTurn.message);
    logger.AddEntry(disk, StartTurn.speaker, StartTurn.message, None, clock(1));
    assert disk.files == start[logger.filename := base + first];
    StampedSnoc([], StartTurn, clock);
    IncrementalLogSnoc([], StartTurn, clock);
    assert events[..0] == [];
    assert [StartTurn] + EventTurns(events[..0]) == [] + [StartTurn];
    assert IncrementalLog([] + [StartTurn], clock) == "" + first;
    assert "" + first == first;
    for i := 0 to |events|
      invariant LoggedUpTo(logger, disk, events, i, clock, start, base)
    {
      EventLoopPass(logger, disk, events, i, clock, start, base);
    }
    assert events[..|events|] == events;
  }

  /**
   * `bot()`'s `finally:` block: the closing SYSTEM entry, stamped with the
   * next clock reading, then the full rewrite of the file.
   */
  method Finish(logger: TranscriptLogger, disk: Disk, clock: nat -> Timestamp) returns (textFile: string)
    modifies logger, disk
    ensures logger.transcript == old(logger.transcript) + [EntryAt(clock(|old(logger.transcript)| + 1), EndTurn.speaker, EndTurn.message)]
    ensures textFile == logger.filename
    ensures disk.files == old(disk.files)[logger.filename := Rendered(logger.transcript)]
  {
    logger.AddEntry(disk, EndTurn.speaker, EndTurn.message, None, clock(|logger.transcript| + 1));
    ghost var appended := disk.files;
    textFile := logger.SaveFullTranscript(disk);
    UpdateOverrides(old(disk.files), logger.filename, appended[logger.filename], Rendered(logger.transcript));
  }

  /**
   * `bot()` on a session that ends normally: `clock(k)` is the k-th reading
   * of `datetime.now()`. The file under the default name ends up holding the
   * rewritten session transcript, no other file changes, and the result is
   * the session's lines joined by newlines.
   */
  method Bot(disk: Disk, events: seq<Event>, clock: nat -> Timestamp) returns (transcript: string)
    modifies disk
    ensures disk.files == old(disk.files)[DefaultFileName(clock(0)) := Rendered(SessionEntries(events, clock))]
    ensures transcript == Joined(SessionEntries(events, clock))
  {
    var logger := new TranscriptLogger(None, clock(0));
    Converse(logger, disk, events, clock);
    ghost var afterLoop := disk.files;
    var textFile := Finish(logger, disk, clock);
    StampedSnoc([StartTurn] + EventTurns(events), EndTurn, clock);
    UpdateOverrides(old(disk.files), logger.filename, afterLoop[logger.filename], Rendered(logger.transcript));
    transcript := Joined(logger.transcript);
  }
}
