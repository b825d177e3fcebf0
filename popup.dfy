/** The popup's text helpers (popup/popup.js): the duration shown in the
    history, the running clock of a recording, the file names of downloads,
    and the test that marks a history entry as failed. The DOM around them
    is not part of this model. */
module Popup {
  import opened Wrappers
  import opened Strings
  import Storage
  import JobQueue
  import JobProcessor

  // ---------------------------------------------------------------------
  // numbers as JavaScript prints and divides them

  /** `String(n)` for an integer. */
  function IntToString(n: int): (s: string)
    ensures n >= 0 ==> s == NatToString(n)
    ensures n < 0 ==> |s| >= 2 && s[0] == '-' && s[1..] == NatToString(-n)
  {
    if n >= 0 then NatToString(n) else "-" + NatToString(-n)
  }

  /** JavaScript's `a % b` for a positive divisor: the remainder takes the
      sign of `a`. */
  function JsRem(a: int, b: int): (r: int)
    requires b > 0
    ensures a >= 0 ==> r == a % b
    ensures a < 0 ==> -b < r <= 0
  {
    if a >= 0 then a % b else -((-a) % b)
  }

  // ---------------------------------------------------------------------
  // formatDuration

  /** `formatDuration(seconds)`: hours and minutes from an hour on, minutes
      and seconds from a minute on, otherwise seconds alone. The quotients are
      floored and the remainders truncated, as `Math.floor` and `%` do. */
  function FormatDuration(seconds: int): (r: string)
    ensures |r| >= 2
    ensures seconds >= 3600 <==> r[|r| - 1] == '分'
    ensures seconds < 3600 <==> r[|r| - 1] == '秒'
  {
    var hours := seconds / 3600;
    var minutes := JsRem(seconds, 3600) / 60;
    var secs := JsRem(seconds, 60);
    if hours > 0 then IntToString(hours) + "時間" + IntToString(minutes) + "分"
    else if minutes > 0 then IntToString(minutes) + "分" + IntToString(secs) + "秒"
    else IntToString(secs) + "秒"
  }

  /** For a non-negative duration the three fields split it exactly, with
      minutes and seconds below sixty. */
  lemma DurationParts(seconds: nat) returns (h: nat, m: nat, sec: nat)
    ensures h == seconds / 3600 && m == JsRem(seconds, 3600) / 60 && sec == JsRem(seconds, 60)
    ensures m < 60 && sec < 60
    ensures seconds == h * 3600 + m * 60 + sec
  {
    h, m, sec := seconds / 3600, seconds % 3600 / 60, seconds % 60;
    assert seconds % 3600 % 60 == sec;
  }

  /** What the history shows for a non-negative duration, read off the
      duration itself: at least an hour shows whole hours and the minutes
      past them, at least a minute shows whole minutes and the seconds past
      them, and less than a minute shows the seconds. A negative duration
      shows only its truncated seconds, with a minus sign. */
  lemma FormatDurationCases(seconds: int)
    ensures seconds >= 3600 ==>
      FormatDuration(seconds) == NatToString(seconds / 3600) + "時間" + NatToString(seconds % 3600 / 60) + "分"
    ensures 60 <= seconds < 3600 ==>
      FormatDuration(seconds) == NatToString(seconds / 60) + "分" + NatToString(seconds % 60) + "秒"
    ensures 0 <= seconds < 60 ==> FormatDuration(seconds) == NatToString(seconds) + "秒"
    ensures seconds < 0 ==> FormatDuration(seconds) == IntToString(JsRem(seconds, 60)) + "秒"
  {
    if seconds < 0 {
      var m := JsRem(seconds, 3600) / 60;
      assert JsRem(seconds, 3600) <= 0;
      assert m <= 0;
    } else {
      var h, m, sec := DurationParts(seconds);
      if seconds < 3600 {
        assert h == 0 && seconds % 3600 == seconds;
        assert m == seconds / 60;
      }
    }
  }

  // ---------------------------------------------------------------------
  // the recording clock of startRecordingTimer

  /** `String(n).padStart(2, '0')`: a negative number already has two
      characters, so only a non-negative one is padded. */
  function ClockField(n: int): (s: string)
    ensures |s| >= 2
  {
    if n >= 0 then Pad2(n) else IntToString(n)
  }

  /** The clock text for `elapsed` milliseconds: hours, minutes and seconds,
      each at least two characters wide, the hours not capped. */
  function TimerText(elapsed: int): (r: string)
    ensures |r| >= 8
    ensures elapsed >= 0 ==> ClockShaped(r)
  {
    var hours := elapsed / 3600000;
    var minutes := JsRem(elapsed, 3600000) / 60000;
    var seconds := JsRem(elapsed, 60000) / 1000;
    var r := ClockField(hours) + ":" + ClockField(minutes) + ":" + ClockField(seconds);
    if elapsed >= 0 then
      ClockParts(elapsed);
      ClockFieldsShaped(ClockField(hours), ClockField(minutes), ClockField(seconds));
      r
    else r
  }

  /** A clock text `H…H:MM:SS`: at least two hour digits, then two-digit
      minutes and seconds. */
  predicate ClockShaped(t: string) {
    |t| >= 8 && t[|t| - 3] == ':' && t[|t| - 6] == ':' &&
    AllDigits(t[..|t| - 6]) && AllDigits(t[|t| - 5..|t| - 3]) && AllDigits(t[|t| - 2..])
  }

  /** Reads a clock text back into whole seconds. */
  function ReadClock(t: string): int
    requires ClockShaped(t)
  {
    DigitsValue(t[..|t| - 6]) * 3600 + DigitsValue(t[|t| - 5..|t| - 3]) * 60 + DigitsValue(t[|t| - 2..])
  }

  /** The clock's three fields for a non-negative elapsed time: whole hours,
      then the minutes and seconds past them, both below sixty. */
  lemma ClockParts(elapsed: nat)
    ensures JsRem(elapsed, 3600000) / 60000 == elapsed / 60000 % 60
    ensures JsRem(elapsed, 60000) / 1000 == elapsed / 1000 % 60
    ensures elapsed / 1000 == elapsed / 3600000 * 3600 + elapsed / 60000 % 60 * 60 + elapsed / 1000 % 60
  {
    var s := elapsed / 1000;
    assert s / 60 == elapsed / 60000 && s / 3600 == elapsed / 3600000;
    assert s == s / 3600 * 3600 + s / 60 % 60 * 60 + s % 60;
  }

  lemma ClockFieldsShaped(hh: string, mm: string, ss: string)
    requires AllDigits(hh) && AllDigits(mm) && AllDigits(ss)
    requires |hh| >= 2 && |mm| == 2 && |ss| == 2
    ensures var t := hh + ":" + mm + ":" + ss;
      ClockShaped(t) && t[..|t| - 6] == hh && t[|t| - 5..|t| - 3] == mm && t[|t| - 2..] == ss
  {
    var t := hh + ":" + mm + ":" + ss;
    assert t[..|t| - 6] == hh;
    assert t[|t| - 5..|t| - 3] == mm;
    assert t[|t| - 2..] == ss;
  }

  lemma ReadClockOf(t: string, hh: string, mm: string, ss: string)
    requires ClockShaped(t) && t[..|t| - 6] == hh && t[|t| - 5..|t| - 3] == mm && t[|t| - 2..] == ss
    ensures ReadClock(t) == DigitsValue(hh) * 3600 + DigitsValue(mm) * 60 + DigitsValue(ss)
  {
  }

  /** For a non-negative elapsed time the clock shows the whole hours, then
      the minutes and seconds past them as two digits each. */
  lemma TimerFields(elapsed: nat)
    ensures TimerText(elapsed) ==
      Pad2(elapsed / 3600000) + ":" + Pad2(elapsed / 60000 % 60) + ":" + Pad2(elapsed / 1000 % 60)
  {
    ClockParts(elapsed);
  }

  /** Reading the clock back gives the elapsed whole seconds. */
  lemma TimerRoundTrip(elapsed: nat)
    ensures ClockShaped(TimerText(elapsed)) && ReadClock(TimerText(elapsed)) == elapsed / 1000
  {
    TimerFields(elapsed);
    var h, m, s := elapsed / 3600000, elapsed / 60000 % 60, elapsed / 1000 % 60;
    assert elapsed / 1000 == h * 3600 + m * 60 + s by {
      ClockParts(elapsed);
    }
    var hh, mm, ss := Pad2(h), Pad2(m), Pad2(s);
    ClockFieldsShaped(hh, mm, ss);
    ReadClockOf(hh + ":" + mm + ":" + ss, hh, mm, ss);
  }

  // ---------------------------------------------------------------------
  // sanitizeFilename

  /** The characters a file name may not hold, each replaced by '-'. */
  predicate Forbidden(c: char) {
    c == '/' || c == '\\' || c == '?' || c == '%' || c == '*' || c == ':' || c == '|' || c == '"' || c == '<' || c == '>'
  }

  /** The characters `\s` matches and `trim` removes: white space and line
      terminators. */
  predicate IsSpace(c: char) {
    c == '\t' || c == '\n' || c == '\U{B}' || c == '\U{C}' || c == '\r' || c == ' ' ||
    c == '\U{A0}' || c == '\U{1680}' || ('\U{2000}' <= c <= '\U{200A}') ||
    c == '\U{2028}' || c == '\U{2029}' || c == '\U{202F}' || c == '\U{205F}' ||
    c == '\U{3000}' || c == '\U{FEFF}'
  }

  predicate NoForbidden(s: string) {
    forall i :: 0 <= i < |s| ==> !Forbidden(s[i])
  }

  predicate NoSpace(s: string) {
    forall i :: 0 <= i < |s| ==> !IsSpace(s[i])
  }

  predicate NoTrailingDot(s: string) {
    s == [] || s[|s| - 1] != '.'
  }

  /** A name `sanitizeFilename` leaves as it is. */
  predicate SafeName(s: string) {
    NoForbidden(s) && NoSpace(s) && NoTrailingDot(s)
  }

  /** `.replace(/[/\\?%*:|"<>]/g, '-')`. */
  function ReplaceForbidden(s: string): (r: string)
    ensures |r| == |s|
    ensures forall i :: 0 <= i < |s| ==> r[i] == if Forbidden(s[i]) then '-' else s[i]
  {
    seq(|s|, i requires 0 <= i < |s| => if Forbidden(s[i]) then '-' else s[i])
  }

  /** The rest of `s` after its leading white space. */
  function DropSpaces(s: string): (r: string)
    ensures |r| <= |s| && r == s[|s| - |r|..]
    ensures r == [] || !IsSpace(r[0])
    ensures s != [] && IsSpace(s[0]) ==> |r| < |s|
    ensures s == [] || !IsSpace(s[0]) ==> r == s
  {
    if s != [] && IsSpace(s[0]) then DropSpaces(s[1..]) else s
  }

  /** `.replace(/\s+/g, '_')`: each maximal run of white space becomes one
      '_'. */
  function CollapseSpaces(s: string): (r: string)
    ensures |r| <= |s|
    decreases |s|
  {
    if s == [] then []
    else if IsSpace(s[0]) then "_" + CollapseSpaces(DropSpaces(s))
    else [s[0]] + CollapseSpaces(s[1..])
  }

  /** After the replacement there is no white space. */
  lemma {:induction false} CollapsedHasNoSpace(s: string)
    ensures NoSpace(CollapseSpaces(s))
  {
    if s != [] {
      if IsSpace(s[0]) {
        CollapsedHasNoSpace(DropSpaces(s));
      } else {
        CollapsedHasNoSpace(s[1..]);
      }
    }
  }

  /** Every character of the result other than '_' comes from the input. */
  lemma {:induction false} CollapsedFromInput(s: string)
    ensures forall c :: c in CollapseSpaces(s) ==> c == '_' || c in s
  {
    if s != [] {
      if IsSpace(s[0]) {
        var rest := DropSpaces(s);
        CollapsedFromInput(rest);
        assert forall c :: c in rest ==> c in s;
      } else {
        CollapsedFromInput(s[1..]);
        assert forall c :: c in s[1..] ==> c in s;
      }
    }
  }

  /** A name without white space is unchanged. */
  lemma {:induction false} CollapseKeepsSpaceless(s: string)
    requires NoSpace(s)
    ensures CollapseSpaces(s) == s
  {
    if s != [] {
      assert !IsSpace(s[0]);
      CollapseKeepsSpaceless(s[1..]);
    }
  }

  /** `.replace(/\.+$/, '')`: the run of dots that ends the string, if any,
      is removed. */
  function StripTrailingDots(s: string): (r: string)
  {
    if s != [] && s[|s| - 1] == '.' then StripTrailingDots(s[..|s| - 1]) else s
  }

  /** What is removed is exactly the final run of dots: the result is a
      prefix of the input, everything after it is a dot, and it does not end
      in a dot itself. */
  lemma {:induction false} StripTrailingDotsSpec(s: string)
    ensures StripTrailingDots(s) <= s
    ensures forall i :: |StripTrailingDots(s)| <= i < |s| ==> s[i] == '.'
    ensures NoTrailingDot(StripTrailingDots(s))
  {
    if s != [] && s[|s| - 1] == '.' {
      StripTrailingDotsSpec(s[..|s| - 1]);
    }
  }

  /** The end of `s` cut before its trailing white space. */
  function DropTrailingSpaces(s: string): (r: string)
    ensures r <= s
    ensures r == [] || !IsSpace(r[|r| - 1])
    ensures s == [] || !IsSpace(s[|s| - 1]) ==> r == s
  {
    if s != [] && IsSpace(s[|s| - 1]) then DropTrailingSpaces(s[..|s| - 1]) else s
  }

  /** `.trim()`. */
  function Trim(s: string): (r: string)
    ensures NoSpace(s) ==> r == s
  {
    DropSpaces(DropTrailingSpaces(s))
  }

  /** `sanitizeFilename(filename)`: the name holds none of the forbidden
      characters and no white space, does not end in a dot, and is no longer
      than the input. */
  function SanitizeFilename(filename: string): (r: string)
    ensures SafeName(r)
    ensures |r| <= |filename|
  {
    var a := ReplaceForbidden(filename);
    var b := CollapseSpaces(a);
    var c := StripTrailingDots(b);
    CollapsedHasNoSpace(a);
    CollapsedFromInput(a);
    StripTrailingDotsSpec(b);
    assert NoForbidden(b) by {
      forall i | 0 <= i < |b| ensures !Forbidden(b[i]) {
        assert b[i] in b;
        if b[i] != '_' {
          var k :| 0 <= k < |a| && a[k] == b[i];
        }
      }
    }
    assert forall i :: 0 <= i < |c| ==> c[i] == b[i];
    Trim(c)
  }

  /** A name that is already safe comes back unchanged. */
  lemma SanitizeKeepsSafe(filename: string)
    requires SafeName(filename)
    ensures SanitizeFilename(filename) == filename
  {
    assert ReplaceForbidden(filename) == filename;
    CollapseKeepsSpaceless(filename);
  }

  /** Sanitizing twice is sanitizing once. */
  lemma SanitizeIdempotent(filename: string)
    ensures SanitizeFilename(SanitizeFilename(filename)) == SanitizeFilename(filename)
  {
    SanitizeKeepsSafe(SanitizeFilename(filename));
  }

  // ---------------------------------------------------------------------
  // download file names

  /** `title || fallback`. */
  function TitleOr(title: string, fallback: string): string {
    if title == "" then fallback else title
  }

  /** The name `downloadTranscript` saves under: a safe stem and `.txt`. */
  function TranscriptFileName(title: string): (r: string)
    ensures |r| >= 4 && SafeName(r[..|r| - 4]) && r[|r| - 4..] == ".txt"
  {
    SanitizeFilename(TitleOr(title, "transcript")) + ".txt"
  }

  /** The name `downloadAudio` saves under: a safe stem and `_audio.webm`. */
  function AudioFileName(title: string): (r: string)
    ensures |r| >= 11 && SafeName(r[..|r| - 11]) && r[|r| - 11..] == "_audio.webm"
  {
    SanitizeFilename(TitleOr(title, "audio")) + "_audio.webm"
  }

  /** The stem of a download name is the title (or its fallback) itself
      whenever that is already safe. */
  lemma DownloadNames(title: string)
    ensures SafeName(TitleOr(title, "transcript")) ==>
      TranscriptFileName(title) == TitleOr(title, "transcript") + ".txt"
    ensures SafeName(TitleOr(title, "audio")) ==>
      AudioFileName(title) == TitleOr(title, "audio") + "_audio.webm"
  {
    var t := TitleOr(title, "transcript");
    var a := TitleOr(title, "audio");
    if SafeName(t) {
      SanitizeKeepsSafe(t);
    }
    if SafeName(a) {
      SanitizeKeepsSafe(a);
    }
  }

  /** The fallback names are safe, so an untitled entry downloads as
      "transcript.txt" and "audio_audio.webm". */
  lemma FallbacksSafe()
    ensures SafeName("transcript") && SafeName("audio")
  {
  }

  // ---------------------------------------------------------------------
  // the failed-entry test of the history list

  const FailedMarker := "エラー:"

  /** A history entry is shown as failed when its text is non-empty and
      starts with the error marker; the first test adds nothing, as the
      marker is not empty. */
  predicate IsFailedEntry(t: Storage.Transcript): (r: bool)
    ensures r <==> StartsWith(t.transcript, FailedMarker)
  {
    t.transcript != "" && StartsWith(t.transcript, FailedMarker)
  }

  /** The text the processor writes when a job fails always carries the
      marker. */
  lemma ErrorTextIsMarked(message: string)
    ensures StartsWith(JobProcessor.ErrorPrefix + message, FailedMarker)
  {
    assert (JobProcessor.ErrorPrefix + message)[..|FailedMarker|] == JobProcessor.ErrorPrefix[..|FailedMarker|];
  }

  /** So a run of `processJob` whose transcription fails leaves its entry in
      the history shown as failed. */
  lemma FailedRunShownFailed(w: JobProcessor.World, job: JobQueue.Job, settings: Storage.Settings,
                             services: JobProcessor.Services, message: string, now: int)
    requires JobQueue.IndexOf(w.jobs, job.id) >= 0 && Storage.FindIndex(w.transcripts, job.transcriptId) >= 0
    ensures var r := JobProcessor.ProcessJobSpec(w, job, settings, services, Failure(message), now);
      IsFailedEntry(r.world.transcripts[Storage.FindIndex(w.transcripts, job.transcriptId)])
  {
    JobProcessor.ProcessJobFails(w, job, settings, services, message, now);
    ErrorTextIsMarked(message);
  }
}
