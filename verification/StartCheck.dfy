/**
 checkXrayStatus of backend/xray/jobs.go: reading the log stream of a core that has just been started until a
 line decides whether it runs. The log format's regular expression is a parameter: the level and the message
 of a line that matches it.
 */
module StartCheck {
  import opened Options
  import opened Helper

  datatype Fields = Fields(level: string, message: string)
  type LogFormat = string -> Option<Fields>

  // What arrives first: a line, or the ten seconds are over.
  datatype Event = Line(text: string) | Deadline

  // No verdict yet: the check still waits.
  datatype Verdict = Waiting | Success | Failure(reason: string)

  predicate SaysStarted(version: string, line: string) { Contains(line, "Xray " + version + " started") }

  predicate SaysFailed(format: LogFormat, line: string) {
    match format(line)
    case Some(f) => f.level == "Error" || Contains(f.message, "Failed to start")
    case None => Contains(line, "Failed to start")
  }

  /**
   A line says that the core has started exactly if "Xray", the version and "started" stand somewhere in it, and that
   it has failed exactly if its level is Error or its message, or the line itself where it has no such format,
   contains "Failed to start".
   */
  lemma LinesSay(format: LogFormat, version: string, line: string)
    ensures SaysStarted(version, line) <==>
              exists before: string, after: string :: line == before + ("Xray " + version + " started") + after
    ensures SaysFailed(format, line) <==>
              || (format(line).Some? && format(line).value.level == "Error")
              || (var text := if format(line).Some? then format(line).value.message else line;
                  exists before: string, after: string :: text == before + "Failed to start" + after)
  {
    ContainsIff(line, "Xray " + version + " started");
    ContainsIff(if format(line).Some? then format(line).value.message else line, "Failed to start");
  }

  predicate Decisive(format: LogFormat, version: string, ev: Event) {
    ev.Deadline? || SaysStarted(version, ev.text) || SaysFailed(format, ev.text)
  }

  // The verdict of the event that decides.
  function VerdictOf(format: LogFormat, version: string, ev: Event): Verdict
    requires Decisive(format, version, ev)
  {
    match ev
    case Deadline => Failure("failed to start xray: context timeout")
    case Line(text) =>
      if SaysStarted(version, text) then Success
      else if format(text).Some? then Failure("failed to start xray: " + format(text).value.message)
      else Failure("failed to start xray: " + text)
  }

  /** The reason of a failure ends in what the line says, or names the timeout. */
  lemma ReasonSays(format: LogFormat, version: string, ev: Event)
    requires Decisive(format, version, ev) && VerdictOf(format, version, ev).Failure?
    ensures var reason := VerdictOf(format, version, ev).reason;
            var said := if ev.Deadline? then "context timeout"
                        else if format(ev.text).Some? then format(ev.text).value.message else ev.text;
            reason == "failed to start xray: " + said && |said| <= |reason| && reason[|reason| - |said|..] == said
  {
    assert "failed to start xray: context timeout" == "failed to start xray: " + "context timeout";
  }

  ghost predicate DecidedAt(format: LogFormat, version: string, events: seq<Event>, k: nat) {
    && k < |events| && Decisive(format, version, events[k])
    && (forall i :: 0 <= i < k ==> !Decisive(format, version, events[i]))
  }

  // The first decisive event decides, and exactly the events up to it are consumed.
  ghost predicate Outcome(format: LogFormat, version: string, events: seq<Event>, verdict: Verdict, consumed: nat) {
    && consumed <= |events|
    && (verdict.Waiting? ==>
          consumed == |events| && forall i :: 0 <= i < |events| ==> !Decisive(format, version, events[i]))
    && (!verdict.Waiting? ==>
          && consumed > 0 && DecidedAt(format, version, events, consumed - 1)
          && verdict == VerdictOf(format, version, events[consumed - 1]))
  }

  // The loop, on the events that have arrived; `consumed` of them are gone when it returns.
  method CheckStatus(format: LogFormat, version: string, events: seq<Event>) returns (verdict: Verdict, consumed: nat)
    ensures Outcome(format, version, events, verdict, consumed)
  {
    consumed := 0;
    while consumed < |events|
      invariant consumed <= |events|
      invariant forall i :: 0 <= i < consumed ==> !Decisive(format, version, events[i])
    {
      var ev := events[consumed];
      consumed := consumed + 1;
      match ev {
        case Line(text) =>
          if Contains(text, "Xray " + version + " started") {
            return Success, consumed;
          }
          var matches := format(text);
          if matches.Some? {
            if matches.value.level == "Error" || Contains(matches.value.message, "Failed to start") {
              return Failure("failed to start xray: " + matches.value.message), consumed;
            }
          } else {
            if Contains(text, "Failed to start") {
              return Failure("failed to start xray: " + text), consumed;
            }
          }
        case Deadline =>
          return Failure("failed to start xray: context timeout"), consumed;
      }
    }
    return Waiting, consumed;
  }

  /**
   Success exactly when a started line comes before any failure line and before the deadline; a line that says
   both counts as started.
   */
  lemma SuccessIff(format: LogFormat, version: string, events: seq<Event>, verdict: Verdict, consumed: nat)
    requires Outcome(format, version, events, verdict, consumed)
    ensures verdict.Success? <==>
              exists k :: 0 <= k < |events| && events[k].Line? && SaysStarted(version, events[k].text)
                          && forall i :: 0 <= i < k ==> events[i].Line? && !SaysFailed(format, events[i].text)
  {
    if exists k :: 0 <= k < |events| && events[k].Line? && SaysStarted(version, events[k].text)
                   && forall i :: 0 <= i < k ==> events[i].Line? && !SaysFailed(format, events[i].text) {
      var k :| 0 <= k < |events| && events[k].Line? && SaysStarted(version, events[k].text)
               && forall i :: 0 <= i < k ==> events[i].Line? && !SaysFailed(format, events[i].text);
      assert Decisive(format, version, events[k]);
      assert consumed - 1 <= k;
    }
    if verdict.Success? {
      var k := consumed - 1;
      forall i | 0 <= i < k ensures events[i].Line? && !SaysFailed(format, events[i].text) {
        assert !Decisive(format, version, events[i]);
      }
    }
  }

  /** Once there is a verdict, nothing that arrives later changes it or is consumed. */
  lemma VerdictIsFinal(format: LogFormat, version: string, events: seq<Event>, more: seq<Event>,
                       v1: Verdict, c1: nat, v2: Verdict, c2: nat)
    requires Outcome(format, version, events, v1, c1) && !v1.Waiting?
    requires Outcome(format, version, events + more, v2, c2)
    ensures v2 == v1 && c2 == c1
  {
    var all := events + more;
    assert DecidedAt(format, version, all, c1 - 1) by {
      assert forall i :: 0 <= i < c1 ==> all[i] == events[i];
    }
    assert c2 <= c1;
  }
}
