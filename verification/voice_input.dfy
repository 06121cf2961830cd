/**
 The speech-transcript accumulator of the voice input button. Recognition
 events are an abstract sequence: each result event carries the recognizer's
 result list and the index of the first result that changed. Final fragments
 are appended to a running transcript, each followed by a space; the interim
 text is replaced on every event; starting a session resets the running
 transcript; and a short while after the session ends the trimmed transcript
 is handed to the parent, but only when it is not empty.
 */
module VoiceInput {
  import opened Js

  /** One recognition result: the transcript of its first alternative. */
  datatype RecognitionResult = RecognitionResult(transcript: string, isFinal: bool)

  datatype ResultEvent = ResultEvent(results: seq<RecognitionResult>, resultIndex: nat)

  /** The results the handler visits: from `resultIndex` to the end. */
  function Pending(e: ResultEvent): seq<RecognitionResult> {
    if e.resultIndex <= |e.results| then e.results[e.resultIndex..] else []
  }

  /** The final fragments of `rs`, in order, each followed by one space. */
  function FinalText(rs: seq<RecognitionResult>): string {
    if |rs| == 0 then ""
    else FinalPiece(rs[0]) + FinalText(rs[1..])
  }

  /** The interim fragments of `rs`, in order, run together. */
  function InterimText(rs: seq<RecognitionResult>): string {
    if |rs| == 0 then ""
    else InterimPiece(rs[0]) + InterimText(rs[1..])
  }

  /** What one result adds to the final text and to the interim text. */
  function FinalPiece(r: RecognitionResult): string {
    if r.isFinal then r.transcript + " " else ""
  }

  function InterimPiece(r: RecognitionResult): string {
    if r.isFinal then "" else r.transcript
  }

  /** Appending one result extends the final text at its end. */
  lemma {:induction false} FinalTextSnoc(rs: seq<RecognitionResult>, r: RecognitionResult)
    ensures FinalText(rs + [r]) == FinalText(rs) + FinalPiece(r)
  {
    if |rs| == 0 {
      assert rs + [r] == [r];
      assert FinalText([r]) == FinalPiece(r) + FinalText([]);
    } else {
      var rs' := rs + [r];
      assert rs'[0] == rs[0] && rs'[1..] == rs[1..] + [r];
      calc {
        FinalText(rs');
        FinalPiece(rs[0]) + FinalText(rs[1..] + [r]);
        { FinalTextSnoc(rs[1..], r); }
        FinalPiece(rs[0]) + (FinalText(rs[1..]) + FinalPiece(r));
        (FinalPiece(rs[0]) + FinalText(rs[1..])) + FinalPiece(r);
      }
    }
  }

  /** Appending one result extends the interim text at its end. */
  lemma {:induction false} InterimTextSnoc(rs: seq<RecognitionResult>, r: RecognitionResult)
    ensures InterimText(rs + [r]) == InterimText(rs) + InterimPiece(r)
  {
    if |rs| == 0 {
      assert rs + [r] == [r];
      assert InterimText([r]) == InterimPiece(r) + InterimText([]);
    } else {
      var rs' := rs + [r];
      assert rs'[0] == rs[0] && rs'[1..] == rs[1..] + [r];
      calc {
        InterimText(rs');
        InterimPiece(rs[0]) + InterimText(rs[1..] + [r]);
        { InterimTextSnoc(rs[1..], r); }
        InterimPiece(rs[0]) + (InterimText(rs[1..]) + InterimPiece(r));
        (InterimPiece(rs[0]) + InterimText(rs[1..])) + InterimPiece(r);
      }
    }
  }

  /** The final text is empty exactly when no visited result is final: even
      an empty final fragment contributes its trailing space. */
  lemma {:induction false} FinalTextEmptyIff(rs: seq<RecognitionResult>)
    ensures FinalText(rs) == "" <==> forall i :: 0 <= i < |rs| ==> !rs[i].isFinal
  {
    if |rs| > 0 {
      FinalTextEmptyIff(rs[1..]);
      assert forall i :: 1 <= i < |rs| ==> rs[i] == rs[1..][i - 1];
    }
  }

  /** The loop body: a final fragment goes to the final text with a space
      after it, any other to the interim text. */
  method Visit(finalText: string, interimText: string, result: RecognitionResult)
    returns (finalText': string, interimText': string)
    ensures finalText' == finalText + FinalPiece(result)
    ensures interimText' == interimText + InterimPiece(result)
  {
    finalText', interimText' := finalText, interimText;
    var part := result.transcript;
    if result.isFinal {
      finalText' := finalText' + part + " ";
    } else {
      interimText' := interimText' + part;
    }
  }

  /** The handler's loop over the visited results, building both texts left
      to right. */
  method CollectResults(e: ResultEvent) returns (finalText: string, interimText: string)
    ensures finalText == FinalText(Pending(e))
    ensures interimText == InterimText(Pending(e))
  {
    finalText, interimText := "", "";
    var i := e.resultIndex;
    if i > |e.results| {
      return;
    }
    while i < |e.results|
      invariant e.resultIndex <= i <= |e.results|
      invariant finalText == FinalText(e.results[e.resultIndex..i])
      invariant interimText == InterimText(e.results[e.resultIndex..i])
    {
      ghost var done := e.results[e.resultIndex..i];
      assert e.results[e.resultIndex..i + 1] == done + [e.results[i]];
      FinalTextSnoc(done, e.results[i]);
      InterimTextSnoc(done, e.results[i]);
      finalText, interimText := Visit(finalText, interimText, e.results[i]);
      i := i + 1;
    }
    assert e.results[e.resultIndex..i] == Pending(e);
  }

  /** Component state: whether the browser has a recognizer, whether a
      session is live, the two displayed texts, and the running transcript
      kept outside React's state. */
  datatype Voice = Voice(supported: bool, listening: bool, transcript: string, interim: string, running: string)

  function Initial(supported: bool): Voice {
    Voice(supported, false, "", "", "")
  }

  /** `onstart`: the session is live and the running transcript is reset. */
  function OnStart(s: Voice): (s': Voice)
    ensures s'.listening && s'.running == ""
    ensures s'.transcript == s.transcript && s'.interim == s.interim && s'.supported == s.supported
  {
    s.(listening := true, running := "")
  }

  /** `onresult`: new final text is appended to the running transcript and
      shown; the interim text is replaced whatever it was. */
  function OnResult(s: Voice, e: ResultEvent): (s': Voice)
    ensures s'.interim == InterimText(Pending(e))
    ensures s'.running == s.running + FinalText(Pending(e))
    ensures FinalText(Pending(e)) != "" ==> s'.transcript == s'.running
    ensures FinalText(Pending(e)) == "" ==> s'.transcript == s.transcript
    ensures s'.listening == s.listening && s'.supported == s.supported
  {
    var finalText := FinalText(Pending(e));
    var interimText := InterimText(Pending(e));
    if finalText != "" then
      s.(running := s.running + finalText, transcript := s.running + finalText, interim := interimText)
    else
      s.(interim := interimText)
  }

  /** `onend`: the session is over; delivery follows on a timer. */
  function OnEnd(s: Voice): (s': Voice)
    ensures !s'.listening
    ensures s'.running == s.running && s'.transcript == s.transcript && s'.interim == s.interim
    ensures s'.supported == s.supported
  {
    s.(listening := false)
  }

  /** The timer `onend` sets: it reads the running transcript when it fires,
      trims it, and passes it on only when something is left and a callback
      was given. */
  function DeliverOnEnd(s: Voice, hasCallback: bool): (d: Option<string>)
    ensures d.Some? <==> hasCallback && !AllWhiteSpace(s.running)
    ensures d.Some? ==> d.value == Trim(s.running) && d.value != ""
  {
    var t := Trim(s.running);
    if hasCallback && t != "" then Some(t) else None
  }

  /** What a click on the button asks of the browser. */
  datatype ClickAction = Alert | StartRecognition | StopRecognition

  /** `handleClick`: an alert when unsupported; otherwise start (clearing all
      three texts) when idle, or stop when listening. */
  function Click(s: Voice): (r: (Voice, ClickAction))
    ensures !s.supported ==> r == (s, Alert)
    ensures s.supported && !s.listening ==>
              r.1 == StartRecognition && r.0 == s.(transcript := "", interim := "", running := "")
    ensures s.supported && s.listening ==> r == (s, StopRecognition)
  {
    if !s.supported then (s, Alert)
    else if !s.listening then (s.(transcript := "", interim := "", running := ""), StartRecognition)
    else (s, StopRecognition)
  }

  /** The text on screen: the transcript, then a space and the interim text
      when there is any. */
  function CurrentText(s: Voice): (t: string)
    ensures |t| >= |s.transcript| && t[..|s.transcript|] == s.transcript
    ensures s.interim == "" ==> t == s.transcript
    ensures s.interim != "" ==> t[|s.transcript|..] == " " + s.interim
  {
    s.transcript + (if s.interim != "" then " " + s.interim else "")
  }

  /** An event whose visited results are all interim changes only the
      interim text; one with a final result always grows the transcript. */
  lemma OnResultFinalIff(s: Voice, e: ResultEvent)
    ensures (forall i :: 0 <= i < |Pending(e)| ==> !Pending(e)[i].isFinal) ==>
              OnResult(s, e) == s.(interim := InterimText(Pending(e)))
    ensures (exists i :: 0 <= i < |Pending(e)| && Pending(e)[i].isFinal) ==>
              |OnResult(s, e).running| > |s.running| && OnResult(s, e).transcript == OnResult(s, e).running
  {
    FinalTextEmptyIff(Pending(e));
  }

  /** A run of result events. */
  function OnResults(s: Voice, es: seq<ResultEvent>): Voice
    decreases |es|
  {
    if |es| == 0 then s else OnResults(OnResult(s, es[0]), es[1..])
  }

  /** Everything the events of a session made final, in order. */
  function Accumulated(es: seq<ResultEvent>): string
    decreases |es|
  {
    if |es| == 0 then "" else FinalText(Pending(es[0])) + Accumulated(es[1..])
  }

  /** Over a run of events the running transcript only grows, by exactly the
      final text of each event in turn. */
  lemma {:induction false} RunningAccumulates(s: Voice, es: seq<ResultEvent>)
    ensures OnResults(s, es).running == s.running + Accumulated(es)
    decreases |es|
  {
    if |es| == 0 {
      assert s.running + "" == s.running;
    } else {
      var piece := FinalText(Pending(es[0]));
      var s1 := OnResult(s, es[0]);
      assert s1.running == s.running + piece;
      assert Accumulated(es) == piece + Accumulated(es[1..]);
      RunningAccumulates(s1, es[1..]);
      assert (s.running + piece) + Accumulated(es[1..]) == s.running + (piece + Accumulated(es[1..]));
    }
  }

  /** After a run of events the interim text is the last event's, and the
      session stays as live as it was. */
  lemma {:induction false} InterimIsLast(s: Voice, es: seq<ResultEvent>)
    ensures |es| > 0 ==> OnResults(s, es).interim == InterimText(Pending(es[|es| - 1]))
    ensures OnResults(s, es).listening == s.listening
    decreases |es|
  {
    if |es| > 0 {
      var s1 := OnResult(s, es[0]);
      assert OnResults(s, es) == OnResults(s1, es[1..]);
      InterimIsLast(s1, es[1..]);
      if |es| > 1 {
        assert es[1..][|es[1..]| - 1] == es[|es| - 1];
      }
    }
  }

  /** Whatever happened before, a session started and fed result events
      delivers exactly the trimmed concatenation of its final fragments. */
  lemma SessionDelivers(s: Voice, es: seq<ResultEvent>, hasCallback: bool)
    ensures var s' := OnEnd(OnResults(OnStart(s), es));
            DeliverOnEnd(s', hasCallback)
              == (if hasCallback && !AllWhiteSpace(Accumulated(es)) then Some(Trim(Accumulated(es))) else None)
  {
    RunningAccumulates(OnStart(s), es);
    var s' := OnEnd(OnResults(OnStart(s), es));
    assert s'.running == Accumulated(es) by {
      assert "" + Accumulated(es) == Accumulated(es);
    }
  }

  /** A click that starts a session leaves nothing on screen. */
  lemma StartClearsScreen(s: Voice)
    requires s.supported && !s.listening
    ensures CurrentText(Click(s).0) == ""
  {
  }
}
