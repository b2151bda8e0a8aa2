/** The client's `recognition.onresult` handler: folding the recognizer's result list into
    a final and an interim transcript, deciding whether to send them, and what the
    transcript box shows. */
module Transcripts {
  import opened Options
  import opened Text

  /** One entry of `event.results`: its best alternative's text and its `isFinal` flag. */
  datatype SpeechResult = SpeechResult(transcript: string, isFinal: bool)

  /** The `transcript` message the client sends. */
  datatype Transcript = Transcript(final: string, interim: string)

  /** What the transcript box shows: the main text and the text of the gray span. */
  datatype Shown = Shown(text: string, gray: string)

  /** The final segments of `rs`, in order, each followed by one space. */
  function FinalText(rs: seq<SpeechResult>): string {
    if rs == [] then ""
    else FinalText(rs[..|rs| - 1])
         + (if rs[|rs| - 1].isFinal then rs[|rs| - 1].transcript + " " else "")
  }

  /** The non-final segments of `rs`, in order, with no separator. */
  function InterimText(rs: seq<SpeechResult>): string {
    if rs == [] then ""
    else InterimText(rs[..|rs| - 1])
         + (if rs[|rs| - 1].isFinal then "" else rs[|rs| - 1].transcript)
  }

  /** The results the loop visits: from `resultIndex` to the end (none when the index is
      past the end). */
  function Pending(results: seq<SpeechResult>, resultIndex: nat): seq<SpeechResult> {
    if resultIndex <= |results| then results[resultIndex..] else []
  }

  /** The loop of `onresult`: walks the results from `resultIndex`, appending each final
      segment and a space to the final transcript and each other segment to the interim
      one. */
  method Collect(results: seq<SpeechResult>, resultIndex: nat)
    returns (finalText: string, interimText: string)
    ensures finalText == FinalText(Pending(results, resultIndex))
    ensures interimText == InterimText(Pending(results, resultIndex))
  {
    interimText := "";
    finalText := "";
    var i := resultIndex;
    while i < |results|
      invariant resultIndex <= |results| ==> resultIndex <= i <= |results|
      invariant resultIndex <= |results| ==>
                  finalText == FinalText(results[resultIndex..i])
                  && interimText == InterimText(results[resultIndex..i])
      invariant resultIndex > |results| ==> i == resultIndex && finalText == "" && interimText == ""
    {
      var transcript := results[i].transcript;
      if results[i].isFinal {
        finalText := finalText + transcript + " ";
      } else {
        interimText := interimText + transcript;
      }
      assert results[resultIndex..i + 1][..i - resultIndex] == results[resultIndex..i];
      i := i + 1;
    }
    if resultIndex <= |results| {
      assert results[resultIndex..i] == Pending(results, resultIndex);
    }
  }

  /** The final text holds a character other than a space exactly when some final
      segment does: the appended separators never make a blank transcript sendable. */
  lemma {:induction false} FinalBlankIff(rs: seq<SpeechResult>)
    ensures Blank(FinalText(rs)) <==>
              forall j :: 0 <= j < |rs| && rs[j].isFinal ==> Blank(rs[j].transcript)
  {
    if rs != [] {
      var init, last := rs[..|rs| - 1], rs[|rs| - 1];
      FinalBlankIff(init);
      var piece := if last.isFinal then last.transcript + " " else "";
      BlankConcat(FinalText(init), piece);
      if last.isFinal {
        BlankConcat(last.transcript, " ");
      }
      assert forall j :: 0 <= j < |init| ==> init[j] == rs[j];
    }
  }

  /** The final text is empty exactly when no visited result is final, and otherwise ends
      with the separating space. */
  lemma {:induction false} FinalTextShape(rs: seq<SpeechResult>)
    ensures FinalText(rs) == "" <==> forall j :: 0 <= j < |rs| ==> !rs[j].isFinal
    ensures FinalText(rs) != "" ==> FinalText(rs)[|FinalText(rs)| - 1] == ' '
  {
    if rs != [] {
      FinalTextShape(rs[..|rs| - 1]);
      assert forall j :: 0 <= j < |rs| - 1 ==> rs[..|rs| - 1][j] == rs[j];
    }
  }

  /** `if (finalTranscript.trim()) socket.emit('transcript', {final, interim})`: a message
      is sent exactly when the final text is not blank, and it carries both texts
      untrimmed, the trailing space included. */
  function Emission(finalText: string, interimText: string): (r: Option<Transcript>)
    ensures r.Some? <==> !Blank(finalText)
    ensures r.Some? ==> r.value.final == finalText && r.value.interim == interimText
  {
    TrimEmptyIff(finalText);
    if Trim(finalText) != "" then Some(Transcript(finalText, interimText)) else None
  }

  /** `(final || interim)` followed by a gray span holding `interim` only when there is no
      final text: with no final text the interim text is shown twice. */
  function Display(finalText: string, interimText: string): (d: Shown)
    ensures finalText != "" ==> d.text == finalText && d.gray == ""
    ensures finalText == "" ==> d.text == interimText && d.gray == interimText
  {
    Shown(if finalText != "" then finalText else interimText,
          if interimText != "" && finalText == "" then interimText else "")
  }

}
