/** The client's press-to-talk controller: the `isListening` flag driven by the talk
    button, the recognizer's end and error handlers, the result handler, and the speech
    synthesizer fed with each response. */
module PushToTalk {
  import opened Options
  import opened Transcripts

  /** A call the page makes on the recognizer. */
  datatype Command = Start | Stop

  /** The line the status box shows. `Ready` is "Click and hold to speak". */
  datatype Status = Ready | Listening | Processing | Speaking | Failed(error: string)

  /** The talk button's label together with its `listening` class. */
  datatype Button = HoldToSpeak | ReleaseToStop

  /** The recognizer error that is not reported. */
  const NoSpeech: string := "no-speech"

  class Controller {
    var isListening: bool
    /** The calls made on `recognition`, oldest first. */
    var recognizer: seq<Command>
    var status: Status
    var button: Button
    /** The transcript box. */
    var shown: Shown
    /** The response box. */
    var response: string
    /** The utterances queued in `speechSynthesis`. */
    var speech: seq<string>
    /** The `transcript` messages sent to the server, oldest first. */
    var sent: seq<Transcript>

    /** The flag is set exactly when the last call made on the recognizer was a start,
        and the synthesizer never holds more than one utterance. */
    ghost predicate Valid()
      reads this
    {
      && (isListening <==> recognizer != [] && recognizer[|recognizer| - 1] == Start)
      && |speech| <= 1
    }

    constructor ()
      ensures Valid()
      ensures !isListening && recognizer == [] && status == Ready && button == HoldToSpeak
      ensures shown == Shown("", "") && response == "" && speech == [] && sent == []
    {
      isListening := false;
      recognizer := [];
      status := Ready;
      button := HoldToSpeak;
      shown := Shown("", "");
      response := "";
      speech := [];
      sent := [];
    }

    /** Pressing the button sets the flag and starts the recognizer. */
    method MouseDown()
      requires Valid()
      modifies this`isListening, this`recognizer
      ensures Valid()
      ensures isListening && recognizer == old(recognizer) + [Start]
    {
      isListening := true;
      recognizer := recognizer + [Start];
    }

    /** Releasing the button clears the flag and stops the recognizer, even when it was
        not started. */
    method MouseUp()
      requires Valid()
      modifies this`isListening, this`recognizer
      ensures Valid()
      ensures !isListening && recognizer == old(recognizer) + [Stop]
    {
      isListening := false;
      recognizer := recognizer + [Stop];
    }

    /** Leaving the button stops the recognizer and clears the flag only when the flag
        was set; otherwise nothing happens. */
    method MouseLeave()
      requires Valid()
      modifies this`isListening, this`recognizer
      ensures Valid()
      ensures !isListening
      ensures recognizer == if old(isListening) then old(recognizer) + [Stop] else old(recognizer)
    {
      if isListening {
        isListening := false;
        recognizer := recognizer + [Stop];
      }
    }

    /** `onstart`: the page shows that it listens. */
    method OnStart()
      requires Valid()
      modifies this`status, this`button
      ensures Valid()
      ensures status == Listening && button == ReleaseToStop
    {
      status := Listening;
      button := ReleaseToStop;
    }

    /** `onend`: while the button is held the recognizer is restarted; otherwise the page
        returns to the idle "Hold to Speak" state. */
    method OnEnd()
      requires Valid()
      modifies this`recognizer, this`status, this`button
      ensures Valid()
      ensures old(isListening) ==>
                recognizer == old(recognizer) + [Start] && status == old(status) && button == old(button)
      ensures !old(isListening) ==>
                recognizer == old(recognizer) && status == Ready && button == HoldToSpeak
    {
      if isListening {
        recognizer := recognizer + [Start];
      } else {
        status := Ready;
        button := HoldToSpeak;
      }
    }

    /** `onerror`: a no-speech error leaves the status alone; any other error is shown. */
    method OnError(error: string)
      requires Valid()
      modifies this`status
      ensures Valid()
      ensures status == if error == NoSpeech then old(status) else Failed(error)
    {
      if error != NoSpeech {
        status := Failed(error);
      }
    }

    /** `onresult`: folds the results from `resultIndex` into the final and interim texts,
        then sends and shows them. */
    method OnResult(results: seq<SpeechResult>, resultIndex: nat) returns (message: Option<Transcript>)
      requires Valid()
      modifies this`sent, this`status, this`shown
      ensures Valid()
      ensures var rs := Pending(results, resultIndex);
              && message == Emission(FinalText(rs), InterimText(rs))
              && shown == Display(FinalText(rs), InterimText(rs))
      ensures message.Some? ==> sent == old(sent) + [message.value] && status == Processing
      ensures message.None? ==> sent == old(sent) && status == old(status)
    {
      var finalText, interimText := Collect(results, resultIndex);
      message := Publish(finalText, interimText);
    }

    /** The second half of `onresult`: sends the texts when the final one is not blank
        (and then shows "Processing"), and shows them in the transcript box. */
    method Publish(finalText: string, interimText: string) returns (message: Option<Transcript>)
      requires Valid()
      modifies this`sent, this`status, this`shown
      ensures Valid()
      ensures message == Emission(finalText, interimText)
      ensures shown == Display(finalText, interimText)
      ensures message.Some? ==> sent == old(sent) + [message.value] && status == Processing
      ensures message.None? ==> sent == old(sent) && status == old(status)
    {
      message := Emission(finalText, interimText);
      if message.Some? {
        sent := sent + [message.value];
        status := Processing;
      }
      shown := Display(finalText, interimText);
    }

    /** `speak`: cancels whatever the synthesizer is saying, then queues the new text, so
        the queue holds exactly that one utterance. */
    method Speak(text: string)
      requires Valid()
      modifies this`speech
      ensures Valid()
      ensures speech == [text]
    {
      speech := [];
      speech := speech + [text];
    }

    /** A `gpt-response` event: shows the text, shows "Speaking" and speaks it. */
    method OnGptResponse(text: string)
      requires Valid()
      modifies this`response, this`status, this`speech
      ensures Valid()
      ensures response == text && status == Speaking && speech == [text]
    {
      response := text;
      status := Speaking;
      Speak(text);
    }

    /** The utterance's `onend`: the synthesizer is idle again and the page invites the
        next press. */
    method OnSpeechEnd()
      requires Valid()
      modifies this`speech, this`status
      ensures Valid()
      ensures speech == [] && status == Ready
    {
      speech := [];
      status := Ready;
    }
  }

}
