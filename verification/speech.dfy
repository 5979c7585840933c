/** The speech-recognition hook: the transcript built from recognition results, the
    messages for recognition errors, and the listening flag. */
module Speech {
  import opened Wrappers

  /** A recognition result: whether it is final, and the transcript of its first alternative. */
  datatype SpeechResult = SpeechResult(isFinal: bool, transcript: string)

  /** The final results' transcripts, in order, concatenated. */
  function FinalText(results: seq<SpeechResult>): string {
    if results == [] then ""
    else FinalText(results[..|results| - 1])
         + (if results[|results| - 1].isFinal then results[|results| - 1].transcript else "")
  }

  /** The text of a concatenation is the concatenation of the texts. */
  lemma {:induction false} FinalTextConcat(a: seq<SpeechResult>, b: seq<SpeechResult>)
    ensures FinalText(a + b) == FinalText(a) + FinalText(b)
    decreases |b|
  {
    if b == [] {
      assert a + b == a;
    } else {
      assert (a + b)[..|a + b| - 1] == a + b[..|b| - 1];
      FinalTextConcat(a, b[..|b| - 1]);
    }
  }

  /** A result that is not final adds nothing, wherever it sits. */
  lemma InterimIgnored(a: seq<SpeechResult>, r: SpeechResult, b: seq<SpeechResult>)
    requires !r.isFinal
    ensures FinalText(a + [r] + b) == FinalText(a + b)
  {
    FinalTextConcat(a + [r], b);
    FinalTextConcat(a, [r]);
    FinalTextConcat(a, b);
  }

  /** Every transcript, final or not, concatenated. */
  function AllText(results: seq<SpeechResult>): string {
    if results == [] then "" else AllText(results[..|results| - 1]) + results[|results| - 1].transcript
  }

  /** When every result is final, the text is all of their transcripts. */
  lemma {:induction false} AllFinal(results: seq<SpeechResult>)
    requires forall i :: 0 <= i < |results| ==> results[i].isFinal
    ensures FinalText(results) == AllText(results)
  {
    if results != [] {
      AllFinal(results[..|results| - 1]);
    }
  }

  /** When no result is final, the text is empty. */
  lemma {:induction false} NoneFinal(results: seq<SpeechResult>)
    requires forall i :: 0 <= i < |results| ==> !results[i].isFinal
    ensures FinalText(results) == ""
  {
    if results != [] {
      NoneFinal(results[..|results| - 1]);
    }
  }

  /** The `onresult` loop over the results from `resultIndex` on. The browser reports a
      `resultIndex` within the result list. */
  method CollectFinalTranscript(results: seq<SpeechResult>, resultIndex: nat) returns (finalTranscript: string)
    requires resultIndex <= |results|
    ensures finalTranscript == FinalText(results[resultIndex..])
  {
    finalTranscript := "";
    var i := resultIndex;
    while i < |results|
      invariant resultIndex <= i <= |results|
      invariant finalTranscript == FinalText(results[resultIndex..i])
    {
      assert results[resultIndex..i + 1][..i - resultIndex] == results[resultIndex..i];
      if results[i].isFinal {
        finalTranscript := finalTranscript + results[i].transcript;
      }
      i := i + 1;
    }
    assert results[resultIndex..i] == results[resultIndex..];
  }

  const MicrophoneDenied := "L'accès au microphone a été refusé. Veuillez l'autoriser dans les paramètres de votre navigateur."
  const NoSound := "Aucun son n'a été détecté. Veuillez réessayer."
  const GenericError := "Une erreur est survenue lors de la reconnaissance vocale."

  /** The message shown for a recognition error code. */
  function ErrorMessage(code: string): (m: string)
    ensures m == MicrophoneDenied <==> code == "not-allowed" || code == "service-not-allowed"
    ensures m == NoSound <==> code == "no-speech"
    ensures m == GenericError <==> !(code in {"not-allowed", "service-not-allowed", "no-speech"})
  {
    if code == "not-allowed" || code == "service-not-allowed" then MicrophoneDenied
    else if code == "no-speech" then NoSound
    else GenericError
  }

  /** A notification shown by the hook. */
  datatype Notice = Notice(title: string, description: string)

  /** The hook's state. `hasRecognizer` is whether the effect created a recognizer, which it
      does only when the browser supports recognition; `supported` is what the support test
      reports; `endCalls` counts the calls of the `onEnd` callback. */
  class SpeechRecognizer {
    var isListening: bool
    var transcript: string
    var hasRecognizer: bool
    var supported: bool
    var notice: Option<Notice>
    var endCalls: nat

    /** Listening needs a recognizer. */
    predicate Valid()
      reads this
    {
      isListening ==> hasRecognizer
    }

    /** The hook after its effect ran. */
    constructor (browserSupports: bool)
      ensures !isListening && transcript == "" && hasRecognizer == browserSupports
      ensures supported == browserSupports && notice == None && endCalls == 0
      ensures Valid()
    {
      isListening := false;
      transcript := "";
      hasRecognizer := browserSupports;
      supported := browserSupports;
      notice := None;
      endCalls := 0;
    }

    /** `onresult`: the transcript is replaced, not extended. */
    method OnResult(results: seq<SpeechResult>, resultIndex: nat)
      requires resultIndex <= |results|
      requires Valid()
      modifies this
      ensures Valid()
      ensures transcript == FinalText(results[resultIndex..])
      ensures isListening == old(isListening) && notice == old(notice) && endCalls == old(endCalls)
      ensures hasRecognizer == old(hasRecognizer) && supported == old(supported)
    {
      transcript := CollectFinalTranscript(results, resultIndex);
    }

    /** `onerror`: the message for the code is shown and listening stops. */
    method OnError(code: string)
      requires Valid()
      modifies this
      ensures Valid()
      ensures !isListening && notice == Some(Notice("Erreur de reconnaissance vocale", ErrorMessage(code)))
      ensures transcript == old(transcript) && endCalls == old(endCalls)
      ensures hasRecognizer == old(hasRecognizer) && supported == old(supported)
    {
      notice := Some(Notice("Erreur de reconnaissance vocale", ErrorMessage(code)));
      isListening := false;
    }

    /** `onend`: listening stops and the caller's `onEnd` runs. */
    method OnEnd()
      requires Valid()
      modifies this
      ensures Valid()
      ensures !isListening && endCalls == old(endCalls) + 1
      ensures transcript == old(transcript) && notice == old(notice)
      ensures hasRecognizer == old(hasRecognizer) && supported == old(supported)
    {
      isListening := false;
      endCalls := endCalls + 1;
    }

    /** `startListening`: only with a recognizer and while not listening; the transcript is
        cleared and listening starts, unless the support test fails, which only warns. */
    method StartListening()
      requires Valid()
      modifies this
      ensures Valid()
      ensures hasRecognizer == old(hasRecognizer) && supported == old(supported) && endCalls == old(endCalls)
      ensures !(old(hasRecognizer) && !old(isListening)) ==>
                isListening == old(isListening) && transcript == old(transcript) && notice == old(notice)
      ensures old(hasRecognizer) && !old(isListening) && supported ==>
                isListening && transcript == "" && notice == old(notice)
      ensures old(hasRecognizer) && !old(isListening) && !supported ==>
                !isListening && transcript == old(transcript) &&
                notice == Some(Notice("Navigateur non compatible", "La reconnaissance vocale n'est pas prise en charge par votre navigateur."))
    {
      if hasRecognizer && !isListening {
        if !supported {
          notice := Some(Notice("Navigateur non compatible", "La reconnaissance vocale n'est pas prise en charge par votre navigateur."));
          return;
        }
        transcript := "";
        isListening := true;
      }
    }

    /** `stopListening`: only while listening. */
    method StopListening()
      requires Valid()
      modifies this
      ensures Valid()
      ensures !isListening
      ensures transcript == old(transcript) && notice == old(notice) && endCalls == old(endCalls)
      ensures hasRecognizer == old(hasRecognizer) && supported == old(supported)
    {
      if hasRecognizer && isListening {
        isListening := false;
      }
    }
  }
}
