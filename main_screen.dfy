/**
 * The send/stop button of the chat screen (ui/screen/MainScreen.kt) and the
 * exchanges it starts. The text field's content `message` is local state of
 * the screen, so it goes in and its new value comes out. Launching the
 * coroutine that calls `sendMessage` is an outcome of the click; the
 * scenarios below run that call, and the listener calls of the on-device
 * engine, one after another.
 */
module MainScreen {
  import opened Wrappers
  import opened Sentences
  import opened Text
  import opened ViewModel
  import opened ModelUtil

  datatype ClickOutcome =
    | Ignored                   // the button is disabled: empty message and nothing generating
    | Stopped                   // a generation was stopped and its text committed
    | StopFailed                // the stop met an empty transcript and threw
    | Launched(prompt: string)  // `sendMessage(prompt)` was launched

  /**
   * A click. The button is enabled when the message is not empty or a
   * generation is running. While generating, the click cancels the running
   * job, commits the buffer into the last entry, clears the buffer, toggles
   * the flag and empties the text field. Otherwise it toggles the flag,
   * empties the field, appends `("YOU", message)` and launches `sendMessage`
   * with the message as it was.
   */
  method OnClick(vm: MainScreenViewModel, message: string) returns (newMessage: string, outcome: ClickOutcome)
    modifies vm`sentences, vm`generatedText, vm`isGenerating
    ensures outcome == Ignored <==> message == "" && !old(vm.isGenerating)
    ensures outcome.Ignored? || outcome.StopFailed? ==>
              && newMessage == message
              && vm.sentences == old(vm.sentences)
              && vm.generatedText == old(vm.generatedText)
              && vm.isGenerating == old(vm.isGenerating)
    ensures old(vm.isGenerating) ==> (outcome == Stopped <==> |old(vm.sentences)| > 0)
    ensures old(vm.isGenerating) ==> (outcome == StopFailed <==> |old(vm.sentences)| == 0)
    ensures outcome == Stopped ==>
              && |old(vm.sentences)| > 0
              && newMessage == ""
              && vm.sentences == old(vm.sentences)[..|old(vm.sentences)| - 1] + [Sentence(Gemini, old(vm.generatedText))]
              && vm.generatedText == ""
              && !vm.isGenerating
    ensures !old(vm.isGenerating) && message != "" ==>
              && outcome == Launched(message)
              && newMessage == ""
              && vm.sentences == old(vm.sentences) + [Sentence(You, message)]
              && vm.generatedText == old(vm.generatedText)
              && vm.isGenerating
    ensures old(vm.CanCommit()) ==> outcome != StopFailed && vm.CanCommit()
  {
    if !(message != "" || vm.isGenerating) {
      return message, Ignored;
    }
    if vm.isGenerating {
      var ok := vm.UpdateSentence(Sentence(Gemini, vm.generatedText));
      if !ok {
        return message, StopFailed;
      }
      vm.ClearGeneratedText();
      vm.ChangeGenerateState();
      newMessage, outcome := "", Stopped;
    } else {
      vm.ChangeGenerateState();
      var tempMsg := message;
      newMessage := "";
      vm.AddSentence(Sentence(You, tempMsg));
      outcome := Launched(tempMsg);
    }
  }

  /**
   * An online exchange: the click, then the launched `sendMessage` with the
   * chunks the chat stream delivers. The transcript gains the user's turn and
   * the reply, and the reply is the old buffer followed by the streamed text.
   */
  method OnlineExchange(vm: MainScreenViewModel, message: string, chunks: seq<Option<string>>, threw: bool)
    requires vm.isOnline && !vm.isGenerating && message != ""
    modifies vm`sentences, vm`generatedText, vm`isGenerating
    ensures vm.sentences == old(vm.sentences) + [Sentence(You, message), Sentence(Gemini, old(vm.generatedText) + Streamed(chunks))]
    ensures vm.generatedText == old(vm.generatedText) + Streamed(chunks)
    ensures !vm.isGenerating && vm.CanCommit()
  {
    var newMessage, outcome := OnClick(vm, message);
    vm.SendMessage(outcome.prompt, chunks, threw);
  }

  /**
   * Two online exchanges on a fresh screen. Nothing clears the buffer on the
   * online path, so the second reply is committed with the first reply's
   * text in front of its own.
   */
  method TwoOnlineExchanges(m1: string, m2: string, c1: seq<Option<string>>, c2: seq<Option<string>>)
      returns (vm: MainScreenViewModel)
    requires m1 != "" && m2 != ""
    ensures vm.sentences == [Sentence(You, m1), Sentence(Gemini, Streamed(c1)), Sentence(You, m2), Sentence(Gemini, Streamed(c1) + Streamed(c2))]
    ensures !vm.isGenerating
  {
    vm := new MainScreenViewModel(true);
    OnlineExchange(vm, m1, c1, false);
    assert "" + Streamed(c1) == Streamed(c1);
    assert vm.sentences == [Sentence(You, m1), Sentence(Gemini, Streamed(c1))];
    OnlineExchange(vm, m2, c2, false);
  }

  /**
   * An on-device exchange: the click, the launched `sendMessage` (which
   * clears the buffer and starts the engine), the engine's partial results in
   * order and its final `done`. The reply is the concatenation of the partial
   * results and the flag is back where it started.
   */
  method OfflineExchange(vm: MainScreenViewModel, message: string, partials: seq<string>, finalPartial: string)
    requires !vm.isOnline && !vm.isGenerating && message != ""
    modifies vm`sentences, vm`generatedText, vm`isGenerating
    ensures vm.sentences == old(vm.sentences) + [Sentence(You, message), Sentence(Gemini, Flatten(partials))]
    ensures vm.generatedText == Flatten(partials)
    ensures !vm.isGenerating && vm.CanCommit()
  {
    var newMessage, outcome := OnClick(vm, message);
    vm.SendMessage(outcome.prompt, [], false);
    ghost var placed := vm.sentences;
    var i := 0;
    while i < |partials|
      invariant 0 <= i <= |partials|
      invariant vm.generatedText == Flatten(partials[..i])
      invariant vm.sentences == placed && vm.isGenerating
    {
      var ok := OnResult(vm, partials[i], false);
      FlattenAppend(partials[..i], [partials[i]]);
      TakeOneMore(partials, i);
      i := i + 1;
    }
    assert partials[..|partials|] == partials;
    var ok := OnResult(vm, finalPartial, true);
  }

  /**
   * A stop during on-device generation: the click commits what has arrived
   * and lowers the flag, but the engine is not told to stop. Its later
   * partial result lands in the cleared buffer and its `done` overwrites the
   * committed reply and raises the flag again, with nothing generating.
   */
  method StopDuringOfflineGeneration(vm: MainScreenViewModel, message: string, early: string, late: string)
    requires !vm.isOnline && !vm.isGenerating && message != ""
    modifies vm`sentences, vm`generatedText, vm`isGenerating
    ensures vm.sentences == old(vm.sentences) + [Sentence(You, message), Sentence(Gemini, late)]
    ensures vm.isGenerating
  {
    var m, outcome := OnClick(vm, message);
    vm.SendMessage(outcome.prompt, [], false);
    var ok := OnResult(vm, early, false);
    assert vm.generatedText == early by { assert "" + early == early; }
    ghost var placed := vm.sentences;
    assert placed == old(vm.sentences) + [Sentence(You, message), Sentence(Gemini, "")];
    m, outcome := OnClick(vm, m);
    assert outcome == Stopped && !vm.isGenerating;
    assert placed[..|placed| - 1] == old(vm.sentences) + [Sentence(You, message)];
    assert vm.sentences == old(vm.sentences) + [Sentence(You, message), Sentence(Gemini, early)];
    ghost var stopped := vm.sentences;
    ok := OnResult(vm, late, false);
    assert vm.generatedText == late by { assert "" + late == late; }
    ok := OnResult(vm, "", true);
    assert stopped[..|stopped| - 1] == old(vm.sentences) + [Sentence(You, message)];
    assert vm.sentences == old(vm.sentences) + [Sentence(You, message), Sentence(Gemini, late)];
  }
}
