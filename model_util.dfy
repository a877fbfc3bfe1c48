/**
 * The result listener the on-device engine is built with
 * (`initGemmaModel` in util/ModelUtil.kt), wired by the view model to
 * commit the buffer, toggle the flag and append to the buffer.
 */
module ModelUtil {
  import opened Sentences
  import opened ViewModel

  /**
   * One call of the listener. A partial result is appended to the buffer.
   * When `done`, the partial result is ignored: the last transcript entry
   * becomes `("GEMINI", buffer)` and then the flag is toggled; the buffer
   * is left as it is. `ok` is false when that commit met an empty
   * transcript and threw, in which case the toggle is not reached.
   */
  method OnResult(vm: MainScreenViewModel, partialResult: string, done: bool) returns (ok: bool)
    modifies vm`sentences, vm`generatedText, vm`isGenerating
    ensures vm.generatedText == if done then old(vm.generatedText) else old(vm.generatedText) + partialResult
    ensures !done ==> ok && vm.sentences == old(vm.sentences) && vm.isGenerating == old(vm.isGenerating)
    ensures done ==> (ok <==> |old(vm.sentences)| > 0)
    ensures done && ok ==>
              && vm.sentences == old(vm.sentences)[..|old(vm.sentences)| - 1] + [Sentence(Gemini, old(vm.generatedText))]
              && vm.isGenerating == !old(vm.isGenerating)
    ensures done && !ok ==> vm.sentences == old(vm.sentences) && vm.isGenerating == old(vm.isGenerating)
    ensures old(vm.CanCommit()) ==> vm.CanCommit()
  {
    if done {
      ok := vm.UpdateSentence(Sentence(Gemini, vm.generatedText));
      if ok {
        vm.ChangeGenerateState();
      }
    } else {
      vm.SetGeneratedText(partialResult);
      ok := true;
    }
  }
}
