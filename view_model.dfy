/**
 * The chat state of `MainScreenViewModel` (ui/data/MainScreenViewModel.kt):
 * the transcript, the buffer of the reply being streamed, the
 * generating flag, the text chosen for selection, and whether the online
 * model answered at start-up.
 */
module ViewModel {
  import opened Wrappers
  import opened Sentences

  /** The text of a streamed reply: every chunk that has text, in order; chunks without text add nothing. */
  function Streamed(chunks: seq<Option<string>>): (r: string)
    ensures (forall i :: 0 <= i < |chunks| ==> chunks[i].None?) ==> r == ""
  {
    if chunks == [] then ""
    else chunks[0].GetOr("") + Streamed(chunks[1..])
  }

  lemma {:induction false} StreamedConcat(a: seq<Option<string>>, b: seq<Option<string>>)
    ensures Streamed(a + b) == Streamed(a) + Streamed(b)
  {
    if a == [] {
      assert a + b == b;
    } else {
      assert (a + b)[1..] == a[1..] + b;
      StreamedConcat(a[1..], b);
    }
  }

  /** One more chunk extends the streamed text by that chunk's text, if it has one. */
  lemma StreamedAppend(chunks: seq<Option<string>>, chunk: Option<string>)
    ensures Streamed(chunks + [chunk]) == Streamed(chunks) + chunk.GetOr("")
  {
    StreamedConcat(chunks, [chunk]);
    assert [chunk][1..] == [];
  }

  class MainScreenViewModel {
    var sentences: seq<Sentence>
    var isGenerating: bool
    var textToSelect: string
    var generatedText: string
    var isOnline: bool

    /**
     * A generation in progress always has a transcript entry to commit
     * its text into, so a stop or a finished generation never meets an
     * empty list.
     */
    predicate CanCommit()
      reads this
    {
      isGenerating ==> |sentences| > 0
    }

    /**
     * A fresh view model; `online` is whether the start-up probe of the
     * online model succeeded.
     */
    constructor (online: bool)
      ensures sentences == [] && !isGenerating && textToSelect == "" && generatedText == ""
      ensures isOnline == online
      ensures CanCommit()
    {
      sentences := [];
      isGenerating := false;
      textToSelect := "";
      generatedText := "";
      isOnline := online;
    }

    /** `addSentence`: the sentence goes at the end; every earlier entry stays. */
    method AddSentence(sentence: Sentence)
      modifies this`sentences
      ensures sentences == old(sentences) + [sentence]
    {
      sentences := sentences + [sentence];
    }

    /**
     * `updateSentence`: the last entry is replaced and the length kept. On an
     * empty transcript `set(size - 1, ...)` throws; `ok` is false and nothing
     * changes.
     */
    method UpdateSentence(sentence: Sentence) returns (ok: bool)
      modifies this`sentences
      ensures ok <==> |old(sentences)| > 0
      ensures ok ==> sentences == old(sentences)[..|old(sentences)| - 1] + [sentence]
      ensures !ok ==> sentences == old(sentences)
    {
      ok := |sentences| > 0;
      if ok {
        sentences := sentences[..|sentences| - 1] + [sentence];
      }
    }

    /** `setGeneratedText`: appends to the buffer (it does not replace it). */
    method SetGeneratedText(text: string)
      modifies this`generatedText
      ensures generatedText == old(generatedText) + text
    {
      generatedText := generatedText + text;
    }

    /** `clearGeneratedText`: empties the buffer. */
    method ClearGeneratedText()
      modifies this`generatedText
      ensures generatedText == ""
    {
      generatedText := "";
    }

    /** `changeGenerateState`: negates the flag. */
    method ChangeGenerateState()
      modifies this`isGenerating
      ensures isGenerating == !old(isGenerating)
    {
      isGenerating := !isGenerating;
    }

    /** `setTextToSelect`: replaces the text chosen for selection; nothing else changes. */
    method SetTextToSelect(text: string)
      modifies this`textToSelect
      ensures textToSelect == text
    {
      textToSelect := text;
    }

    /**
     * `sendMessage`. Online: a `("GEMINI", "")` placeholder is appended, the
     * text of every chunk the chat stream delivers is appended to the buffer
     * (the buffer is not cleared first), then the placeholder becomes
     * `("GEMINI", buffer)` and the flag is toggled; `chunks` are the chunks
     * delivered before the stream ended or, when `threw`, before it threw,
     * and the catch block commits and toggles the same way. Offline: the
     * buffer is cleared, a placeholder is appended and the on-device engine
     * is started on `message`; its results arrive later through the listener.
     */
    method SendMessage(message: string, chunks: seq<Option<string>>, threw: bool)
      modifies this`sentences, this`generatedText, this`isGenerating
      ensures isOnline ==>
                && generatedText == old(generatedText) + Streamed(chunks)
                && sentences == old(sentences) + [Sentence(Gemini, generatedText)]
                && isGenerating == !old(isGenerating)
      ensures !isOnline ==>
                && generatedText == ""
                && sentences == old(sentences) + [Sentence(Gemini, "")]
                && isGenerating == old(isGenerating)
      ensures CanCommit()
    {
      if isOnline {
        AddSentence(Sentence(Gemini, ""));
        var i := 0;
        while i < |chunks|
          invariant 0 <= i <= |chunks|
          invariant generatedText == old(generatedText) + Streamed(chunks[..i])
          invariant sentences == old(sentences) + [Sentence(Gemini, "")]
          invariant isGenerating == old(isGenerating)
        {
          match chunks[i] {
            case Some(text) => SetGeneratedText(text);
            case None =>
          }
          StreamedAppend(chunks[..i], chunks[i]);
          assert chunks[..i + 1] == chunks[..i] + [chunks[i]];
          i := i + 1;
        }
        assert chunks[..|chunks|] == chunks;
        var ok;
        if !threw {
          // the stream completed
          ok := UpdateSentence(Sentence(Gemini, generatedText));
        } else {
          // the catch block: the same commit, and a notice shown to the user
          ok := UpdateSentence(Sentence(Gemini, generatedText));
        }
        ChangeGenerateState();
      } else {
        ClearGeneratedText();
        AddSentence(Sentence(Gemini, ""));
      }
    }
  }
}
