/**
 * The story-generation screen of Tale.kt: the keyword list and its
 * handlers, the busy flag around the two requests to the generative model,
 * the prompt text, and saving the result through `StoryManager`.
 *
 * The model's answers arrive asynchronously; they are the two reply
 * handlers below, called in the order the coroutine awaits them.
 */
module TaleScreen {
  import opened Wrappers
  import opened KotlinText
  import opened KotlinNumbers
  import opened KotlinCollections
  import opened Tales

  const Opening: string := "Çocuklar için eğlenceli, öğretici ve yaratıcı bir masal yaz. "
  const KeywordsLead: string := "Şu kelimeleri doğal bir şekilde masala dahil et: "
  const KeywordsEnd: string := ". "
  const OriginalStory: string := "Özgün bir masal oluştur. "
  const Closing: string :=
    "Masalın içinde macera, dostluk ve anlamlı bir öğüt olsun. "
    + "Hikaye kısa, akıcı ve çocukların ilgisini çekecek şekilde yazılsın."
  const ImageRequestSuffix: string := " buradaki masalı anlatan bir resim oluşturmam için prompt oluştur"
  const ErrorPrefix: string := "Bir hata oluştu: "
  const TitlePrefix: string := "Masal "

  /** `buildStoryPrompt`: the opening sentence, then the keywords sentence
      or the "original story" sentence, then the two closing sentences. */
  function BuildStoryPrompt(keywords: string): (prompt: string)
    ensures Opening <= prompt
    ensures |prompt| == |Opening| + (if keywords != "" then |KeywordsLead| + |keywords| + |KeywordsEnd| else |OriginalStory|) + |Closing|
    ensures prompt[|prompt| - |Closing|..] == Closing
  {
    Opening + (if keywords != "" then KeywordsLead + keywords + KeywordsEnd else OriginalStory) + Closing
  }

  /** The keywords a prompt asks for: the text between the keywords lead
      and the closing, if the prompt has that shape. */
  function KeywordsOfPrompt(prompt: string): Option<string> {
    var head := Opening + KeywordsLead;
    var tail := KeywordsEnd + Closing;
    if |prompt| >= |head| + |tail| && prompt[..|head|] == head && prompt[|prompt| - |tail|..] == tail then
      Some(prompt[|head|..|prompt| - |tail|])
    else
      None
  }

  /** The pieces of a three-part text can be cut back out of it. */
  lemma Framed(head: string, middle: string, tail: string)
    ensures (head + middle + tail)[..|head|] == head
    ensures (head + middle + tail)[|head| + |middle|..] == tail
    ensures (head + middle + tail)[|head|..|head| + |middle|] == middle
  {
    var p := head + middle + tail;
    assert p == head + (middle + tail);
  }

  /** The keywords can be read back from the prompt, and the prompt for
      no keywords is told apart from every prompt with keywords. */
  lemma PromptKeywordsRoundTrip(keywords: string)
    ensures KeywordsOfPrompt(BuildStoryPrompt(keywords)) == if keywords == "" then None else Some(keywords)
  {
    var p := BuildStoryPrompt(keywords);
    var head := Opening + KeywordsLead;
    var tail := KeywordsEnd + Closing;
    if keywords == "" {
      assert |p| == |Opening| + |OriginalStory| + |Closing|;
      assert |OriginalStory| < |KeywordsLead| + |KeywordsEnd|;
    } else {
      assert p == head + keywords + tail;
      Framed(head, keywords, tail);
    }
  }

  /** Different keyword texts give different prompts. */
  lemma PromptInjective(a: string, b: string)
    requires BuildStoryPrompt(a) == BuildStoryPrompt(b)
    ensures a == b
  {
    PromptKeywordsRoundTrip(a);
    PromptKeywordsRoundTrip(b);
  }

  /** `wordList.joinToString(", ")`. */
  function JoinWords(words: seq<string>): (r: string)
    ensures words == [] ==> r == ""
    ensures words != [] ==> words[0] <= r
  {
    JoinToString(words, ", ")
  }

  /** With non-blank words, the prompt takes the "original story" branch
      exactly when the word list is empty, and otherwise carries the
      joined words. */
  lemma PromptBranch(words: seq<string>)
    requires forall i :: 0 <= i < |words| ==> !IsBlank(words[i])
    ensures words == [] <==> BuildStoryPrompt(JoinWords(words)) == Opening + OriginalStory + Closing
    ensures words != [] ==> KeywordsOfPrompt(BuildStoryPrompt(JoinWords(words))) == Some(JoinWords(words))
  {
    JoinEmptyIffNoParts(words, ", ");
    PromptKeywordsRoundTrip(JoinWords(words));
    PromptKeywordsRoundTrip("");
  }

  /** The title the save button passes: never empty, so `saveStory` keeps
      it as it is. */
  function SaveTitle(words: seq<string>): (title: string)
    ensures title != "" && TitlePrefix <= title
    ensures forall now: Long, content, date, imagePrompt ::
      NewStory(now, title, content, date, imagePrompt).title == title
  {
    TitlePrefix + JoinWords(words)
  }

  /** The story text shown after an exception; a missing message renders
      as "null", as a Kotlin string template does. */
  function ErrorText(message: Option<string>): (r: string)
    ensures ErrorPrefix <= r
    ensures message.Some? ==> r[|ErrorPrefix|..] == message.value
    ensures message.None? ==> r[|ErrorPrefix|..] == "null"
  {
    ErrorPrefix + message.GetOr("null")
  }

  /** One answer of the generative model: its text (possibly missing), or
      an exception with its (possibly missing) message. */
  datatype Reply = Text(text: Option<string>) | Thrown(message: Option<string>)

  /** Where the generation coroutine is: not running, waiting for the
      story, or waiting for the image prompt. */
  datatype Stage = Ready | AwaitingStory | AwaitingImage

  /** The state variables of the `Tale` composable. `requests` is the log of
      prompts sent to the generative model. */
  class Tale {
    var inputText: string
    var wordList: seq<string>
    var generatedStory: string
    var imagePrompt: string
    var isLoading: bool
    var showSavedMessage: bool
    var stage: Stage
    var requests: seq<string>

    /** The busy flag is set exactly while the coroutine runs, and every
        word in the list is non-blank. */
    ghost predicate Valid()
      reads this
    {
      && (isLoading <==> !stage.Ready?)
      && forall i :: 0 <= i < |wordList| ==> !IsBlank(wordList[i])
    }

    constructor ()
      ensures Valid()
      ensures inputText == "" && wordList == [] && generatedStory == "" && imagePrompt == ""
      ensures !isLoading && !showSavedMessage && stage == Ready && requests == []
    {
      inputText, wordList, generatedStory, imagePrompt := "", [], "", "";
      isLoading, showSavedMessage, stage, requests := false, false, Ready, [];
    }

    /** The text field's `onValueChange`. */
    method OnInputChange(text: string)
      modifies this`inputText
      ensures inputText == text
    {
      inputText := text;
    }

    /** The field's clear icon, shown only while the input is not blank:
        empties the field and nothing else. */
    method OnClearInput()
      requires !IsBlank(inputText)
      modifies this`inputText
      ensures inputText == ""
    {
      OnInputChange("");
    }

    /** The add button: a non-blank input is trimmed onto the end of the
        list and the field is cleared; a blank input changes nothing. */
    method OnAddWord()
      requires Valid()
      modifies this`wordList, this`inputText
      ensures Valid()
      ensures IsBlank(old(inputText)) ==> wordList == old(wordList) && inputText == old(inputText)
      ensures !IsBlank(old(inputText)) ==> wordList == old(wordList) + [Trim(old(inputText))] && inputText == ""
    {
      if !IsBlank(inputText) {
        var word := Trim(inputText);
        TrimEmptyIffBlank(inputText);
        TrimIsInnerPart(inputText);
        assert !IsWhitespace(word[0]);
        wordList := wordList + [word];
        inputText := "";
      }
    }

    /** A chip's remove icon: `wordList - word` drops the first occurrence
        only. */
    method OnRemoveWord(word: string)
      requires Valid()
      modifies this`wordList
      ensures Valid()
      ensures wordList == Minus(old(wordList), word)
    {
      ghost var before := wordList;
      wordList := Minus(wordList, word);
      MinusCount(before, word);
      forall i | 0 <= i < |wordList| ensures !IsBlank(wordList[i]) {
        assert wordList[i] in multiset(wordList);
        assert wordList[i] in before;
      }
    }

    /** The generate button: ignored while a generation runs; otherwise
        sets the busy flag and sends the prompt built from the joined
        words. */
    method OnGenerateClick()
      requires Valid()
      modifies this`isLoading, this`stage, this`requests
      ensures Valid()
      ensures old(isLoading) ==> stage == old(stage) && requests == old(requests)
      ensures !old(isLoading) ==> stage == AwaitingStory && requests == old(requests) + [BuildStoryPrompt(JoinWords(wordList))]
      ensures isLoading
    {
      if !isLoading {
        isLoading := true;
        stage := AwaitingStory;
        var keywords := JoinWords(wordList);
        requests := requests + [BuildStoryPrompt(keywords)];
      }
    }

    /** The answer to the story prompt. A non-empty story leads to the
        image-prompt request; an empty one or an exception ends the
        generation, clearing the busy flag. */
    method OnStoryReply(reply: Reply)
      requires Valid() && stage == AwaitingStory
      modifies this`generatedStory, this`isLoading, this`stage, this`requests
      ensures Valid()
      ensures reply.Thrown? ==> generatedStory == ErrorText(reply.message) && stage == Ready && requests == old(requests)
      ensures reply.Text? ==> generatedStory == reply.text.GetOr("")
      ensures reply.Text? && generatedStory != "" ==>
        stage == AwaitingImage && requests == old(requests) + [generatedStory + ImageRequestSuffix]
      ensures reply.Text? && generatedStory == "" ==> stage == Ready && requests == old(requests)
    {
      match reply
      case Thrown(message) =>
        generatedStory := ErrorText(message);
        isLoading, stage := false, Ready;
      case Text(text) =>
        generatedStory := text.GetOr("");
        if generatedStory != "" {
          requests := requests + [generatedStory + ImageRequestSuffix];
          stage := AwaitingImage;
        } else {
          isLoading, stage := false, Ready;
        }
    }

    /** The answer to the image-prompt request; on every path the busy
        flag is cleared. An exception replaces the story with the error
        text. */
    method OnImageReply(reply: Reply)
      requires Valid() && stage == AwaitingImage
      modifies this`generatedStory, this`imagePrompt, this`isLoading, this`stage
      ensures Valid() && !isLoading && stage == Ready
      ensures reply.Thrown? ==> generatedStory == ErrorText(reply.message) && imagePrompt == old(imagePrompt)
      ensures reply.Text? ==> imagePrompt == reply.text.GetOr("") && generatedStory == old(generatedStory)
    {
      if reply.Thrown? {
        generatedStory := ErrorText(reply.message);
      } else {
        imagePrompt := reply.text.GetOr("");
      }
      isLoading, stage := false, Ready;
    }

    /** The save icon, shown only once a story was generated: stores the
        story under the title built from the words, then shows the
        confirmation. */
    method OnSave(manager: StoryManager, now: Long, currentDate: string)
      requires generatedStory != ""
      modifies manager, this`showSavedMessage
      ensures manager.Stories() ==
        old(manager.Stories()) + [SavedStory(now, SaveTitle(wordList), generatedStory, currentDate, imagePrompt)]
      ensures manager.prefs == old(manager.prefs)[SavedStoriesKey := manager.Stories()]
      ensures showSavedMessage
    {
      manager.SaveStory(SaveTitle(wordList), generatedStory, imagePrompt, now, currentDate);
      showSavedMessage := true;
    }

    /** The snackbar's button. */
    method OnDismissSavedMessage()
      modifies this`showSavedMessage
      ensures !showSavedMessage
    {
      showSavedMessage := false;
    }
  }
}
