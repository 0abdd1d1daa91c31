/**
 * The text-to-speech session of TTSManager.kt: the platform engine as a
 * recording collaborator, `TTSManager` with its settings, initialisation
 * callback, speaking flag and the paragraph-queued `speakStory`, and the
 * process-wide singleton held by the companion object.
 */
module Speech {
  import opened Wrappers
  import opened KotlinText
  import opened KotlinNumbers
  import opened KotlinCollections

  /** Speech rate and pitch are stored and forwarded, never computed with. */
  type Float = real

  datatype Locale = Locale(language: string, country: string)

  /** `Locale("tr", "TR")`, the manager's initial language. */
  const TurkishTurkey: Locale := Locale("tr", "TR")
  /** `Locale.US`, the substitute when Turkish is unavailable. */
  const US: Locale := Locale("en", "US")

  /** `TextToSpeech.SUCCESS`, the status of a successful initialisation. */
  const Success: int := 0

  /** `QUEUE_FLUSH` drops what is queued and playing; `QUEUE_ADD` appends. */
  datatype QueueMode = Flush | Add

  /** One submission to the engine: text, queue mode, utterance id. */
  datatype Utterance = Utterance(text: string, mode: QueueMode, utteranceId: string)

  /** The answers of `TextToSpeech.setLanguage`. */
  datatype LanguageResult =
    | LangAvailable | LangCountryAvailable | LangCountryVarAvailable
    | LangMissingData | LangNotSupported
  {
    /** `LANG_MISSING_DATA` or `LANG_NOT_SUPPORTED`: the language was not set. */
    predicate Rejected() {
      LangMissingData? || LangNotSupported?
    }
  }

  const SpeakUtteranceId: string := "ttsUtterance"
  const StoryUtterancePrefix: string := "storyUtterance"

  /** The platform `TextToSpeech` engine, reduced to what the manager can
      observe: its settings, the languages asked for, the log of submitted
      utterances, the number of `stop` calls and whether it was shut down.
      `support` fixes what `setLanguage` answers for each locale; a locale
      it does not list is not supported. */
  class Engine {
    const support: map<Locale, LanguageResult>
    var rate: Option<Float>
    var pitch: Option<Float>
    var language: Option<Locale>
    var languageRequests: seq<Locale>
    var submitted: seq<Utterance>
    var stops: nat
    var isShutDown: bool

    constructor (support: map<Locale, LanguageResult>)
      ensures this.support == support
      ensures rate == None && pitch == None && language == None
      ensures languageRequests == [] && submitted == [] && stops == 0 && !isShutDown
    {
      this.support := support;
      rate, pitch, language := None, None, None;
      languageRequests, submitted := [], [];
      stops, isShutDown := 0, false;
    }

    function Support(l: Locale): LanguageResult {
      if l in support then support[l] else LangNotSupported
    }

    method SetSpeechRate(value: Float)
      modifies this`rate
      ensures rate == Some(value)
    {
      rate := Some(value);
    }

    method SetPitch(value: Float)
      modifies this`pitch
      ensures pitch == Some(value)
    {
      pitch := Some(value);
    }

    method SetLanguage(l: Locale) returns (result: LanguageResult)
      modifies this`language, this`languageRequests
      ensures result == Support(l)
      ensures languageRequests == old(languageRequests) + [l]
      ensures language == if result.Rejected() then old(language) else Some(l)
    {
      result := Support(l);
      languageRequests := languageRequests + [l];
      if !result.Rejected() {
        language := Some(l);
      }
    }

    method Speak(text: string, mode: QueueMode, utteranceId: string)
      modifies this`submitted
      ensures submitted == old(submitted) + [Utterance(text, mode, utteranceId)]
    {
      submitted := submitted + [Utterance(text, mode, utteranceId)];
    }

    method Stop()
      modifies this`stops
      ensures stops == old(stops) + 1
    {
      stops := stops + 1;
    }

    method Shutdown()
      modifies this`isShutDown
      ensures isShutDown
    {
      isShutDown := true;
    }
  }

  /** Index of the first line feed of `s`, or `|s|` when there is none. */
  function LineBreak(s: string): (k: nat)
    ensures k <= |s|
    ensures k < |s| ==> s[k] == '\n'
    ensures forall i :: 0 <= i < k ==> s[i] != '\n'
  {
    if s == [] || s[0] == '\n' then 0 else 1 + LineBreak(s[1..])
  }

  /** `split("\n\n", "\n")`: at the earliest line feed, the two-character
      delimiter "\n\n" is tried first, so a blank line is one separator and
      a longer run of line feeds leaves empty pieces. */
  function SplitParagraphs(s: string): (pieces: seq<string>)
    ensures |pieces| >= 1
    decreases |s|
  {
    var k := LineBreak(s);
    if k == |s| then [s]
    else if k + 1 < |s| && s[k + 1] == '\n' then [s[..k]] + SplitParagraphs(s[k + 2..])
    else [s[..k]] + SplitParagraphs(s[k + 1..])
  }

  /** The pieces between successive line feeds: `split("\n")`. */
  function Lines(s: string): (lines: seq<string>)
    ensures |lines| >= 1
    decreases |s|
  {
    var k := LineBreak(s);
    if k == |s| then [s] else [s[..k]] + Lines(s[k + 1..])
  }

  /** `filter { it.isNotBlank() }`. */
  function NonBlank(pieces: seq<string>): (r: seq<string>)
    ensures forall i :: 0 <= i < |r| ==> !IsBlank(r[i])
  {
    if pieces == [] then []
    else if IsBlank(pieces[0]) then NonBlank(pieces[1..])
    else [pieces[0]] + NonBlank(pieces[1..])
  }

  /** The paragraphs `speakStory` reads out. */
  function Segments(text: string): (r: seq<string>)
    ensures forall i :: 0 <= i < |r| ==> !IsBlank(r[i])
  {
    NonBlank(SplitParagraphs(text))
  }

  lemma {:induction false} NonBlankConcat(a: seq<string>, b: seq<string>)
    ensures NonBlank(a + b) == NonBlank(a) + NonBlank(b)
  {
    if a != [] {
      assert (a + b)[1..] == a[1..] + b;
      NonBlankConcat(a[1..], b);
    } else {
      assert a + b == b;
    }
  }

  /** Filtering the pieces of `split("\n\n", "\n")` gives the same
      paragraphs as filtering the pieces between single line feeds: the
      extra empty piece a blank line would leave is blank. */
  lemma {:induction false} SplitParagraphsAgreesWithLines(s: string)
    ensures Segments(s) == NonBlank(Lines(s))
    decreases |s|
  {
    var k := LineBreak(s);
    if k < |s| {
      if k + 1 < |s| && s[k + 1] == '\n' {
        var rest := s[k + 1..];
        assert LineBreak(rest) == 0;
        assert rest[1..] == s[k + 2..];
        assert Lines(rest) == [""] + Lines(s[k + 2..]);
        SplitParagraphsAgreesWithLines(s[k + 2..]);
        NonBlankConcat([s[..k]], SplitParagraphs(s[k + 2..]));
        NonBlankConcat([s[..k]], Lines(rest));
        NonBlankConcat([""], Lines(s[k + 2..]));
      } else {
        SplitParagraphsAgreesWithLines(s[k + 1..]);
        NonBlankConcat([s[..k]], SplitParagraphs(s[k + 1..]));
        NonBlankConcat([s[..k]], Lines(s[k + 1..]));
      }
    }
  }

  /** The lines joined back with line feeds are the text itself. */
  lemma {:induction false} LinesJoinBack(s: string)
    ensures JoinToString(Lines(s), "\n") == s
    decreases |s|
  {
    var k := LineBreak(s);
    if k < |s| {
      LinesJoinBack(s[k + 1..]);
      assert Lines(s) == [s[..k]] + Lines(s[k + 1..]);
      assert JoinToString(Lines(s), "\n") == s[..k] + "\n" + JoinToString(Lines(s[k + 1..]), "\n");
      assert s == s[..k] + "\n" + s[k + 1..];
    }
  }

  /** No line contains a line feed. */
  lemma {:induction false} LinesHaveNoLineFeed(s: string, i: nat)
    requires i < |Lines(s)|
    ensures '\n' !in Lines(s)[i]
    decreases |s|
  {
    var k := LineBreak(s);
    if k < |s| && i > 0 {
      LinesHaveNoLineFeed(s[k + 1..], i - 1);
    }
  }

  /** The filter keeps the order of what it keeps. */
  lemma {:induction false} NonBlankIsSubsequence(pieces: seq<string>)
    ensures IsSubsequence(NonBlank(pieces), pieces)
  {
    if pieces != [] {
      NonBlankIsSubsequence(pieces[1..]);
      if !IsBlank(pieces[0]) {
        assert NonBlank(pieces)[1..] == NonBlank(pieces[1..]);
      }
    }
  }

  /** The filter keeps every non-blank piece as often as it occurs and
      drops every blank one. */
  lemma {:induction false} NonBlankCounts(pieces: seq<string>, x: string)
    ensures multiset(NonBlank(pieces))[x] == if IsBlank(x) then 0 else multiset(pieces)[x]
  {
    if pieces != [] {
      NonBlankCounts(pieces[1..], x);
      assert pieces == [pieces[0]] + pieces[1..];
    }
  }

  /** The segments are exactly the non-blank lines of the text, in text
      order: each is non-blank and free of line feeds, every non-blank line
      is one, and the lines they are taken from join back into the text. */
  lemma SegmentsAreLinesInOrder(text: string)
    ensures Segments(text) == NonBlank(Lines(text))
    ensures forall x :: multiset(Segments(text))[x] == if IsBlank(x) then 0 else multiset(Lines(text))[x]
    ensures IsSubsequence(Segments(text), Lines(text))
    ensures JoinToString(Lines(text), "\n") == text
    ensures forall i :: 0 <= i < |Segments(text)| ==> !IsBlank(Segments(text)[i]) && '\n' !in Segments(text)[i]
  {
    SplitParagraphsAgreesWithLines(text);
    forall x ensures multiset(Segments(text))[x] == if IsBlank(x) then 0 else multiset(Lines(text))[x] {
      NonBlankCounts(Lines(text), x);
    }
    NonBlankIsSubsequence(Lines(text));
    LinesJoinBack(text);
    forall i | 0 <= i < |Segments(text)| ensures '\n' !in Segments(text)[i] {
      SubsequenceElements(Segments(text), Lines(text), i);
      var j :| 0 <= j < |Lines(text)| && Lines(text)[j] == Segments(text)[i];
      LinesHaveNoLineFeed(text, j);
    }
  }

  /** Joined with line feeds, the parts are blank exactly when each is. */
  lemma {:induction false} JoinBlank(parts: seq<string>)
    requires parts != []
    ensures IsBlank(JoinToString(parts, "\n")) <==> forall i :: 0 <= i < |parts| ==> IsBlank(parts[i])
  {
    if |parts| > 1 {
      JoinBlank(parts[1..]);
      BlankConcat(parts[0], "\n");
      BlankConcat(parts[0] + "\n", JoinToString(parts[1..], "\n"));
      assert IsWhitespace('\n');
      if forall i :: 1 <= i < |parts| ==> IsBlank(parts[i]) {
        assert forall i :: 0 <= i < |parts[1..]| ==> IsBlank(parts[1..][i]) by {
          forall i | 0 <= i < |parts[1..]| ensures IsBlank(parts[1..][i]) { assert parts[1..][i] == parts[i + 1]; }
        }
      }
      if forall i :: 0 <= i < |parts[1..]| ==> IsBlank(parts[1..][i]) {
        forall i | 1 <= i < |parts| ensures IsBlank(parts[i]) { assert parts[i] == parts[1..][i - 1]; }
      }
    }
  }

  lemma {:induction false} NonBlankEmpty(pieces: seq<string>)
    ensures NonBlank(pieces) == [] <==> forall i :: 0 <= i < |pieces| ==> IsBlank(pieces[i])
  {
    if pieces != [] {
      NonBlankEmpty(pieces[1..]);
      if forall i :: 0 <= i < |pieces| ==> IsBlank(pieces[i]) {
        assert forall i :: 0 <= i < |pieces[1..]| ==> IsBlank(pieces[1..][i]) by {
          forall i | 0 <= i < |pieces[1..]| ensures IsBlank(pieces[1..][i]) { assert pieces[1..][i] == pieces[i + 1]; }
        }
      }
      if IsBlank(pieces[0]) && forall i :: 0 <= i < |pieces[1..]| ==> IsBlank(pieces[1..][i]) {
        forall i | 1 <= i < |pieces| ensures IsBlank(pieces[i]) { assert pieces[i] == pieces[1..][i - 1]; }
      }
    }
  }

  /** `speakStory` finds no paragraph exactly when the text is blank. */
  lemma NoSegmentsIffBlank(text: string)
    ensures Segments(text) == [] <==> IsBlank(text)
  {
    SplitParagraphsAgreesWithLines(text);
    LinesJoinBack(text);
    JoinBlank(Lines(text));
    NonBlankEmpty(Lines(text));
  }

  /** A blank line and a single line feed both separate paragraphs. */
  lemma SegmentsExample()
    ensures Segments("A\n\nB\nC") == ["A", "B", "C"]
  {
    var abc := "A\n\nB\nC";
    var bc := abc[3..];
    var c := bc[2..];
    assert LineBreak(c) == 1;
    assert LineBreak(bc) == 1 && LineBreak(abc) == 1;
    assert SplitParagraphs(c) == ["C"];
    assert SplitParagraphs(bc) == [bc[..1]] + SplitParagraphs(c);
    assert SplitParagraphs(abc) == [abc[..1]] + SplitParagraphs(bc);
    assert abc[..1] == "A" && bc[..1] == "B" && c == "C";
    assert !IsBlank("A") && !IsBlank("B") && !IsBlank("C");
  }

  /** Text made only of whitespace and line feeds leaves no paragraph. */
  lemma BlankTextExample()
    ensures Segments(" \n\n\t") == []
  {
    assert IsBlank(" \n\n\t");
    NoSegmentsIffBlank(" \n\n\t");
  }

  /** The submissions `speakStory` makes for its paragraphs. */
  function StoryUtterances(segments: seq<string>): (r: seq<Utterance>)
    ensures |r| == |segments|
    ensures forall i :: 0 <= i < |r| ==> r[i].text == segments[i]
  {
    seq(|segments|, i requires 0 <= i < |segments| =>
      Utterance(segments[i], if i == 0 then Flush else Add, StoryUtterancePrefix + NatToString(i)))
  }

  /** One submission per paragraph, in paragraph order; only the first
      flushes the queue, and the utterance ids "storyUtterance0",
      "storyUtterance1", ... are pairwise distinct. */
  lemma StoryUtterancesShape(segments: seq<string>)
    ensures |StoryUtterances(segments)| == |segments|
    ensures forall i :: 0 <= i < |segments| ==> StoryUtterances(segments)[i].text == segments[i]
    ensures forall i :: 0 <= i < |segments| ==> (StoryUtterances(segments)[i].mode == Flush <==> i == 0)
    ensures segments != [] ==> StoryUtterances(segments)[0].utteranceId == "storyUtterance0"
    ensures forall i, j :: 0 <= i < j < |segments| ==>
      StoryUtterances(segments)[i].utteranceId != StoryUtterances(segments)[j].utteranceId
  {
    var u := StoryUtterances(segments);
    forall i, j | 0 <= i < j < |segments| ensures u[i].utteranceId != u[j].utteranceId {
      if u[i].utteranceId == u[j].utteranceId {
        var p := |StoryUtterancePrefix|;
        assert NatToString(i) == u[i].utteranceId[p..];
        assert NatToString(j) == u[j].utteranceId[p..];
        DigitsOfNat(i);
        DigitsOfNat(j);
      }
    }
  }

  /** `TTSManager`: the session over one engine. The engine (`textToSpeech`)
      is created by the constructor and never replaced; `shutdown` releases
      it but leaves the reference in place. */
  class TTSManager {
    const engine: Engine
    var isInitialized: bool
    var isSpeaking: bool
    var speechRate: Float
    var pitch: Float
    var language: Locale

    /** The private constructor: defaults, and a new engine whose
        initialisation is still pending. */
    constructor (support: map<Locale, LanguageResult>)
      ensures fresh(engine) && engine.support == support
      ensures engine.rate == None && engine.pitch == None && engine.language == None
      ensures engine.languageRequests == [] && engine.submitted == [] && engine.stops == 0 && !engine.isShutDown
      ensures !isInitialized && !isSpeaking
      ensures speechRate == 1.0 && pitch == 1.0 && language == TurkishTurkey
    {
      engine := new Engine(support);
      isInitialized, isSpeaking := false, false;
      speechRate, pitch, language := 1.0, 1.0, TurkishTurkey;
    }

    /** The `speechRate` setter: stores the value and forwards it. */
    method SetSpeechRate(value: Float)
      modifies this`speechRate, engine`rate
      ensures speechRate == value && engine.rate == Some(value)
    {
      speechRate := value;
      engine.SetSpeechRate(value);
    }

    /** The `pitch` setter: stores the value and forwards it. */
    method SetPitch(value: Float)
      modifies this`pitch, engine`pitch
      ensures pitch == value && engine.pitch == Some(value)
    {
      pitch := value;
      engine.SetPitch(value);
    }

    /** `updateLanguage`: asks the engine for the locale; when the engine
        lacks it and its language is Turkish, asks once more for US English;
        any other language is not retried. */
    method UpdateLanguage(locale: Locale)
      modifies engine`language, engine`languageRequests
      ensures !engine.Support(locale).Rejected() ==>
        engine.languageRequests == old(engine.languageRequests) + [locale] && engine.language == Some(locale)
      ensures engine.Support(locale).Rejected() && locale.language == "tr" ==>
        && engine.languageRequests == old(engine.languageRequests) + [locale, US]
        && engine.language == (if engine.Support(US).Rejected() then old(engine.language) else Some(US))
      ensures engine.Support(locale).Rejected() && locale.language != "tr" ==>
        engine.languageRequests == old(engine.languageRequests) + [locale] && engine.language == old(engine.language)
    {
      var result := engine.SetLanguage(locale);
      if result.Rejected() {
        if locale.language == "tr" {
          var _ := engine.SetLanguage(US);
        }
      }
    }

    /** The `language` setter: stores the value and applies it. */
    method SetLanguage(value: Locale)
      modifies this`language, engine`language, engine`languageRequests
      ensures language == value
      ensures !engine.Support(value).Rejected() || value.language != "tr" ==>
        engine.languageRequests == old(engine.languageRequests) + [value]
      ensures engine.Support(value).Rejected() && value.language == "tr" ==>
        engine.languageRequests == old(engine.languageRequests) + [value, US]
      ensures !engine.Support(value).Rejected() ==> engine.language == Some(value)
      ensures engine.Support(value).Rejected() && value.language == "tr" && !engine.Support(US).Rejected() ==>
        engine.language == Some(US)
      ensures engine.Support(value).Rejected() && (value.language != "tr" || engine.Support(US).Rejected()) ==>
        engine.language == old(engine.language)
    {
      language := value;
      UpdateLanguage(value);
    }

    /** The initialisation callback: on success the manager becomes ready
        and re-applies its language, rate and pitch; on failure nothing
        changes and speaking stays disabled. */
    method OnInit(status: int)
      modifies this`isInitialized, engine`language, engine`languageRequests, engine`rate, engine`pitch
      ensures isInitialized == (old(isInitialized) || status == Success)
      ensures status == Success ==> engine.rate == Some(speechRate) && engine.pitch == Some(pitch)
      ensures status == Success && !engine.Support(language).Rejected() ==>
        engine.languageRequests == old(engine.languageRequests) + [language] && engine.language == Some(language)
      ensures status == Success && engine.Support(language).Rejected() && language.language == "tr" ==>
        && engine.languageRequests == old(engine.languageRequests) + [language, US]
        && engine.language == (if engine.Support(US).Rejected() then old(engine.language) else Some(US))
      ensures status == Success && engine.Support(language).Rejected() && language.language != "tr" ==>
        engine.languageRequests == old(engine.languageRequests) + [language] && engine.language == old(engine.language)
      ensures status != Success ==> engine.rate == old(engine.rate) && engine.pitch == old(engine.pitch)
      ensures status != Success ==> engine.language == old(engine.language)
      ensures status != Success ==> engine.languageRequests == old(engine.languageRequests)
    {
      if status == Success {
        isInitialized := true;
        UpdateLanguage(language);
        engine.SetSpeechRate(speechRate);
        engine.SetPitch(pitch);
      }
    }

    /** The progress listener's `onStart`; the listener is registered
        only by a successful initialisation. */
    method OnStart()
      requires isInitialized
      modifies this`isSpeaking
      ensures isSpeaking
    {
      isSpeaking := true;
    }

    /** The progress listener's `onDone`. */
    method OnDone()
      requires isInitialized
      modifies this`isSpeaking
      ensures !isSpeaking
    {
      isSpeaking := false;
    }

    /** The progress listener's `onError`. */
    method OnError()
      requires isInitialized
      modifies this`isSpeaking
      ensures !isSpeaking
    {
      isSpeaking := false;
    }

    /** `speak`: one submission with id "ttsUtterance", unless the manager
        is not ready or the text is empty. */
    method Speak(text: string, mode: QueueMode := Flush)
      modifies engine`submitted
      ensures !isInitialized || text == "" ==> engine.submitted == old(engine.submitted)
      ensures isInitialized && text != "" ==>
        engine.submitted == old(engine.submitted) + [Utterance(text, mode, SpeakUtteranceId)]
    {
      if !isInitialized || text == "" {
        return;
      }
      engine.Speak(text, mode, SpeakUtteranceId);
    }

    /** `speakStory`: the first paragraph replaces whatever is playing and
        the others are queued after it, in order. */
    method SpeakStory(text: string)
      modifies engine`submitted
      ensures !isInitialized || text == "" ==> engine.submitted == old(engine.submitted)
      ensures isInitialized && text != "" ==>
        engine.submitted == old(engine.submitted) + StoryUtterances(Segments(text))
    {
      if !isInitialized || text == "" {
        return;
      }
      var paragraphs := Segments(text);
      if |paragraphs| == 0 {
        return;
      }
      ghost var story := StoryUtterances(paragraphs);
      engine.Speak(paragraphs[0], Flush, StoryUtterancePrefix + "0");
      assert engine.submitted == old(engine.submitted) + story[..1];
      for i := 1 to |paragraphs|
        invariant engine.submitted == old(engine.submitted) + story[..i]
      {
        engine.Speak(paragraphs[i], Add, StoryUtterancePrefix + NatToString(i));
        assert story[..i + 1] == story[..i] + [story[i]];
      }
      assert story[..|paragraphs|] == story;
    }

    /** `stop`: silences the engine and clears the flag at once. */
    method Stop()
      modifies this`isSpeaking, engine`stops
      ensures !isSpeaking && engine.stops == old(engine.stops) + 1
    {
      engine.Stop();
      isSpeaking := false;
    }

    /** `shutdown`: stops and releases the engine, clears the flag, and
        empties the singleton slot, whichever manager it holds. */
    method Shutdown(registry: Registry)
      modifies this`isSpeaking, engine`stops, engine`isShutDown, registry`instance
      ensures !isSpeaking && engine.stops == old(engine.stops) + 1 && engine.isShutDown
      ensures registry.instance == null
    {
      engine.Stop();
      engine.Shutdown();
      isSpeaking := false;
      registry.instance := null;
    }
  }

  /** The companion object: the slot holding the process-wide manager. */
  class Registry {
    var instance: TTSManager?

    constructor ()
      ensures instance == null
    {
      instance := null;
    }

    /** `getInstance`: the manager in the slot, or else a new one with the
        defaults, which is then kept in the slot. */
    method GetInstance(support: map<Locale, LanguageResult>) returns (manager: TTSManager)
      modifies this`instance
      ensures instance == manager
      ensures old(instance) != null ==> manager == old(instance)
      ensures old(instance) == null ==>
        && fresh(manager) && fresh(manager.engine)
        && !manager.isInitialized && !manager.isSpeaking
        && manager.speechRate == 1.0 && manager.pitch == 1.0 && manager.language == TurkishTurkey
        && manager.engine.support == support
        && manager.engine.rate == None && manager.engine.pitch == None && manager.engine.language == None
        && manager.engine.languageRequests == [] && manager.engine.submitted == []
        && manager.engine.stops == 0 && !manager.engine.isShutDown
    {
      if instance != null {
        manager := instance;
      } else {
        manager := new TTSManager(support);
        instance := manager;
      }
    }
  }

  /** The singleton's life cycle: two requests share one manager; after
      `shutdown` the next request builds a new manager with the defaults. */
  method SingletonLifecycle(support: map<Locale, LanguageResult>) returns (first: TTSManager, second: TTSManager, third: TTSManager)
    ensures first == second && third != first
    ensures third.speechRate == 1.0 && third.pitch == 1.0 && third.language == TurkishTurkey
    ensures !third.isInitialized && !third.isSpeaking
  {
    var registry := new Registry();
    first := registry.GetInstance(support);
    second := registry.GetInstance(support);
    first.Shutdown(registry);
    third := registry.GetInstance(support);
  }

  /** After a failed initialisation neither `speak` nor `speakStory`
      submits anything. */
  method FailedInitStaysSilent(support: map<Locale, LanguageResult>, status: int, text: string) returns (submitted: seq<Utterance>)
    requires status != Success
    ensures submitted == []
  {
    var manager := new TTSManager(support);
    manager.OnInit(status);
    manager.Speak(text);
    manager.SpeakStory(text);
    submitted := manager.engine.submitted;
  }
}
