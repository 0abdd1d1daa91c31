# AI Tale App: a Dafny model of its story store, speech session and screen logic

The app lets a child's story be generated from a few keywords, saved
locally, listed, opened, shared and read aloud. This project models the
four pieces of logic in it that can be stated precisely, and proves their
contracts:

- **Story store** (`Tales`, from `Tales.kt`). `StoryManager` keeps the
  list of `SavedStory` records under one key of a preference file.
  `saveStory` appends a new record. `deleteStory` removes every record
  with the given id. The module also holds the card preview, the
  newest-first order of the list screen and the share text.
- **Speech session** (`Speech`, from `TTSManager.kt`). `TTSManager` holds
  the rate, pitch and language, which it forwards to the engine. It has an
  initialisation callback, a speaking flag driven by the progress
  callbacks, `speak`, and the paragraph-queued `speakStory`. A `Registry`
  object stands for the companion object's singleton slot. The engine
  records what it is asked: settings, language requests, submitted
  utterances, stops and shutdown.
- **Generation screen** (`TaleScreen`, from `Tale.kt`). It covers the
  keyword list handlers, the busy flag around the two generative-model
  requests, `buildStoryPrompt`, and saving under the title
  `"Masal " + words`.
- **Detail route** (`Enter`, from `Enter.kt`). `createRoute` renders an id
  into `story_detail/<id>`. The route's entry reads the id back with
  `toLongOrNull` and looks the story up.

Support modules hold the Kotlin standard-library behaviour the app relies
on: `KotlinText` (`isWhitespace`, `isBlank`, `trim`, `joinToString`),
`KotlinNumbers` (`Long`, its decimal form, `toLongOrNull`) and
`KotlinCollections` (`reversed`, `minus`). `Wrappers` holds `Option`, which
stands for Kotlin's nullable types.

Modelling choices:

- The preference file is a map from key to the list of stories that the
  entry's JSON encodes. Gson's `toJson` and `fromJson` are taken to be
  inverse to each other, so the map holds the decoded list itself. A key
  that was never written reads as the decoding of `"[]"`, the empty list.
- The clock (`System.currentTimeMillis()`, the default id) and the
  formatted date are parameters of `SaveStory`.
- The engine support for each locale is a parameter of the engine. The
  status the initialisation callback receives is the argument of
  `TTSManager.OnInit`.
- The generative model's answers are parameters of the two reply handlers.
  They are called in the order the coroutine awaits them. The prompts sent
  are kept in a log.
- The async generation is a stage: not running, waiting for the story, or
  waiting for the image prompt. `isLoading` is set exactly while the stage
  is not "not running".

Four behaviours of the code are modelled as written:

- A late `onStart` after `stop` sets the speaking flag again: the code has
  no guard against a late `onStart`.
- The locale fallback applies only to Turkish: a rejected `tr` locale is
  retried once as `Locale.US`. Any other rejected locale is not retried.
- A stored entry that is present but malformed makes `getStories` throw.
  The model cannot represent such an entry, so it defines no fallback for
  it.
- `shutdown` does not drop the manager's engine reference. The manager
  keeps its `isInitialized` flag and its released engine. It also empties
  the singleton slot whichever manager the slot holds.

## Model

| member | source | states |
|---|---|---|
| Tales.NewStory | app/src/main/java/com/haruncinar/myapplication/Tales.kt:67-74 | the saved record has the clock reading as id and the formatted date; content and image prompt are kept verbatim; the title is the given one when non-empty, else "Masal " + date, so it is never empty |
| Tales.WithoutId | app/src/main/java/com/haruncinar/myapplication/Tales.kt:89-91 | after `removeAll { it.id == id }` no record has the id, and the list is no longer |
| Tales.WithoutIdKeepsOrder | app/src/main/java/com/haruncinar/myapplication/Tales.kt:89-91 | the surviving records are a subsequence of the original list: their relative order is kept |
| Tales.WithoutIdCounts | app/src/main/java/com/haruncinar/myapplication/Tales.kt:90 | every record with another id survives as many times as it occurred; records with the id are gone |
| Tales.WithoutAbsentId | app/src/main/java/com/haruncinar/myapplication/Tales.kt:90 | deleting an id no record has leaves the list unchanged |
| Tales.WithoutIdUnique | app/src/main/java/com/haruncinar/myapplication/Tales.kt:88-93 | for a list with distinct ids, deleting the id of record k removes exactly that record, and the ids stay distinct |
| Tales.NewestShownFirst | app/src/main/java/com/haruncinar/myapplication/Tales.kt:110 | the list screen shows the story saved last at the top, followed by the earlier ones newest first |
| Tales.Preview | app/src/main/java/com/haruncinar/myapplication/Tales.kt:207-208 | content of up to 100 characters is shown whole; longer content shows its first 100 characters and "...", so the preview never exceeds 103 |
| Tales.ShareText | app/src/main/java/com/haruncinar/myapplication/Tales.kt:268 | the share payload is the title, a blank line ("\n\n"), then the content |
| Tales.StoryManager.constructor | app/src/main/java/com/haruncinar/myapplication/Tales.kt:62-65 | the manager works on the given preference file |
| Tales.StoryManager.Stories | app/src/main/java/com/haruncinar/myapplication/Tales.kt:82-86 | the list the store holds: the entry under "saved_stories", or the empty list that the default "[]" decodes to |
| Tales.StoryManager.GetStories | app/src/main/java/com/haruncinar/myapplication/Tales.kt:82-86 | returns the stored list, or the empty list (the default "[]") when the key was never written |
| Tales.StoryManager.SaveStoriesToPrefs | app/src/main/java/com/haruncinar/myapplication/Tales.kt:95-99 | overwrites the entry, leaves every other key alone, and a following read returns exactly the list written |
| Tales.StoryManager.SaveStory | app/src/main/java/com/haruncinar/myapplication/Tales.kt:67-80 | the stored list becomes the old list with the new record appended: one longer, earlier records unchanged and in order, new record last |
| Tales.StoryManager.DeleteStory | app/src/main/java/com/haruncinar/myapplication/Tales.kt:88-93 | the stored list becomes the old list without the records with the story's id |
| Tales.SavedStoriesScreen.constructor | app/src/main/java/com/haruncinar/myapplication/Tales.kt:107 | the screen starts with an empty list |
| Tales.SavedStoriesScreen.Load | app/src/main/java/com/haruncinar/myapplication/Tales.kt:109-111 | the screen shows the stored list reversed |
| Tales.SavedStoriesScreen.OnDelete | app/src/main/java/com/haruncinar/myapplication/Tales.kt:113-116 | deletes the story's id from the store, leaves every other preference key alone, and shows the new stored list reversed |
| KotlinCollections.Reversed | app/src/main/java/com/haruncinar/myapplication/Tales.kt:110 | `reversed()` keeps the length |
| KotlinCollections.ReversedAt | app/src/main/java/com/haruncinar/myapplication/Tales.kt:115 | position k of the reversed list holds the element k places from the end |
| KotlinCollections.ReversedTwice | app/src/main/java/com/haruncinar/myapplication/Tales.kt:110 | reversing twice gives the list back, so the screen order loses nothing |
| KotlinCollections.Minus | app/src/main/java/com/haruncinar/myapplication/Tale.kt:72 | removing an absent word leaves the list unchanged |
| KotlinCollections.MinusCount | app/src/main/java/com/haruncinar/myapplication/Tale.kt:72 | removing a present word shortens the list by one and takes away exactly one copy of it |
| KotlinCollections.MinusCutsFirst | app/src/main/java/com/haruncinar/myapplication/Tale.kt:72 | the copy removed is the first occurrence; all other words keep their places and order |
| KotlinCollections.SubsequenceElements | app/src/main/java/com/haruncinar/myapplication/TTSManager.kt:129 | everything a filter keeps was in the original list |
| KotlinText.TrimStart | app/src/main/java/com/haruncinar/myapplication/Tale.kt:62 | drops a blank prefix; what is left starts with a non-whitespace character |
| KotlinText.TrimEnd | app/src/main/java/com/haruncinar/myapplication/Tale.kt:62 | drops a blank suffix; what is left ends with a non-whitespace character |
| KotlinText.Trim | app/src/main/java/com/haruncinar/myapplication/Tale.kt:62 | `trim()` is no longer than its input and, when non-empty, neither starts nor ends with whitespace |
| KotlinText.TrimIsInnerPart | app/src/main/java/com/haruncinar/myapplication/Tale.kt:62 | `trim()` returns a contiguous piece of the input with only whitespace around it and no whitespace at its ends |
| KotlinText.TrimEmptyIffBlank | app/src/main/java/com/haruncinar/myapplication/Tale.kt:61-62 | trimming gives "" exactly when the input is blank, so a non-blank input adds a non-empty word |
| KotlinText.BlankConcat | app/src/main/java/com/haruncinar/myapplication/TTSManager.kt:129 | a concatenation is blank exactly when both parts are |
| KotlinText.JoinToString | app/src/main/java/com/haruncinar/myapplication/Tale.kt:84 | `joinToString(sep)` is "" for no parts, starts with the first part, and is as long as all parts plus one separator per gap |
| KotlinText.JoinEmptyIffNoParts | app/src/main/java/com/haruncinar/myapplication/Tale.kt:84 | when no word is empty, `joinToString(", ")` is "" exactly when the list is empty |
| KotlinNumbers.NatToString | app/src/main/java/com/haruncinar/myapplication/Enter.kt:40 | the decimal form is a non-empty run of digits without a leading zero |
| KotlinNumbers.LongToString | app/src/main/java/com/haruncinar/myapplication/Enter.kt:40 | `Long.toString()` is non-empty, starts with '-' exactly for negative ids, and is otherwise all decimal digits |
| KotlinNumbers.ToLongOrNull | app/src/main/java/com/haruncinar/myapplication/Enter.kt:68 | only an optional sign followed by decimal digits parses, and without '-' the value is not negative |
| KotlinNumbers.DigitsOfNat | app/src/main/java/com/haruncinar/myapplication/Enter.kt:40 | reading back the digits of n gives n |
| KotlinNumbers.ParseOfPrint | app/src/main/java/com/haruncinar/myapplication/Enter.kt:68 | `toLongOrNull` gives back every `Long` from its `toString`, negatives and the extremes included |
| KotlinNumbers.PrintInjective | app/src/main/java/com/haruncinar/myapplication/Enter.kt:40 | distinct ids render to distinct decimal forms |
| Speech.TTSManager.constructor | app/src/main/java/com/haruncinar/myapplication/TTSManager.kt:16-46 | a new manager has a new engine, is not initialised and not speaking, with rate 1.0, pitch 1.0 and locale tr-TR |
| Speech.TTSManager.SetSpeechRate | app/src/main/java/com/haruncinar/myapplication/TTSManager.kt:26-30 | the rate setter stores the value and forwards it to the engine |
| Speech.TTSManager.SetPitch | app/src/main/java/com/haruncinar/myapplication/TTSManager.kt:32-36 | the pitch setter stores the value and forwards it to the engine |
| Speech.TTSManager.SetLanguage | app/src/main/java/com/haruncinar/myapplication/TTSManager.kt:38-42 | the language setter stores the locale and asks the engine for it; only a rejected `tr` locale is followed by one more request, for `Locale.US`; the engine then speaks the locale, or US English when that fallback is accepted, or keeps its language otherwise |
| Speech.TTSManager.UpdateLanguage | app/src/main/java/com/haruncinar/myapplication/TTSManager.kt:82-101 | an accepted locale is set; when the engine reports missing data or no support, a `tr` locale is retried once as `Locale.US`, and any other language is not retried |
| Speech.TTSManager.OnInit | app/src/main/java/com/haruncinar/myapplication/TTSManager.kt:48-80 | on success the manager is initialised, applies rate and pitch, and asks for its language exactly as `updateLanguage` does: an accepted locale is set; a rejected `tr` locale is followed by one request for `Locale.US`, which the engine then speaks if it supports it; any other rejected locale leaves the engine language unchanged; on failure `isInitialized` and every engine setting stay as they were |
| Speech.TTSManager.OnStart | app/src/main/java/com/haruncinar/myapplication/TTSManager.kt:60-62 | once the listener is registered by a successful initialisation, an utterance start sets the speaking flag, whatever came before |
| Speech.TTSManager.OnDone | app/src/main/java/com/haruncinar/myapplication/TTSManager.kt:64-66 | once the listener is registered, an utterance end clears the speaking flag |
| Speech.TTSManager.OnError | app/src/main/java/com/haruncinar/myapplication/TTSManager.kt:68-72 | once the listener is registered, an utterance error clears the speaking flag |
| Speech.TTSManager.Speak | app/src/main/java/com/haruncinar/myapplication/TTSManager.kt:108-117 | no submission when not initialised or the text is empty; otherwise exactly one, in the given mode (FLUSH by default) with id "ttsUtterance" |
| Speech.TTSManager.SpeakStory | app/src/main/java/com/haruncinar/myapplication/TTSManager.kt:123-142 | no submission when not initialised or the text is empty; otherwise one submission per paragraph in order: paragraph 0 with FLUSH and id "storyUtterance0", paragraph i with ADD and id "storyUtterance"+i |
| Speech.TTSManager.Stop | app/src/main/java/com/haruncinar/myapplication/TTSManager.kt:147-150 | stops the engine and clears the speaking flag at once |
| Speech.TTSManager.Shutdown | app/src/main/java/com/haruncinar/myapplication/TTSManager.kt:155-160 | stops and shuts down the engine, clears the speaking flag and empties the singleton slot |
| Speech.Registry.constructor | app/src/main/java/com/haruncinar/myapplication/TTSManager.kt:163 | the singleton slot starts empty |
| Speech.Registry.GetInstance | app/src/main/java/com/haruncinar/myapplication/TTSManager.kt:168-172 | returns the manager in the slot; when the slot is empty, builds a new manager with the defaults over a new engine that has been asked nothing yet and keeps it there |
| Speech.SingletonLifecycle | app/src/main/java/com/haruncinar/myapplication/TTSManager.kt:159-172 | two requests return the same manager; after `shutdown` the next request returns a different manager with the defaults |
| Speech.FailedInitStaysSilent | app/src/main/java/com/haruncinar/myapplication/TTSManager.kt:74-78 | after a failed initialisation `speak` and `speakStory` submit nothing |
| Speech.LineBreak | app/src/main/java/com/haruncinar/myapplication/TTSManager.kt:129 | finds the first line feed, or the end of the text when there is none |
| Speech.SplitParagraphs | app/src/main/java/com/haruncinar/myapplication/TTSManager.kt:129 | `split("\n\n", "\n")` yields at least one piece |
| Speech.Lines | app/src/main/java/com/haruncinar/myapplication/TTSManager.kt:129 | the pieces between successive line feeds, at least one; `LinesJoinBack` and `LinesHaveNoLineFeed` pin their contents |
| Speech.Segments | app/src/main/java/com/haruncinar/myapplication/TTSManager.kt:129 | the paragraphs `speakStory` reads out, `split("\n\n", "\n").filter { it.isNotBlank() }`, are all non-blank |
| Speech.NonBlank | app/src/main/java/com/haruncinar/myapplication/TTSManager.kt:129 | `filter { it.isNotBlank() }` keeps only non-blank pieces |
| Speech.NonBlankCounts | app/src/main/java/com/haruncinar/myapplication/TTSManager.kt:129 | the filter keeps each non-blank piece as often as it occurs and drops every blank one |
| Speech.NonBlankConcat | app/src/main/java/com/haruncinar/myapplication/TTSManager.kt:129 | filtering distributes over concatenation |
| Speech.SplitParagraphsAgreesWithLines | app/src/main/java/com/haruncinar/myapplication/TTSManager.kt:129 | after filtering, splitting on "\n\n" or "\n" gives the same paragraphs as splitting at every line feed |
| Speech.LinesJoinBack | app/src/main/java/com/haruncinar/myapplication/TTSManager.kt:129 | the lines joined with line feeds are the text itself |
| Speech.LinesHaveNoLineFeed | app/src/main/java/com/haruncinar/myapplication/TTSManager.kt:129 | no line holds a line feed |
| Speech.NonBlankIsSubsequence | app/src/main/java/com/haruncinar/myapplication/TTSManager.kt:129 | the filter keeps the order of what it keeps |
| Speech.SegmentsAreLinesInOrder | app/src/main/java/com/haruncinar/myapplication/TTSManager.kt:129 | the paragraphs are exactly the non-blank lines of the text: equal to filtering the lines, every non-blank line kept as often as it occurs, in text order, each with no line feed, and the lines join back into the text |
| Speech.JoinBlank | app/src/main/java/com/haruncinar/myapplication/TTSManager.kt:129 | lines joined with line feeds are blank exactly when every line is |
| Speech.NonBlankEmpty | app/src/main/java/com/haruncinar/myapplication/TTSManager.kt:129-130 | the filter keeps nothing exactly when every piece is blank |
| Speech.NoSegmentsIffBlank | app/src/main/java/com/haruncinar/myapplication/TTSManager.kt:124-130 | `speakStory` finds no paragraph exactly when the text is blank, so a blank text makes no submission |
| Speech.SegmentsExample | app/src/main/java/com/haruncinar/myapplication/TTSManager.kt:129 | "A\n\nB\nC" gives the paragraphs "A", "B", "C" |
| Speech.BlankTextExample | app/src/main/java/com/haruncinar/myapplication/TTSManager.kt:129-130 | a text of spaces, line feeds and tabs gives no paragraph |
| Speech.StoryUtterances | app/src/main/java/com/haruncinar/myapplication/TTSManager.kt:136-141 | the submissions for the paragraphs: one per paragraph, carrying that paragraph's text, in paragraph order |
| Speech.StoryUtterancesShape | app/src/main/java/com/haruncinar/myapplication/TTSManager.kt:136-141 | one submission per paragraph with its text; only the first flushes; the first id is "storyUtterance0" and the ids are pairwise distinct |
| TaleScreen.PromptKeywordsRoundTrip | app/src/main/java/com/haruncinar/myapplication/Tale.kt:285-294 | the prompt is the opening sentence, then `"Şu kelimeleri … dahil et: " + k + ". "` for non-empty k (which can be read back) or "Özgün bir masal oluştur. " for empty k, then the closing sentences |
| TaleScreen.PromptInjective | app/src/main/java/com/haruncinar/myapplication/Tale.kt:285-294 | different keyword texts give different prompts |
| TaleScreen.PromptBranch | app/src/main/java/com/haruncinar/myapplication/Tale.kt:84-85 | with non-blank words, the prompt takes the "original story" branch exactly when the word list is empty, and otherwise carries the words joined with ", " |
| TaleScreen.BuildStoryPrompt | app/src/main/java/com/haruncinar/myapplication/Tale.kt:285-294 | the prompt starts with the opening sentence, ends with the two closing sentences, and its length is that of the keywords sentence (for non-empty keywords) or the "original story" sentence between them |
| TaleScreen.JoinWords | app/src/main/java/com/haruncinar/myapplication/Tale.kt:84 | `wordList.joinToString(", ")` is "" for no words and otherwise starts with the first word |
| TaleScreen.SaveTitle | app/src/main/java/com/haruncinar/myapplication/Tale.kt:115 | the save title starts with "Masal " and is never empty, so `saveStory` keeps it as its title |
| TaleScreen.ErrorText | app/src/main/java/com/haruncinar/myapplication/Tale.kt:97 | the error story is "Bir hata oluştu: " followed by the exception's message, or by "null" when it has none |
| TaleScreen.Tale.constructor | app/src/main/java/com/haruncinar/myapplication/Tale.kt:30-35 | the screen starts with empty input, words, story and image prompt, not loading |
| TaleScreen.Tale.OnInputChange | app/src/main/java/com/haruncinar/myapplication/Tale.kt:59 | the input field holds the typed text |
| TaleScreen.Tale.OnClearInput | app/src/main/java/com/haruncinar/myapplication/Tale.kt:155-158 | offered only while the input is not blank, the clear icon empties the field |
| TaleScreen.Tale.OnAddWord | app/src/main/java/com/haruncinar/myapplication/Tale.kt:60-65 | a non-blank input is trimmed onto the end of the word list and the input is cleared; a blank input changes nothing; all words stay non-blank |
| TaleScreen.Tale.OnRemoveWord | app/src/main/java/com/haruncinar/myapplication/Tale.kt:72 | the word list loses the first occurrence of the word only |
| TaleScreen.Tale.OnGenerateClick | app/src/main/java/com/haruncinar/myapplication/Tale.kt:80-85 | while loading the click does nothing; otherwise it sets the busy flag and sends the prompt built from the joined words |
| TaleScreen.Tale.OnStoryReply | app/src/main/java/com/haruncinar/myapplication/Tale.kt:86-99 | the story is the reply text or ""; the image prompt is requested only for a non-empty story; an exception sets the story to "Bir hata oluştu: " + message; an empty story or an exception clears the busy flag |
| TaleScreen.Tale.OnImageReply | app/src/main/java/com/haruncinar/myapplication/Tale.kt:90-99 | the image prompt is the reply text or ""; an exception replaces the story with the error text; the busy flag is cleared on every path |
| TaleScreen.Tale.OnSave | app/src/main/java/com/haruncinar/myapplication/Tale.kt:108-119 | offered only once a story was generated, the save adds one record with title "Masal " + joined words, the generated story and the image prompt, leaves every other preference key alone, and shows the confirmation |
| TaleScreen.Tale.OnDismissSavedMessage | app/src/main/java/com/haruncinar/myapplication/Tale.kt:133 | the confirmation is hidden |
| Enter.CreateRoute | app/src/main/java/com/haruncinar/myapplication/Enter.kt:39-40 | the route is the registered template "story_detail/{storyId}" with the decimal id in place of its `{storyId}` slot |
| Enter.FindStory | app/src/main/java/com/haruncinar/myapplication/Enter.kt:69 | a found story is stored and has the id; nothing is found for a missing id or when no story has it |
| Enter.FindFirst | app/src/main/java/com/haruncinar/myapplication/Enter.kt:69 | `find` returns the first stored story with the id |
| Enter.DetailStory | app/src/main/java/com/haruncinar/myapplication/Enter.kt:67-70 | no detail screen when the argument is missing or not a `Long`; a shown story is stored and has the parsed id; for a parsed id nothing is shown exactly when no stored story has it |
| Enter.RouteRoundTrip | app/src/main/java/com/haruncinar/myapplication/Enter.kt:68 | the argument of `createRoute(id)` is the decimal id, and `toLongOrNull` turns it back into id |
| Enter.OpenStory | app/src/main/java/com/haruncinar/myapplication/Enter.kt:67-70 | with distinct stored ids, the route of a stored story leads to that story |
| Enter.OpenFromList | app/src/main/java/com/haruncinar/myapplication/Enter.kt:61-70 | opening card k of the newest-first list shows that same story, given distinct stored ids |

## Left out

- Compose UI: layout, cards, sliders, dialogs, the snackbar, gradients and theming. Four UI gates are kept: the generate button's `isLoading` check, the save icon shown only for a non-empty story, the clear icon shown only for a non-blank input, and the progress listener installed only by a successful initialisation.
- The detail screen's calls into `TTSManager` (Tales.kt:302-306, 322-328, 365-369) are not modelled: the play/pause toggle (`stop()` while speaking, otherwise `speakStory(content)`), the `stop()` when the screen is disposed, and the settings dialog that calls the rate and pitch setters only on confirm. The `TTSManager` operations they call are modelled on their own.
- `MainActivity.kt`: it only wires the activity to the navigation graph.
- Navigation library mechanics (`NavHost`, `navigate`, `navigateUp`). `Enter.StoryIdArgument` stands for the library's template match. It takes the non-empty, slash-free text after "story_detail/" and does no URI decoding.
- Gson: encoding and decoding are taken to round-trip. A present but malformed entry (an uncaught exception in `getStories`) cannot be represented.
- The preference file's name "stories" and the date format "dd/MM/yyyy HH:mm": the file is the manager's one map, and the formatted date is a parameter.
- `SharedPreferences.apply()` is asynchronous, and two saves or deletes can race. Each call is modelled as atomic.
- Android engine internals, audio and every Toast (init failure, unsupported language, utterance error, share failure).
- `@Volatile` and `synchronized` in `getInstance`: the singleton is modelled sequentially.
- The case where the init callback fires before `textToSpeech` is assigned. The engine is taken to exist from the constructor on.
- Speech.TTSManager.OnStart: it sets the flag even after `stop`. No guard against a late callback is modelled, because the code has none.
- Speech rate and pitch are opaque stored values (`real`), not 32-bit floats. Slider ranges are UI.
- `speak`'s queue mode is an integer in the code. The model allows only its two constants, FLUSH and ADD.
- The `Bundle` of parameters passed with each utterance. It repeats the utterance id ("storyUtterance" for every paragraph) and is not modelled.
- The generative model calls and the share intent launch are foreign I/O. Only the strings built around them are modelled. The `onGenerateStory` and `onGenerateImagePrompt` callbacks are omitted, because their only call site passes empty lambdas.
- TaleScreen.Tale.OnGenerateClick: the words are read when the button is clicked. In the code the coroutine reads them when it starts, just after the click.
- Locale: `Locale.language` is taken as given. Java's lower-casing of language codes is not modelled.
- Strings are sequences of Unicode scalar values, not UTF-16 code units. A character outside the Basic Multilingual Plane counts once in the 100-character preview, where Kotlin counts two.
- KotlinNumbers.ToLongOrNull: only ASCII digits are accepted. Kotlin also accepts other Unicode decimal digits.
