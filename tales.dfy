/**
 * The story store of Tales.kt: the `SavedStory` record, `StoryManager`,
 * which keeps the whole list of stories as one preference entry, and the
 * pure rules of the list and detail screens (card preview, newest-first
 * order, share text).
 *
 * The preference file is a map from key to the list of stories that the
 * entry's JSON text encodes: Gson's `toJson` and `fromJson` are taken to be
 * inverse to each other, so the map holds the decoded list itself.
 */
module Tales {
  import opened KotlinNumbers
  import opened KotlinCollections

  const SavedStoriesKey: string := "saved_stories"
  /** The decoding of the default entry "[]". */
  const DefaultStories: seq<SavedStory> := []
  const MaxPreviewLength: nat := 100

  datatype SavedStory = SavedStory(id: Long, title: string, content: string, date: string, imagePrompt: string)

  /** The record `saveStory` builds, given the clock reading `now` (the
      default id) and the formatted current date. */
  function NewStory(now: Long, title: string, content: string, currentDate: string, imagePrompt: string): (r: SavedStory)
    ensures r.id == now && r.date == currentDate
    ensures r.content == content && r.imagePrompt == imagePrompt
    ensures title != "" ==> r.title == title
    ensures title == "" ==> r.title == "Masal " + currentDate
    ensures r.title != ""
  {
    SavedStory(now, if title == "" then "Masal " + currentDate else title, content, currentDate, imagePrompt)
  }

  /** What `removeAll { it.id == id }` leaves of `s`. */
  function WithoutId(s: seq<SavedStory>, id: Long): (r: seq<SavedStory>)
    ensures |r| <= |s|
    ensures forall i :: 0 <= i < |r| ==> r[i].id != id
  {
    if s == [] then []
    else if s[0].id == id then WithoutId(s[1..], id)
    else [s[0]] + WithoutId(s[1..], id)
  }

  /** Deleting keeps the surviving records in their original relative order. */
  lemma {:induction false} WithoutIdKeepsOrder(s: seq<SavedStory>, id: Long)
    ensures IsSubsequence(WithoutId(s, id), s)
  {
    if s != [] {
      WithoutIdKeepsOrder(s[1..], id);
      if s[0].id != id {
        assert WithoutId(s, id)[1..] == WithoutId(s[1..], id);
      }
    }
  }

  /** Deleting keeps every record whose id differs, as many times as it
      occurred, and drops every record with the id. */
  lemma {:induction false} WithoutIdCounts(s: seq<SavedStory>, id: Long, x: SavedStory)
    ensures x.id != id ==> multiset(WithoutId(s, id))[x] == multiset(s)[x]
    ensures x.id == id ==> multiset(WithoutId(s, id))[x] == 0
  {
    if s != [] {
      WithoutIdCounts(s[1..], id, x);
      assert s == [s[0]] + s[1..];
    }
  }

  /** Deleting an id that no record has changes nothing. */
  lemma {:induction false} WithoutAbsentId(s: seq<SavedStory>, id: Long)
    requires forall i :: 0 <= i < |s| ==> s[i].id != id
    ensures WithoutId(s, id) == s
  {
    if s != [] {
      WithoutAbsentId(s[1..], id);
    }
  }

  /** The records' ids are pairwise distinct. */
  predicate UniqueIds(s: seq<SavedStory>) {
    forall i, j :: 0 <= i < j < |s| ==> s[i].id != s[j].id
  }

  /** Deleting keeps the ids distinct, and deleting the id of a record of a
      list with distinct ids removes exactly that one record. */
  lemma {:induction false} WithoutIdUnique(s: seq<SavedStory>, k: nat)
    requires UniqueIds(s) && k < |s|
    ensures UniqueIds(WithoutId(s, s[k].id))
    ensures WithoutId(s, s[k].id) == s[..k] + s[k + 1..]
  {
    var id := s[k].id;
    assert UniqueIds(s[1..]);
    if k == 0 {
      WithoutAbsentId(s[1..], id);
    } else {
      WithoutIdUnique(s[1..], k - 1);
      assert s[1..][k - 1] == s[k];
      assert s[..k] + s[k + 1..] == [s[0]] + (s[1..][..k - 1] + s[1..][k..]);
    }
  }

  /** The last story saved is the first one the list screen shows. */
  lemma NewestShownFirst(s: seq<SavedStory>, x: SavedStory)
    ensures Reversed(s + [x]) == [x] + Reversed(s)
  {
    assert (s + [x])[..|s|] == s;
  }

  /** The card preview: the first 100 characters of the content, followed
      by "..." when the content is longer. */
  function Preview(content: string): (r: string)
    ensures |content| <= MaxPreviewLength ==> r == content
    ensures |content| > MaxPreviewLength ==> |r| == MaxPreviewLength + 3 && r == content[..MaxPreviewLength] + "..."
    ensures |r| <= MaxPreviewLength + 3
  {
    var shown := if |content| <= MaxPreviewLength then content else content[..MaxPreviewLength];
    shown + if |content| > MaxPreviewLength then "..." else ""
  }

  /** The text handed to the share target: the title, a blank line, the
      content. */
  function ShareText(story: SavedStory): (r: string)
    ensures |r| == |story.title| + 2 + |story.content|
    ensures r[..|story.title|] == story.title
    ensures r[|story.title|..|story.title| + 2] == "\n\n"
    ensures r[|story.title| + 2..] == story.content
  {
    story.title + "\n\n" + story.content
  }

  /** `StoryManager`: the story list stored under one key of the "stories"
      preference file. */
  class StoryManager {
    var prefs: map<string, seq<SavedStory>>

    constructor (prefs: map<string, seq<SavedStory>>)
      ensures this.prefs == prefs
    {
      this.prefs := prefs;
    }

    /** The list `getStories` reads: the stored entry, or the decoding of
        the default "[]" when the key was never written. */
    function Stories(): (stories: seq<SavedStory>)
      reads this
      ensures SavedStoriesKey !in prefs ==> stories == []
      ensures SavedStoriesKey in prefs ==> stories == prefs[SavedStoriesKey]
    {
      if SavedStoriesKey in prefs then prefs[SavedStoriesKey] else DefaultStories
    }

    method GetStories() returns (stories: seq<SavedStory>)
      ensures stories == Stories()
      ensures SavedStoriesKey !in prefs ==> stories == []
      ensures SavedStoriesKey in prefs ==> stories == prefs[SavedStoriesKey]
    {
      stories := Stories();
    }

    /** `saveStoriesToPrefs`: overwrites the entry; every other key keeps
        its value. */
    method SaveStoriesToPrefs(stories: seq<SavedStory>)
      modifies this
      ensures prefs == old(prefs)[SavedStoriesKey := stories]
      ensures Stories() == stories
    {
      prefs := prefs[SavedStoriesKey := stories];
    }

    /** `saveStory`: appends one new record to the whole stored list. */
    method SaveStory(title: string, content: string, imagePrompt: string, now: Long, currentDate: string)
      modifies this
      ensures Stories() == old(Stories()) + [NewStory(now, title, content, currentDate, imagePrompt)]
      ensures prefs == old(prefs)[SavedStoriesKey := Stories()]
    {
      var story := NewStory(now, title, content, currentDate, imagePrompt);
      var stories := GetStories();
      stories := stories + [story];
      SaveStoriesToPrefs(stories);
    }

    /** `deleteStory`: removes every record with the story's id. */
    method DeleteStory(story: SavedStory)
      modifies this
      ensures Stories() == WithoutId(old(Stories()), story.id)
      ensures prefs == old(prefs)[SavedStoriesKey := Stories()]
    {
      var stories := GetStories();
      stories := WithoutId(stories, story.id);
      SaveStoriesToPrefs(stories);
    }
  }

  /** The state of `SavedStoriesScreen`: the list it shows. */
  class SavedStoriesScreen {
    var stories: seq<SavedStory>

    constructor ()
      ensures stories == []
    {
      stories := [];
    }

    /** The launch effect: shows the stored list, newest first. */
    method Load(manager: StoryManager)
      modifies this
      ensures stories == Reversed(manager.Stories())
    {
      var stored := manager.GetStories();
      stories := Reversed(stored);
    }

    /** The delete button of a card: deletes the story and reloads. */
    method OnDelete(manager: StoryManager, story: SavedStory)
      modifies this, manager
      ensures manager.Stories() == WithoutId(old(manager.Stories()), story.id)
      ensures manager.prefs == old(manager.prefs)[SavedStoriesKey := manager.Stories()]
      ensures stories == Reversed(manager.Stories())
    {
      manager.DeleteStory(story);
      var stored := manager.GetStories();
      stories := Reversed(stored);
    }
  }
}
