/**
 * The detail route of Enter.kt: `Screen.StoryDetail.createRoute` renders a
 * story id into the route, and the navigation entry for the route template
 * parses the id back with `toLongOrNull` and looks the story up in the
 * stored list.
 */
module Enter {
  import opened Wrappers
  import opened KotlinNumbers
  import opened KotlinCollections
  import opened Tales

  const StoryDetailPrefix: string := "story_detail/"
  /** The template the navigation graph registers for the detail screen. */
  const StoryDetailTemplate: string := StoryDetailPrefix + "{storyId}"

  /** `createRoute(storyId)`: the template with the decimal id in the
      `{storyId}` slot. */
  function CreateRoute(storyId: Long): (route: string)
    ensures StoryDetailPrefix <= route
    ensures route[|StoryDetailPrefix|..] == LongToString(storyId)
    ensures route == StoryDetailTemplate[..|StoryDetailPrefix|] + LongToString(storyId)
    ensures StoryDetailTemplate[|StoryDetailPrefix|..] == "{storyId}"
  {
    StoryDetailPrefix + LongToString(storyId)
  }

  /** The `storyId` argument of a route that matches the template: the
      non-empty text after the prefix, which may not hold a '/'. Any other
      route does not match and carries no argument. */
  function StoryIdArgument(route: string): Option<string> {
    if StoryDetailPrefix <= route && |route| > |StoryDetailPrefix| && '/' !in route[|StoryDetailPrefix|..] then
      Some(route[|StoryDetailPrefix|..])
    else
      None
  }

  /** `stories.find { it.id == storyId }`: the first story with the id; a
      missing id matches nothing. */
  function FindStory(stories: seq<SavedStory>, storyId: Option<Long>): (r: Option<SavedStory>)
    ensures storyId.None? ==> r.None?
    ensures r.None? && storyId.Some? ==> forall i :: 0 <= i < |stories| ==> stories[i].id != storyId.value
    ensures r.Some? ==> storyId.Some? && r.value in stories && r.value.id == storyId.value
  {
    if stories == [] || storyId.None? then None
    else if stories[0].id == storyId.value then Some(stories[0])
    else FindStory(stories[1..], storyId)
  }

  /** `find` picks the earliest story with the id. */
  lemma {:induction false} FindFirst(stories: seq<SavedStory>, id: Long, k: nat)
    requires k < |stories| && stories[k].id == id
    requires forall j :: 0 <= j < k ==> stories[j].id != id
    ensures FindStory(stories, Some(id)) == Some(stories[k])
  {
    if k > 0 {
      FindFirst(stories[1..], id, k - 1);
    }
  }

  /** The story the detail entry shows for a route argument, if any: none
      when the argument is missing, is not a `Long`, or names no stored
      story. */
  function DetailStory(argument: Option<string>, stories: seq<SavedStory>): (r: Option<SavedStory>)
    ensures argument.None? ==> r.None?
    ensures argument.Some? && ToLongOrNull(argument.value).None? ==> r.None?
    ensures r.Some? ==> argument.Some? && ToLongOrNull(argument.value) == Some(r.value.id) && r.value in stories
    ensures r.None? && argument.Some? && ToLongOrNull(argument.value).Some? ==>
      forall i :: 0 <= i < |stories| ==> stories[i].id != ToLongOrNull(argument.value).value
  {
    var storyId := if argument.Some? then ToLongOrNull(argument.value) else None;
    FindStory(stories, storyId)
  }

  /** The argument of `createRoute(id)` is the decimal form of `id`, and
      `toLongOrNull` turns it back into `id`. */
  lemma RouteRoundTrip(id: Long)
    ensures StoryIdArgument(CreateRoute(id)) == Some(LongToString(id))
    ensures ToLongOrNull(LongToString(id)) == Some(id)
  {
    ParseOfPrint(id);
  }

  /** With distinct ids, the route of a stored story leads back to it. */
  lemma OpenStory(stored: seq<SavedStory>, x: SavedStory)
    requires UniqueIds(stored) && x in stored
    ensures DetailStory(StoryIdArgument(CreateRoute(x.id)), stored) == Some(x)
  {
    var n :| 0 <= n < |stored| && stored[n] == x;
    RouteRoundTrip(x.id);
    FindFirst(stored, x.id, n);
  }

  /** Opening a story from the list screen, which shows the stored list
      newest first, leads to the detail screen of that very story, provided
      the stored ids are distinct. */
  lemma OpenFromList(stored: seq<SavedStory>, k: nat)
    requires UniqueIds(stored) && k < |stored|
    ensures DetailStory(StoryIdArgument(CreateRoute(Reversed(stored)[k].id)), stored) == Some(Reversed(stored)[k])
  {
    ReversedAt(stored, k);
    assert Reversed(stored)[k] == stored[|stored| - 1 - k];
    OpenStory(stored, Reversed(stored)[k]);
  }
}
