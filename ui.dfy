/**
 * The render-state controller: the loading indicator and the disabled
 * search button while a fetch is in flight, the list that a search
 * renders, and the detail view of one launch.
 *
 * The DOM is abstracted to what the controller touches: a container's
 * top-level children in document order (only the `loading` and `results`
 * markers are told apart from other content), and the disabled flags of a
 * form's buttons.
 */
module Ui {
  import opened Wrappers
  import opened Query
  import opened Api

  // ---------------------------------------------------------------------------
  // Rendered content

  /** An entry of the results list. */
  datatype Item =
    | ErrorNotice(query: string)       // the search failed
    | NoResultsNotice(query: string)   // the search found nothing
    | Caption(query: string)           // the heading span above the entries
    | Entry(href: string, name: string, statusName: string, mission: string)

  /** A child of the detail view, in the order the detail view shows them. */
  datatype Field =
    | Title(text: string)
    | WindowStart(text: string)
    | WindowEnd(text: string)
    | StatusName(text: string)
    | StatusDescription(text: string)
    | MissionName(text: string)
    | MissionDescription(text: string)
    | Image(src: string, alt: string)
    | BackLink

  /** A top-level child of a container. */
  datatype Node =
    | Loading                          // the `.loading` indicator
    | Results(items: seq<Item>)        // the `.results` list
    | Details(fields: seq<Field>)      // a detail view's `<main>`
    | Other                            // headings, the form, anything else

  predicate IsLoading(n: Node) { n.Loading? }

  predicate IsResults(n: Node) { n.Results? }

  predicate IsEntry(i: Item) { i.Entry? }

  /** A button's flag: true while it carries the `disabled` attribute. */
  predicate IsDisabled(b: bool) { b }

  // ---------------------------------------------------------------------------
  // Mutable elements

  /** An element whose children the controller appends and removes. */
  class Container {
    var children: seq<Node>

    constructor (children: seq<Node>)
      ensures this.children == children
    {
      this.children := children;
    }

    /** `appendChild` of a new node: it goes last. */
    method AppendChild(n: Node)
      modifies this
      ensures children == old(children) + [n]
    {
      children := children + [n];
    }

    /** `remove()` on the child at index `i`. */
    method RemoveChildAt(i: nat)
      requires i < |children|
      modifies this
      ensures children == old(children)[..i] + old(children)[i + 1..]
    {
      children := children[..i] + children[i + 1..];
    }
  }

  /** The search form, as far as its buttons go: each one's disabled flag, in document order. */
  class SearchForm {
    var buttons: seq<bool>

    constructor (buttons: seq<bool>)
      ensures this.buttons == buttons
    {
      this.buttons := buttons;
    }

    /** `setAttribute('disabled', 'true')` on button `i`. */
    method SetDisabled(i: nat)
      requires i < |buttons|
      modifies this
      ensures buttons == old(buttons)[i := true]
    {
      buttons := buttons[i := true];
    }

    /** `removeAttribute('disabled')` on button `i`. */
    method RemoveDisabled(i: nat)
      requires i < |buttons|
      modifies this
      ensures buttons == old(buttons)[i := false]
    {
      buttons := buttons[i := false];
    }
  }

  /** The element a search renders into: what matters is its first `<main>`, if any. */
  class Page {
    const main: Container?

    constructor (main: Container?)
      ensures this.main == main
    {
      this.main := main;
    }
  }

  // ---------------------------------------------------------------------------
  // Loading state

  /** The children after `setLoading`: an indicator is added at the end only if none is present. */
  function WithLoading(s: seq<Node>): seq<Node>
  {
    if First(s, IsLoading).Some? then s else s + [Loading]
  }

  /** The buttons after `setLoading`: the first one, if any, is disabled. */
  function DisableFirst(bs: seq<bool>): seq<bool>
  {
    if |bs| == 0 then bs else bs[0 := true]
  }

  /** The buttons after `setNotLoading`: the first disabled one, if any, is enabled. */
  function EnableFirstDisabled(bs: seq<bool>): seq<bool>
  {
    match First(bs, IsDisabled)
    case None => bs
    case Some(i) => bs[i := false]
  }

  method SetLoading(parent: Container, form: SearchForm?)
    modifies parent, form
    ensures parent.children == WithLoading(old(parent.children))
    ensures form != null ==> form.buttons == DisableFirst(old(form.buttons))
  {
    var loading := First(parent.children, IsLoading);
    if loading.None? {
      parent.AppendChild(Loading);
    }
    if form == null {
      return;
    }
    if |form.buttons| > 0 {
      form.SetDisabled(0);
    }
  }

  /** The form is dereferenced unconditionally, so a missing form is the caller's fault. */
  method SetNotLoading(parent: Container, form: SearchForm)
    modifies parent, form
    ensures parent.children == RemoveFirst(old(parent.children), IsLoading)
    ensures form.buttons == EnableFirstDisabled(old(form.buttons))
  {
    var loading := First(parent.children, IsLoading);
    RemoveFirstAt(parent.children, IsLoading);
    if loading.Some? {
      parent.RemoveChildAt(loading.value);
    }
    var disabled := First(form.buttons, IsDisabled);
    if disabled.Some? {
      form.RemoveDisabled(disabled.value);
    }
  }

  /** Entering the loading state twice in a row adds one indicator, not two. */
  lemma LoadingIsIdempotent(s: seq<Node>)
    ensures WithLoading(WithLoading(s)) == WithLoading(s)
  {
    if First(s, IsLoading).None? {
      assert IsLoading((s + [Loading])[|s|]);
    }
  }

  /** Entering the loading state leaves exactly one indicator if there was none, and adds none otherwise. */
  lemma LoadingCount(s: seq<Node>)
    ensures Count(WithLoading(s), IsLoading) == if Count(s, IsLoading) == 0 then 1 else Count(s, IsLoading)
    ensures Count(WithLoading(s), IsResults) == Count(s, IsResults)
  {
    CountZero(s, IsLoading);
    CountAppend(s, Loading, IsLoading);
    CountAppend(s, Loading, IsResults);
  }

  /** Leaving the loading state removes one indicator; with at most one present, none is left. */
  lemma NotLoadingCount(s: seq<Node>)
    ensures Count(RemoveFirst(s, IsLoading), IsLoading) == if Count(s, IsLoading) == 0 then 0 else Count(s, IsLoading) - 1
    ensures Count(RemoveFirst(s, IsLoading), IsResults) == Count(s, IsResults)
  {
    CountRemoveFirst(s, IsLoading);
    CountRemoveOther(s, IsLoading, IsResults);
  }

  /** Leaving the loading state undoes entering it. */
  lemma NotLoadingUndoesLoading(s: seq<Node>)
    ensures RemoveFirst(WithLoading(s), IsLoading) == RemoveFirst(s, IsLoading)
    ensures Count(s, IsLoading) == 0 ==> RemoveFirst(WithLoading(s), IsLoading) == s
  {
    var t := s + [Loading];
    RemoveFirstAt(s, IsLoading);
    CountZero(s, IsLoading);
    if First(s, IsLoading).None? {
      RemoveFirstAt(t, IsLoading);
      assert IsLoading(t[|s|]);
      assert First(t, IsLoading) == Some(|s|);
      assert t[..|s|] == s;
    }
  }

  /** After loading and settling, the first button is enabled again and the others are as they were. */
  lemma ButtonsSettle(bs: seq<bool>)
    ensures EnableFirstDisabled(DisableFirst(bs)) == if |bs| == 0 then bs else bs[0 := false]
  {
    if |bs| > 0 {
      assert IsDisabled(DisableFirst(bs)[0]);
    }
  }

  // ---------------------------------------------------------------------------
  // The results list

  /** The link of a result: `?id=` followed by the launch's id. */
  function EntryOf(r: LaunchSummary): Item
  {
    Entry("?id=" + r.id, r.name, r.status.name, r.mission)
  }

  /** The id a result's link points to, read back from the link. */
  function LinkedId(href: string): Option<string>
  {
    if |href| >= 4 && href[..4] == "?id=" then Some(href[4..]) else None
  }

  lemma EntryLinksToLaunch(r: LaunchSummary)
    ensures LinkedId(EntryOf(r).href) == Some(r.id)
    ensures EntryOf(r).name == r.name && EntryOf(r).statusName == r.status.name
  {
    assert ("?id=" + r.id)[..4] == "?id=";
    assert ("?id=" + r.id)[4..] == r.id;
  }

  /** One entry per result, in input order. */
  function Entries(rs: seq<LaunchSummary>): seq<Item>
    decreases |rs|
  {
    if |rs| == 0 then [] else [EntryOf(rs[0])] + Entries(rs[1..])
  }

  /** The items of the list a search renders for its outcome. */
  function ResultsList(results: Option<seq<LaunchSummary>>, query: string): seq<Item>
  {
    match results
    case None => [ErrorNotice(query)]
    case Some(rs) => if |rs| == 0 then [NoResultsNotice(query)] else [Caption(query)] + Entries(rs)
  }

  lemma {:induction false} EntriesAppend(rs: seq<LaunchSummary>, r: LaunchSummary)
    ensures Entries(rs + [r]) == Entries(rs) + [EntryOf(r)]
    decreases |rs|
  {
    if |rs| == 0 {
      assert rs + [r] == [r];
    } else {
      assert (rs + [r])[1..] == rs[1..] + [r];
      EntriesAppend(rs[1..], r);
    }
  }

  lemma {:induction false} EntriesAt(rs: seq<LaunchSummary>)
    ensures |Entries(rs)| == |rs|
    ensures forall i :: 0 <= i < |rs| ==> Entries(rs)[i] == EntryOf(rs[i])
    decreases |rs|
  {
    if |rs| > 0 {
      EntriesAt(rs[1..]);
      forall i | 0 < i < |rs|
        ensures Entries(rs)[i] == EntryOf(rs[i])
      {
        assert Entries(rs)[i] == Entries(rs[1..])[i - 1];
      }
    }
  }

  lemma {:induction false} EntriesCount(rs: seq<LaunchSummary>)
    ensures Count(Entries(rs), IsEntry) == |rs|
    decreases |rs|
  {
    if |rs| > 0 {
      EntriesCount(rs[1..]);
      assert ([EntryOf(rs[0])] + Entries(rs[1..]))[1..] == Entries(rs[1..]);
    }
  }

  /**
   * A failed search renders one error notice naming the query; an empty one
   * renders one "no results" notice naming the query; N results render a
   * caption naming the query and then N entries, entry i for result i.
   */
  lemma ResultsListShape(results: Option<seq<LaunchSummary>>, query: string)
    ensures results.None? ==> ResultsList(results, query) == [ErrorNotice(query)]
    ensures results == Some([]) ==> ResultsList(results, query) == [NoResultsNotice(query)]
    ensures results.Some? && |results.value| > 0 ==>
      var list := ResultsList(results, query);
      |list| == |results.value| + 1 && list[0] == Caption(query) &&
      forall i :: 0 <= i < |results.value| ==> list[i + 1] == EntryOf(results.value[i])
  {
    if results.Some? && |results.value| > 0 {
      EntriesAt(results.value);
    }
  }

  /** The list has exactly one entry per result, and none for a failed or empty search. */
  lemma ResultsListCount(results: Option<seq<LaunchSummary>>, query: string)
    ensures Count(ResultsList(results, query), IsEntry) == if results.Some? then |results.value| else 0
  {
    match results
    case None =>
    case Some(rs) =>
      if |rs| > 0 {
        EntriesCount(rs);
        assert ResultsList(results, query)[1..] == Entries(rs);
      }
  }

  /** Builds the list for a search outcome, one entry at a time. */
  method CreateSearchResults(results: Option<seq<LaunchSummary>>, query: string) returns (list: seq<Item>)
    ensures results.None? ==> list == [ErrorNotice(query)]
    ensures results == Some([]) ==> list == [NoResultsNotice(query)]
    ensures list == ResultsList(results, query)
  {
    list := [];
    if results.None? {
      list := list + [ErrorNotice(query)];
      return;
    }
    var rs := results.value;
    if |rs| == 0 {
      list := list + [NoResultsNotice(query)];
      return;
    }
    list := list + [Caption(query)];
    for i := 0 to |rs|
      invariant list == [Caption(query)] + Entries(rs[..i])
    {
      assert rs[..i + 1] == rs[..i] + [rs[i]];
      EntriesAppend(rs[..i], rs[i]);
      list := list + [EntryOf(rs[i])];
    }
    assert rs[..|rs|] == rs;
  }

  // ---------------------------------------------------------------------------
  // Search and render

  /**
   * The children of `<main>` after a search: the first old results block
   * removed, the loading state entered and left, the new list appended.
   */
  function AfterSearch(s: seq<Node>, items: seq<Item>): seq<Node>
  {
    RemoveFirst(WithLoading(RemoveFirst(s, IsResults)), IsLoading) + [Results(items)]
  }

  /**
   * With at most one results block and at most one indicator before, a
   * search ends with no indicator and exactly one results block, the last child.
   */
  lemma SearchSettles(s: seq<Node>, items: seq<Item>)
    requires Count(s, IsResults) <= 1 && Count(s, IsLoading) <= 1
    ensures var r := AfterSearch(s, items);
      Count(r, IsLoading) == 0 && Count(r, IsResults) == 1 && r[|r| - 1] == Results(items)
  {
    var t := RemoveFirst(s, IsResults);
    CountRemoveFirst(s, IsResults);
    CountRemoveOther(s, IsResults, IsLoading);
    LoadingCount(t);
    NotLoadingCount(WithLoading(t));
    var u := RemoveFirst(WithLoading(t), IsLoading);
    CountAppend(u, Results(items), IsLoading);
    CountAppend(u, Results(items), IsResults);
  }

  /** The search as a single settled run: `id` is accepted but never passed on. */
  method SearchAndRender(page: Page, form: SearchForm?, query: string, id: string, fetch: Request -> Raw<LaunchSummary>)
    requires page.main != null ==> form != null
    modifies page.main, form
    ensures page.main == null ==> form == null || form.buttons == old(form.buttons)
    ensures page.main != null ==>
      page.main.children == AfterSearch(old(page.main.children), ResultsList(SearchLaunches(query, fetch), query))
    ensures page.main != null ==>
      form.buttons == EnableFirstDisabled(DisableFirst(old(form.buttons)))
  {
    var main := page.main;
    if main == null {
      return;
    }
    var stale := First(main.children, IsResults);
    RemoveFirstAt(main.children, IsResults);
    if stale.Some? {
      main.RemoveChildAt(stale.value);
    }
    SetLoading(main, form);
    var results := SearchLaunches(query, fetch);
    SetNotLoading(main, form);
    var list := CreateSearchResults(results, query);
    main.AppendChild(Results(list));
  }

  // ---------------------------------------------------------------------------
  // Details

  /** How `renderDetails` settles: it appends the view, or it rejects with a TypeError. */
  datatype Settlement = Rendered | Rejected

  /** The children of the detail view for a found launch. */
  function DetailFields(d: LaunchDetail): seq<Field>
  {
    [ Title(d.name), WindowStart(d.windowStart), WindowEnd(d.windowEnd),
      StatusName(d.status.name), StatusDescription(d.status.description),
      MissionName(d.mission.name), MissionDescription(d.mission.description),
      Image(d.image, d.name), BackLink ]
  }

  /** The launch a detail view shows, read back from its children; the id is not shown. */
  function ShownLaunch(fields: seq<Field>, id: string): Option<LaunchDetail>
  {
    if |fields| == 9 && fields[0].Title? && fields[1].WindowStart? && fields[2].WindowEnd? &&
       fields[3].StatusName? && fields[4].StatusDescription? && fields[5].MissionName? &&
       fields[6].MissionDescription? && fields[7].Image? && fields[8].BackLink? &&
       fields[7].alt == fields[0].text
    then Some(LaunchDetail(id, fields[0].text, fields[1].text, fields[2].text,
                           Status(fields[3].text, fields[4].text),
                           Mission(fields[5].text, fields[6].text),
                           fields[7].src))
    else None
  }

  /** The detail view shows every part of the record, in a fixed order ending with the back link. */
  lemma DetailsShowWholeRecord(d: LaunchDetail)
    ensures ShownLaunch(DetailFields(d), d.id) == Some(d)
    ensures |DetailFields(d)| == 9 && DetailFields(d)[8] == BackLink
  {
  }

  /**
   * Shows one launch. The indicator appended at the start is removed again
   * once the fetch settles. With a record, the view is appended; with none,
   * the first `appendChild` receives `undefined` and throws, so nothing is appended.
   */
  method RenderDetails(parent: Container, id: string, fetch: Request -> Raw<LaunchDetail>) returns (outcome: Settlement)
    modifies parent
    ensures GetLaunch(id, fetch).Truthy() ==>
      outcome == Rendered &&
      parent.children == old(parent.children) + [Details(DetailFields(GetLaunch(id, fetch).value))]
    ensures !GetLaunch(id, fetch).Truthy() ==>
      outcome == Rejected && parent.children == old(parent.children)
  {
    var launchName: Option<Field> := None;
    var launchStart: Option<Field> := None;
    var launchEnd: Option<Field> := None;
    var statusName: Option<Field> := None;
    var statusDescription: Option<Field> := None;
    var missionName: Option<Field> := None;
    var missionDescription: Option<Field> := None;
    var launchImage: Option<Field> := None;

    parent.AppendChild(Loading);
    var result := GetLaunch(id, fetch);
    // Appending the indicator again moves it to the end, where it already is; then it goes.
    parent.RemoveChildAt(|parent.children| - 1);

    if result.Truthy() {
      var d := result.value;
      launchName := Some(Title(d.name));
      launchStart := Some(WindowStart(d.windowStart));
      launchEnd := Some(WindowEnd(d.windowEnd));
      statusName := Some(StatusName(d.status.name));
      statusDescription := Some(StatusDescription(d.status.description));
      missionName := Some(MissionName(d.mission.name));
      missionDescription := Some(MissionDescription(d.mission.description));
      launchImage := Some(Image(d.image, d.name));
    }
    // otherwise the "no data" error is thrown and caught, and the elements stay undefined

    if launchName.None? {
      // the first appendChild(undefined) throws
      return Rejected;
    }
    var container: seq<Field> := [];
    container := container + [launchName.value];
    container := container + [launchStart.value];
    container := container + [launchEnd.value];
    container := container + [statusName.value];
    container := container + [statusDescription.value];
    container := container + [missionName.value];
    container := container + [missionDescription.value];
    container := container + [launchImage.value];
    container := container + [BackLink];
    assert container == DetailFields(result.value);
    parent.AppendChild(Details(container));
    return Rendered;
  }
  // ---------------------------------------------------------------------------
  // Scenarios

  /** A search for "falcon" served one launch renders a caption and one entry linking to `?id=1`. */
  lemma FalconScenario()
    ensures var falcon := LaunchSummary("1", "Falcon Heavy", Status("Go", ""), "Test");
      ResultsList(SearchLaunches("falcon", (req: Request) => ServeSearch([falcon])), "falcon")
        == [Caption("falcon"), Entry("?id=1", "Falcon Heavy", "Go", "Test")]
  {
    var falcon := LaunchSummary("1", "Falcon Heavy", Status("Go", ""), "Test");
    assert "?id=" + "1" == "?id=1";
    assert Entries([falcon]) == [EntryOf(falcon)];
  }

  /** A search served an empty array renders the "no results" notice and no entry. */
  lemma NoMatchScenario()
    ensures var list := ResultsList(SearchLaunches("zzz-no-match", (req: Request) => ServeSearch([])), "zzz-no-match");
      list == [NoResultsNotice("zzz-no-match")] && Count(list, IsEntry) == 0
  {
  }

  /** A detail fetch whose network call throws finds no record, so no field is rendered. */
  lemma DetailNetworkErrorScenario()
    ensures GetLaunch("42", (req: Request) => NetworkError) == Null
    ensures !GetLaunch("42", (req: Request) => NetworkError).Truthy()
  {
  }
}
