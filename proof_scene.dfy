/** The Proof scene's project selection: the list for the active track, the
    selected card, the grid placement of each card and the scroll-hint rule. */
module ProofScene {
  import opened Wrappers
  import opened Tracks
  import opened Projects

  const BASE_CLASS: string := "md:col-span-2"
  /** How far the page must overflow the viewport before the hint shows, in px. */
  const OVERFLOW_MARGIN: int := 10

  /** The list shown for a track: LOGIC gets its own table, anything else the DESIGN one. */
  function ProjectsFor(track: Track): (ps: seq<Project>)
    ensures |ps| == 5 && DistinctIds(ps)
    ensures track == LOGIC ==> ps == LogicProjects()
    ensures track != LOGIC ==> ps == DesignProjects()
  {
    if track == LOGIC then LogicProjects() else DesignProjects()
  }

  /** `ps.find(p => p.id === selected)`: the first project whose id equals the
      selection, or None; a null selection matches nothing. */
  function Find(ps: seq<Project>, selected: Option<string>): (r: Option<Project>)
    ensures r.None? <==> forall i :: 0 <= i < |ps| ==> Some(ps[i].id) != selected
    ensures r.Some? ==> exists i :: 0 <= i < |ps| && ps[i] == r.value &&
                          Some(r.value.id) == selected &&
                          forall j :: 0 <= j < i ==> Some(ps[j].id) != selected
  {
    if |ps| == 0 then None
    else if Some(ps[0].id) == selected then Some(ps[0])
    else
      var r := Find(ps[1..], selected);
      if r.Some? then
        var i :| 0 <= i < |ps[1..]| && ps[1..][i] == r.value && Some(r.value.id) == selected &&
                 forall j :: 0 <= j < i ==> Some(ps[1..][j].id) != selected;
        assert ps[i + 1] == r.value;
        r
      else
        r
  }

  /** In a list with distinct ids, selecting the id of the card at `k` finds that card. */
  lemma {:induction false} FindByOwnId(ps: seq<Project>, k: int)
    requires DistinctIds(ps) && 0 <= k < |ps|
    ensures Find(ps, Some(ps[k].id)) == Some(ps[k])
  {
    var r := Find(ps, Some(ps[k].id));
    assert r.Some?;
    var i :| 0 <= i < |ps| && ps[i] == r.value && Some(r.value.id) == Some(ps[k].id);
    assert i == k;
  }

  /** A selection made on one track finds nothing on the other: a track switch
      shows the placeholder. */
  lemma SelectionDoesNotCrossTracks(track: Track, k: int)
    requires 0 <= k < 5
    ensures Find(ProjectsFor(if track == LOGIC then DESIGN else LOGIC), Some(ProjectsFor(track)[k].id)) == None
  {
    TablesDisjoint();
  }

  /** The grid classes of the card at `index`: the base span always, plus a
      start column that centres the bottom pair. */
  function GridClass(index: int): (c: string)
    ensures |c| >= |BASE_CLASS| && c[..|BASE_CLASS|] == BASE_CLASS
    ensures index == 3 ==> c[|BASE_CLASS|..] == " md:col-start-2"
    ensures index == 4 ==> c[|BASE_CLASS|..] == " md:col-start-4 lg:col-start-4"
    ensures index != 3 && index != 4 ==> c == BASE_CLASS
  {
    BASE_CLASS
      + (if index == 3 then " md:col-start-2" else "")
      + (if index == 4 then " md:col-start-4 lg:col-start-4" else "")
  }

  /** The scroll-hint rule: the page overflows the viewport by more than 10 px. */
  function ShowsScrollHint(scrollHeight: int, innerHeight: int): (show: bool)
    ensures show <==> scrollHeight - innerHeight > OVERFLOW_MARGIN
  {
    scrollHeight > innerHeight + OVERFLOW_MARGIN
  }

  /** Whether a card is drawn as selected under the current selection. */
  predicate IsCardSelected(project: Project, selected: Option<string>)
  {
    selected == Some(project.id)
  }

  /** With distinct ids, selecting the card at `k` marks that card and no other. */
  lemma ExactlyClickedCardSelected(ps: seq<Project>, k: int)
    requires DistinctIds(ps) && 0 <= k < |ps|
    ensures forall j :: 0 <= j < |ps| ==> (IsCardSelected(ps[j], Some(ps[k].id)) <==> j == k)
  {
    forall j | 0 <= j < |ps| && j != k
      ensures !IsCardSelected(ps[j], Some(ps[k].id))
    {
      if j < k { assert ps[j].id != ps[k].id; } else { assert ps[k].id != ps[j].id; }
    }
  }

  /** JavaScript truthiness of the selection: null and "" are falsy. */
  predicate Truthy(selected: Option<string>)
  {
    selected.Some? && selected.value != ""
  }

  /** The scene's own state cells and the scrolls its effect starts. */
  class Selection {
    var selectedProjectId: Option<string>
    var showScrollHint: bool
    /** The selections for which the auto-scroll to the case study was started, in order. */
    var autoScrolls: seq<string>

    constructor ()
      ensures selectedProjectId == None && !showScrollHint && autoScrolls == []
    {
      selectedProjectId := None;
      showScrollHint := false;
      autoScrolls := [];
    }

    /** The project shown in the case-study area for `track`, or None for the placeholder. */
    function SelectedProject(track: Track): (p: Option<Project>)
      reads this
      ensures p.Some? ==> p.value in ProjectsFor(track) && selectedProjectId == Some(p.value.id)
      ensures p.None? <==> selectedProjectId.None? || !HasId(ProjectsFor(track), selectedProjectId.value)
    {
      Find(ProjectsFor(track), selectedProjectId)
    }

    /** A card click selects its id; the auto-scroll effect runs only when the
        selection value changed and is truthy. */
    method CardClick(id: string)
      modifies this
      ensures selectedProjectId == Some(id) && showScrollHint == old(showScrollHint)
      ensures autoScrolls == old(autoScrolls) +
                (if old(selectedProjectId) != Some(id) && id != "" then [id] else [])
    {
      var changed := selectedProjectId != Some(id);
      selectedProjectId := Some(id);
      if changed && Truthy(selectedProjectId) {
        autoScrolls := autoScrolls + [id];
      }
    }

    /** The case study's close action: back to the placeholder, no scroll. */
    method Close()
      modifies this
      ensures selectedProjectId == None
      ensures showScrollHint == old(showScrollHint) && autoScrolls == old(autoScrolls)
    {
      selectedProjectId := None;
    }

    /** `checkScroll` with the document and viewport heights it reads. */
    method CheckScroll(scrollHeight: int, innerHeight: int)
      modifies this`showScrollHint
      ensures showScrollHint == ShowsScrollHint(scrollHeight, innerHeight)
    {
      if scrollHeight > innerHeight + OVERFLOW_MARGIN {
        showScrollHint := true;
      } else {
        showScrollHint := false;
      }
    }
  }

  /** Clicking the card at `k` on `track` shows that very project, marks only it
      as selected, and switching tracks afterwards shows the placeholder. */
  method ClickThenSwitchScenario(track: Track, k: int) returns (shown: Option<Project>, afterSwitch: Option<Project>)
    requires 0 <= k < 5
    ensures shown == Some(ProjectsFor(track)[k])
    ensures afterSwitch == None
  {
    var sel := new Selection();
    sel.CardClick(ProjectsFor(track)[k].id);
    FindByOwnId(ProjectsFor(track), k);
    shown := sel.SelectedProject(track);
    SelectionDoesNotCrossTracks(track, k);
    afterSwitch := sel.SelectedProject(if track == LOGIC then DESIGN else LOGIC);
  }
}
