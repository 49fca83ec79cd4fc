/**
 * The interaction state of the home page: which experience card is expanded,
 * the shared experience-title font size, the message box and its send guard,
 * and the project filter. Rendering is not modelled; the outbound request of
 * the send is split into the part before the `await` and the part after it,
 * so that the in-flight state can be observed.
 */
module HomePage {
  import opened Wrappers
  import opened JsString
  import MessageRoute

  /** Largest experience-title font size, restored on every window resize. */
  const MaxExperienceTitleSize: int := 30

  datatype Category = Software | Mechanical | Both

  /** The value of the `projectFilter` state: "all", "software" or "mechanical". */
  datatype Filter = All | SoftwareOnly | MechanicalOnly

  /** The two filter buttons above the project gallery. */
  datatype FilterButton = SoftwareButton | MechanicalButton

  /** A gallery entry; image, alt text and aspect ratio only affect rendering. */
  datatype Project = Project(category: Category, title: string, caption: string, href: Option<string>)

  /** The project list the page renders, in page order. */
  const Projects: seq<Project> := [
    Project(Mechanical, "Anthropomorphic Robot Hand", "realistic robot hand controlled by OpenCV", None),
    Project(Both, "Smart Home Sensor System", "esp32 sensor network connected to a pi", None),
    Project(Both, "VEX Robotics", "competition robot design and programming", None),
    Project(Mechanical, "Card Dealer", "automated card dealing robot", None),
    Project(Software, "WaterlooWash", "laundry tracking mobile app", None),
    Project(Software, "WATonomous ASD Assignment", "watch video",
      Some("https://www.youtube.com/watch?v=mIYiKe8uu4Q")),
    Project(Software, "Valorant Fantasy", "'fantasy football' style app for VCT", None),
    Project(Software, "Personal Portfolio", "this website", None),
    Project(Software, "Molehunt", "custom minecraft minigame datapack", None)
  ]

  /** `p.category === projectFilter`: the category and the filter carry the same name. */
  predicate SameName(c: Category, f: Filter) {
    (c == Software && f == SoftwareOnly) || (c == Mechanical && f == MechanicalOnly)
  }

  /** The gallery's filter predicate. */
  predicate Shown(f: Filter, p: Project) {
    f == All || SameName(p.category, f) || p.category == Both
  }

  /** `projects.filter(...)`: the shown projects, in their original order. */
  function FilterProjects(projects: seq<Project>, f: Filter): seq<Project> {
    if projects == [] then []
    else (if Shown(f, projects[0]) then [projects[0]] else []) + FilterProjects(projects[1..], f)
  }

  /** `r` can be obtained from `s` by deleting elements, keeping the order of the rest. */
  ghost predicate IsSubsequence<T>(r: seq<T>, s: seq<T>)
    decreases |s|
  {
    if s == [] then r == []
    else IsSubsequence(r, s[1..]) || (r != [] && r[0] == s[0] && IsSubsequence(r[1..], s[1..]))
  }

  /** The filtered list is an order-preserving subsequence of the project list. */
  lemma {:induction false} FilterIsSubsequence(projects: seq<Project>, f: Filter)
    ensures IsSubsequence(FilterProjects(projects, f), projects)
  {
    if projects != [] {
      FilterIsSubsequence(projects[1..], f);
      var rest := FilterProjects(projects[1..], f);
      if Shown(f, projects[0]) {
        assert FilterProjects(projects, f) == [projects[0]] + rest;
        assert ([projects[0]] + rest)[1..] == rest;
      } else {
        assert FilterProjects(projects, f) == rest;
      }
    }
  }

  /** A project is in the filtered list exactly when it is in the list and the filter shows it. */
  lemma {:induction false} FilterMembership(projects: seq<Project>, f: Filter, p: Project)
    ensures p in FilterProjects(projects, f) <==> p in projects && Shown(f, p)
  {
    if projects != [] {
      FilterMembership(projects[1..], f, p);
      assert projects == [projects[0]] + projects[1..];
    }
  }

  /** Every occurrence of a shown project is kept, and none of a hidden one. */
  lemma {:induction false} FilterKeepsEveryOccurrence(projects: seq<Project>, f: Filter, p: Project)
    ensures multiset(FilterProjects(projects, f))[p] == if Shown(f, p) then multiset(projects)[p] else 0
  {
    if projects != [] {
      FilterKeepsEveryOccurrence(projects[1..], f, p);
      assert projects == [projects[0]] + projects[1..];
      assert multiset(projects) == multiset([projects[0]]) + multiset(projects[1..]);
      var head := if Shown(f, projects[0]) then [projects[0]] else [];
      assert multiset(FilterProjects(projects, f)) == multiset(head) + multiset(FilterProjects(projects[1..], f));
    }
  }

  /** With filter "all", every project is kept, in order. */
  lemma {:induction false} FilterAllKeepsEverything(projects: seq<Project>)
    ensures FilterProjects(projects, All) == projects
  {
    if projects != [] {
      FilterAllKeepsEverything(projects[1..]);
    }
  }

  /** A project of category "both" is shown under every filter. */
  lemma {:induction false} BothAlwaysShown(projects: seq<Project>, f: Filter, p: Project)
    requires p in projects && p.category == Both
    ensures p in FilterProjects(projects, f)
  {
    FilterMembership(projects, f, p);
  }

  /** The filter a button selects. */
  function Selects(b: FilterButton): Filter {
    match b
    case SoftwareButton => SoftwareOnly
    case MechanicalButton => MechanicalOnly
  }

  /** A button press: back to "all" if its filter is on, otherwise its filter. */
  function Toggled(current: Filter, b: FilterButton): (next: Filter)
    ensures next != current
    ensures next == All || next == Selects(b)
  {
    if current == Selects(b) then All else Selects(b)
  }

  /** Pressing one button twice restores the filter exactly when that filter or "all" was on. */
  lemma ToggleTwice(current: Filter, b: FilterButton)
    ensures Toggled(Toggled(current, b), b) == current <==> current == All || current == Selects(b)
    ensures current != Selects(b) ==> Toggled(Toggled(current, b), b) == All
  {
  }

  /** A tap on card `id`: collapse it if it is the expanded one, otherwise expand it. */
  function Clicked(prev: Option<string>, id: string): (next: Option<string>)
    ensures next != prev
    ensures next == None || next == Some(id)
  {
    if prev == Some(id) then None else Some(id)
  }

  /** Two taps on one card restore the state exactly when nothing or that card was expanded. */
  lemma ClickTwice(prev: Option<string>, id: string)
    ensures Clicked(Clicked(prev, id), id) == prev <==> prev == None || prev == Some(id)
  {
  }

  /** A tap on a card other than the expanded one (or with none expanded) expands the tapped card. */
  lemma ClickOtherCard(prev: Option<string>, id: string)
    requires prev != Some(id)
    ensures Clicked(prev, id) == Some(id)
  {
  }

  /** A tap on the expanded card collapses it. */
  lemma ClickSameCard(id: string)
    ensures Clicked(Some(id), id) == None
  {
  }

  /**
   * The project list holds nine entries: two spanning both categories, two
   * mechanical and five software, and only the WATonomous entry links out.
   */
  lemma ProjectCatalogue()
    ensures |Projects| == 9
    ensures Projects[1].category == Both && Projects[2].category == Both
    ensures Projects[0].category == Mechanical && Projects[3].category == Mechanical
    ensures forall i | 4 <= i < 9 :: Projects[i].category == Software
    ensures forall i | 0 <= i < 9 :: Projects[i].href.Some? <==> i == 5
  {
  }

  /** `Math.min(current, size)`: the smaller of the current size and the reported one. */
  function Shrunk(current: int, size: int): (r: int)
    ensures r <= current && r <= size
    ensures r == current || r == size
  {
    if size < current then size else current
  }

  /** The title size after a run of size reports with no resize in between. */
  function ShrunkAll(current: int, sizes: seq<int>): int
    decreases |sizes|
  {
    if sizes == [] then current else ShrunkAll(Shrunk(current, sizes[0]), sizes[1..])
  }

  /**
   * Between resizes the title size only shrinks: after any run of reports it is the
   * least of the starting size and every size reported.
   */
  lemma {:induction false} ShrunkAllIsMinimum(current: int, sizes: seq<int>)
    decreases |sizes|
    ensures ShrunkAll(current, sizes) <= current
    ensures forall i :: 0 <= i < |sizes| ==> ShrunkAll(current, sizes) <= sizes[i]
    ensures ShrunkAll(current, sizes) == current || ShrunkAll(current, sizes) in sizes
  {
    if sizes != [] {
      ShrunkAllIsMinimum(Shrunk(current, sizes[0]), sizes[1..]);
      forall i | 1 <= i < |sizes| ensures ShrunkAll(current, sizes) <= sizes[i] {
        assert sizes[1..][i - 1] == sizes[i];
      }
    }
  }

  /**
   * What the page sends is the trimmed text of the message box; with the input's
   * 500-code-unit limit and the webhook configured, the route's checks always pass it.
   */
  lemma SentMessagePassesValidation(text: string, webhookUrl: Option<string>)
    requires !AllWhitespace(text) && Utf16Length(text) <= MessageRoute.MaxMessageLength
    requires MessageRoute.Configured(webhookUrl)
    ensures MessageRoute.Validate(Some(MessageRoute.MessageBody(Trim(text))), webhookUrl) == Success(Trim(text))
  {
    TrimEmptyIff(text);
    TrimShortens(text);
    TrimIdempotent(text);
  }

  /** The page component's state. */
  class Home {
    var expandedId: Option<string>
    var experienceTitleSize: int
    var message: string
    var isSending: bool
    var projectFilter: Filter

    /** The title size never exceeds its maximum. */
    ghost predicate Valid()
      reads this
    {
      experienceTitleSize <= MaxExperienceTitleSize
    }

    constructor ()
      ensures Valid()
      ensures expandedId == None && experienceTitleSize == MaxExperienceTitleSize
      ensures message == "" && !isSending && projectFilter == All
    {
      expandedId := None;
      experienceTitleSize := MaxExperienceTitleSize;
      message := "";
      isSending := false;
      projectFilter := All;
    }

    /** The projects the gallery shows under the current filter. */
    function VisibleProjects(): (r: seq<Project>)
      reads this
      ensures forall p :: p in r <==> p in Projects && Shown(projectFilter, p)
    {
      FilterMembershipAll(Projects, projectFilter);
      FilterProjects(Projects, projectFilter)
    }

    method MouseEnter(id: string)
      modifies this`expandedId
      ensures expandedId == Some(id)
    {
      expandedId := Some(id);
    }

    method MouseLeave()
      modifies this`expandedId
      ensures expandedId == None
    {
      expandedId := None;
    }

    method Click(id: string)
      modifies this`expandedId
      ensures expandedId == Clicked(old(expandedId), id)
    {
      expandedId := if expandedId == Some(id) then None else Some(id);
    }

    /** A card reports the font size its title fits at. */
    method ReportTitleSize(size: int)
      requires Valid()
      modifies this`experienceTitleSize
      ensures Valid()
      ensures experienceTitleSize == Shrunk(old(experienceTitleSize), size)
    {
      if size < experienceTitleSize {
        experienceTitleSize := size;
      }
    }

    /** The window was resized: the title size starts over from the maximum. */
    method Resize()
      modifies this`experienceTitleSize
      ensures Valid() && experienceTitleSize == MaxExperienceTitleSize
    {
      experienceTitleSize := MaxExperienceTitleSize;
    }

    method PressFilter(b: FilterButton)
      modifies this`projectFilter
      ensures projectFilter == Toggled(old(projectFilter), b)
    {
      projectFilter := if projectFilter == Selects(b) then All else Selects(b);
    }

    /** The message box's `onChange`. */
    method Type(text: string)
      modifies this`message
      ensures message == text
    {
      message := text;
    }

    /**
     * The part of `handleSendMessage` before the request: nothing happens while a
     * send is in flight or when the message is blank; otherwise the send starts
     * and `payload` is the trimmed message it posts.
     */
    method BeginSend() returns (payload: Option<string>)
      modifies this`isSending
      ensures old(isSending) || AllWhitespace(message) ==> payload == None && isSending == old(isSending)
      ensures !old(isSending) && !AllWhitespace(message) ==> payload == Some(Trim(message)) && isSending
    {
      if isSending {
        return None;
      }
      var trimmedMessage := Trim(message);
      TrimEmptyIff(message);
      if trimmedMessage == "" {
        return None;
      }
      isSending := true;
      payload := Some(trimmedMessage);
    }

    /**
     * The part after the request: an ok response clears the message box; a failed
     * one (or a network error) leaves it; either way the send is over.
     */
    method FinishSend(responseOk: bool)
      requires isSending
      modifies this`isSending, this`message
      ensures !isSending
      ensures message == if responseOk then "" else old(message)
    {
      if responseOk {
        message := "";
      }
      isSending := false;
    }
  }

  /** FilterMembership for every project at once. */
  lemma FilterMembershipAll(projects: seq<Project>, f: Filter)
    ensures forall p :: p in FilterProjects(projects, f) <==> p in projects && Shown(f, p)
  {
  }
}
