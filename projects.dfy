/** The Projects page: the fixed project catalogue, the category filter, the
    status badge colour, the decision what a "Live Demo" click does and the
    code sample shown for a project. */
module Projects {
  import opened Common

  /** A catalogue entry; description, image, technologies and feature lists are display-only and omitted. */
  datatype Project = Project(title: string, category: string, github: string, demo: Option<string>,
                             featured: bool, status: string)

  const All: string := "All"

  function Categories(): seq<string>
  {
    [All, "AI/ML", "Web Apps", "Mobile", "Open Source"]
  }

  function Catalogue(): seq<Project>
  {
    [ Project("BLACKBOX AI Code Editor", "AI/ML", "https://github.com/sonu-kumar/blackbox-ai-editor",
              Some("/blackbox-ai-editor"), true, "Live"),
      Project("SKrock.AI Platform", "AI/ML", "https://github.com/sonu-kumar/skrock-ai",
              Some("/skrock-ai-platform"), true, "Live"),
      Project("NeuralOS", "AI/ML", "https://github.com/sonu-kumar/neural-os",
              Some("/neural-os"), true, "Development"),
      Project("Quantum Computing Simulator", "AI/ML", "https://github.com/sonu-kumar/quantum-simulator",
              Some("/quantum-simulator"), true, "Beta"),
      Project("E-Commerce Analytics Dashboard", "Web Apps", "https://github.com/sonu-kumar/ecommerce-analytics",
              Some("/ecommerce-analytics"), true, "Live"),
      Project("Smart Task Manager", "Mobile", "https://github.com/sonu-kumar/smart-task-manager",
              None, false, "Private"),
      Project("Open Source UI Library", "Open Source", "https://github.com/sonu-kumar/ui-library",
              None, false, "Private"),
      Project("Blockchain Voting System", "Web Apps", "https://github.com/sonu-kumar/blockchain-voting",
              None, true, "Private"),
      Project("AI Code Assistant", "AI/ML", "https://github.com/sonu-kumar/ai-code-assistant",
              None, false, "Private") ]
  }

  /** The client-side routes of the application whose paths a demo link may name. */
  function AppRoutes(): set<string>
  {
    {"/", "/about", "/experience", "/projects", "/contact", "/skrock-ai-platform", "/blackbox-ai-editor",
     "/neural-os", "/quantum-simulator", "/ecommerce-analytics"}
  }

  /** The predicate of `projects.filter(project => project.category === filter)`. */
  function InCategory(filter: string): Project -> bool
  {
    (p: Project) => p.category == filter
  }

  /** `filteredProjects`: everything for "All", otherwise the projects of that category in catalogue order. */
  function FilteredProjects(filter: string): (r: seq<Project>)
    ensures filter == All ==> r == Catalogue()
    ensures filter != All ==> forall i :: 0 <= i < |r| ==> r[i] in Catalogue() && r[i].category == filter
    ensures filter != All ==> forall i :: 0 <= i < |Catalogue()| && Catalogue()[i].category == filter ==>
                                Catalogue()[i] in r
  {
    if filter == All then Catalogue() else Filter(Catalogue(), InCategory(filter))
  }

  /** The "No projects found" panel shows exactly for a filter outside the
      category list; the buttons only ever set a listed category, so it never shows. */
  lemma EmptyOnlyOutsideCategories(filter: string)
    ensures |FilteredProjects(filter)| == 0 <==> filter !in Categories()
  {
    var cs := Catalogue();
    if filter in Categories() && filter != All {
      var k := if filter == "AI/ML" then 0 else if filter == "Web Apps" then 4
               else if filter == "Mobile" then 5 else 6;
      assert cs[k].category == filter;
      assert cs[k] in FilteredProjects(filter);
    } else if filter !in Categories() {
      assert forall i :: 0 <= i < |cs| ==> cs[i].category in Categories();
      FilterNone(cs, InCategory(filter));
    }
  }

  /** `getStatusColor` */
  function StatusColor(status: string): (r: string)
    ensures r == "bg-gray-500" <==> status !in {"Live", "Development", "Beta", "Private"}
  {
    if status == "Live" then "bg-green-500"
    else if status == "Development" then "bg-yellow-500"
    else if status == "Beta" then "bg-blue-500"
    else if status == "Private" then "bg-red-500"
    else "bg-gray-500"
  }

  /** The four known statuses get four different colours, and every catalogue entry a known one. */
  lemma StatusColorsDistinct(s1: string, s2: string, i: nat)
    requires s1 in {"Live", "Development", "Beta", "Private"} && s2 in {"Live", "Development", "Beta", "Private"}
    requires i < |Catalogue()|
    ensures StatusColor(s1) == StatusColor(s2) <==> s1 == s2
    ensures StatusColor(Catalogue()[i].status) != "bg-gray-500"
  {
  }

  /** What `handleExternalLink` does with a link. */
  datatype LinkAction = NoAction | Navigate(path: string) | OpenTab(url: string)

  predicate StartsWith(s: string, prefix: string)
  {
    |prefix| <= |s| && s[..|prefix|] == prefix
  }

  /** `s.includes(part)` */
  predicate Contains(s: string, part: string)
    decreases |s|
  {
    StartsWith(s, part) || (|s| > 0 && Contains(s[1..], part))
  }

  /** `handleExternalLink(url)`: nothing for null or "", client-side navigation
      for a path starting with '/', a new tab for anything else, GitHub or not. */
  function ExternalLink(url: Option<string>): (r: LinkAction)
    ensures r == NoAction <==> url == None || url == Some("")
    ensures r.Navigate? <==> url.Some? && |url.value| > 0 && url.value[0] == '/'
    ensures r.Navigate? ==> r.path == url.value
    ensures r.OpenTab? ==> r.url == url.value
  {
    match url
    case None => NoAction
    case Some(u) =>
      if u == "" then NoAction
      else if StartsWith(u, "/") then Navigate(u)
      else if Contains(u, "github.com") then OpenTab(u)
      else OpenTab(u)
  }

  /** A project's card offers "Live Demo" unless it is private; the demo link
      is missing exactly for private projects, and every offered demo navigates
      in-app to a route the application defines. */
  lemma DemoLinks(i: nat)
    requires i < |Catalogue()|
    ensures Catalogue()[i].demo.None? <==> Catalogue()[i].status == "Private"
    ensures Catalogue()[i].status != "Private" ==>
              ExternalLink(Catalogue()[i].demo).Navigate? &&
              ExternalLink(Catalogue()[i].demo).path in AppRoutes()
  {
  }

  /** The body of a code sample: one of the page's listings, or a literal text. */
  datatype CodeText = Listing(project: string) | Text(text: string)

  datatype CodeExample = CodeExample(language: string, code: CodeText)

  const Placeholder: string := "// Code example not available for this project"

  function ListedTitles(): set<string>
  {
    {"BLACKBOX AI Code Editor", "SKrock.AI Platform", "NeuralOS", "Quantum Computing Simulator",
     "E-Commerce Analytics Dashboard", "Smart Task Manager", "Blockchain Voting System", "AI Code Assistant"}
  }

  /** `getProjectCode`, keyed on the title. */
  function ProjectCode(title: string): (r: CodeExample)
    ensures title !in ListedTitles() ==> r == CodeExample("typescript", Text(Placeholder))
    ensures title in ListedTitles() ==> r.code == Listing(title)
  {
    if title == "BLACKBOX AI Code Editor" then CodeExample("typescript", Listing(title))
    else if title == "SKrock.AI Platform" then CodeExample("python", Listing(title))
    else if title == "NeuralOS" then CodeExample("rust", Listing(title))
    else if title == "Quantum Computing Simulator" then CodeExample("python", Listing(title))
    else if title == "E-Commerce Analytics Dashboard" then CodeExample("typescript", Listing(title))
    else if title == "Smart Task Manager" then CodeExample("typescript", Listing(title))
    else if title == "Blockchain Voting System" then CodeExample("solidity", Listing(title))
    else if title == "AI Code Assistant" then CodeExample("typescript", Listing(title))
    else CodeExample("typescript", Text(Placeholder))
  }

  /** "View Code" is offered only on non-private cards, and each of those has
      its own listing; of the catalogue only "Open Source UI Library" would get
      the placeholder. */
  lemma ViewCodeHasListing(i: nat)
    requires i < |Catalogue()|
    ensures Catalogue()[i].status != "Private" ==> ProjectCode(Catalogue()[i].title).code == Listing(Catalogue()[i].title)
    ensures ProjectCode(Catalogue()[i].title).code.Text? <==> Catalogue()[i].title == "Open Source UI Library"
  {
  }
}
