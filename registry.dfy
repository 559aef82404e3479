/** The `@Task` and `@Section` registrations: each task's slug, display name and
    ordered page chain, and the section that groups the area and funding task. */
module Registry {
  import opened JsValues
  import OasysImportPage
  import SummaryPage

  /** The page classes the shown registrations list, by class name. */
  datatype PageKind =
    | OasysImport | Summary | RiskToOthers | RiskFactors | ReducingRisk
    | RiskManagementArrangements | CellShareInformation
    | FirstPreferredArea | SecondPreferredArea | FamilyAccommodation
    | WillAnswer | Disability
    | FundingInformation

  datatype Task = Task(slug: string, name: string, pages: seq<PageKind>)

  datatype Section = Section(title: string, tasks: seq<Task>)

  const RiskOfSeriousHarm := Task(
    "risk-of-serious-harm",
    "Review risk of serious harm (RoSH) information",
    [OasysImport, Summary, RiskToOthers, RiskFactors, ReducingRisk, RiskManagementArrangements, CellShareInformation])

  const AreaInformation := Task(
    "area-information",
    "Add exclusion zones and preferred areas",
    [FirstPreferredArea, SecondPreferredArea, FamilyAccommodation])

  const EqualityAndDiversityMonitoring := Task(
    "equality-and-diversity-monitoring",
    "Complete equality and diversity monitoring",
    [WillAnswer, Disability])

  const AreaAndFunding := Task("area-and-funding", "Funding information", [FundingInformation])

  const AreaAndFundingSection := Section("Area and funding", [AreaAndFunding])

  /** The `@Page` name of the pages of the risk of serious harm chain whose name is
      known: the two pages' own declarations and the `risk-to-others` name the summary
      page and the import's routing use. */
  function PageNameOf(c: PageKind): Option<string>
  {
    match c
    case OasysImport => Some(OasysImportPage.PageName)
    case Summary => Some(SummaryPage.PageName)
    case RiskToOthers => Some(OasysImportPage.RiskToOthersKey)
    case _ => None
  }

  /** The position of the first occurrence of `c` in `pages`. */
  function IndexOf(pages: seq<PageKind>, c: PageKind): (r: Option<nat>)
    ensures r.None? <==> c !in pages
    ensures r.Some? ==> r.value < |pages| && pages[r.value] == c
    ensures r.Some? ==> forall j :: 0 <= j < r.value ==> pages[j] != c
  {
    if |pages| == 0 then None
    else if pages[0] == c then Some(0)
    else match IndexOf(pages[1..], c)
      case None => None
      case Some(i) => Some(i + 1)
  }

  /** No page class is listed twice. */
  predicate Distinct(pages: seq<PageKind>)
  {
    forall i, j :: 0 <= i < j < |pages| ==> pages[i] != pages[j]
  }

  /** The page a chain continues with after `c`, if any. */
  function Successor(pages: seq<PageKind>, c: PageKind): (r: Option<PageKind>)
    ensures r.Some? ==> c in pages && IndexOf(pages, c).value + 1 < |pages| && r.value == pages[IndexOf(pages, c).value + 1]
    ensures c in pages && IndexOf(pages, c).value + 1 < |pages| ==> r.Some?
  {
    match IndexOf(pages, c)
    case None => None
    case Some(i) => if i + 1 < |pages| then Some(pages[i + 1]) else None
  }

  /** The risk of serious harm task: its slug is the task name the import page
      reads and writes, and its seven pages are distinct, entered through the import page. */
  lemma RiskOfSeriousHarmChain()
    ensures RiskOfSeriousHarm.slug == OasysImportPage.TaskName
    ensures |RiskOfSeriousHarm.pages| == 7 && Distinct(RiskOfSeriousHarm.pages)
    ensures RiskOfSeriousHarm.pages[0] == OasysImport
  {
  }

  /** The area information task: three distinct pages, entered through the first preferred area. */
  lemma AreaInformationChain()
    ensures AreaInformation.slug == "area-information"
    ensures |AreaInformation.pages| == 3 && Distinct(AreaInformation.pages)
    ensures AreaInformation.pages[0] == FirstPreferredArea
  {
  }

  /** The equality and diversity monitoring task: two distinct pages, entered through the will-answer page. */
  lemma EqualityAndDiversityMonitoringChain()
    ensures EqualityAndDiversityMonitoring.slug == "equality-and-diversity-monitoring"
    ensures |EqualityAndDiversityMonitoring.pages| == 2 && Distinct(EqualityAndDiversityMonitoring.pages)
    ensures EqualityAndDiversityMonitoring.pages[0] == WillAnswer
  {
  }

  /** The area and funding task has the one funding page, and its section lists just that task. */
  lemma AreaAndFundingRegistration()
    ensures AreaAndFunding.slug == "area-and-funding" && AreaAndFunding.pages == [FundingInformation]
    ensures AreaAndFundingSection.title == "Area and funding" && AreaAndFundingSection.tasks == [AreaAndFunding]
  {
  }

  /** The pages the import's `initialize` may hand over to come after it in the chain. */
  lemma {:induction false} RoutingTargetsFollowTheEntryPage()
    ensures IndexOf(RiskOfSeriousHarm.pages, OasysImport) == Some(0)
    ensures IndexOf(RiskOfSeriousHarm.pages, Summary) == Some(1)
    ensures IndexOf(RiskOfSeriousHarm.pages, RiskToOthers) == Some(2)
  {
    var pages := RiskOfSeriousHarm.pages;
    assert pages[1..][0] == Summary;
    assert pages[1..][1..][0] == RiskToOthers;
  }

  /** The `next()` of the import and summary pages names the page that follows each in the chain. */
  lemma NextFollowsTheChain(importPage: OasysImportPage.OasysImport, summary: SummaryPage.Summary)
    ensures var s := Successor(RiskOfSeriousHarm.pages, OasysImport);
      s.Some? && PageNameOf(s.value) == Some(OasysImportPage.Next(importPage))
    ensures var s := Successor(RiskOfSeriousHarm.pages, Summary);
      s.Some? && PageNameOf(s.value) == Some(SummaryPage.Next(summary))
  {
    RoutingTargetsFollowTheEntryPage();
  }

  /** The page class standing behind each page `initialize` can return: the entry
      page itself, or a page further along the chain when it skips ahead. */
  function RoutedClass(r: OasysImportPage.RoutedPage): (c: PageKind)
    ensures c in RiskOfSeriousHarm.pages
    ensures r.ToImport? ==> c == RiskOfSeriousHarm.pages[0]
    ensures !r.ToImport? ==> IndexOf(RiskOfSeriousHarm.pages, OasysImport).value < IndexOf(RiskOfSeriousHarm.pages, c).value
  {
    RoutingTargetsFollowTheEntryPage();
    match r
    case ToImport(_) => OasysImport
    case ToSummary(_) => Summary
    case ToRiskToOthers(_) => RiskToOthers
  }
}
