/**
 * The Notion sync: pages of the task board become queue entries (title,
 * details, priority, task type and agent read from the page's properties),
 * and a sync appends to the queue the pages that are not queued yet. The
 * Notion query and the status update sent back for each page are outside
 * the model: the pages are an input and the ids of the pages to mark as
 * Processing are an output.
 */
module NotionSync {
  import opened Wrappers
  import opened Strings
  import opened Seqs
  import NP = NotionProps
  import TQ = TaskQueue

  /** A page of the task board. */
  datatype Page = Page(id: string, createdTime: string, props: NP.Props)

  /** A text property (title, rich text or select, by `t`) when it is set and non-empty. */
  function TextProp(props: NP.Props, name: string, t: NP.PropType): Option<string>
  {
    NP.AsText(NP.ExtractProperty(props, name, t))
  }

  /** The first of two optional texts that is set, else the fallback. */
  function FirstOr(a: Option<string>, b: Option<string>, fallback: string): (r: string)
    ensures a.Some? ==> r == a.value
    ensures a.None? && b.Some? ==> r == b.value
    ensures a.None? && b.None? ==> r == fallback
  {
    if a.Some? then a.value else if b.Some? then b.value else fallback
  }

  /** The title: the Entry title, else the Name title, else "Untitled Task". */
  function TitleOf(props: NP.Props): (t: string)
    ensures t != ""
  {
    NP.TextNeverEmpty(props, "Entry", NP.Title);
    NP.TextNeverEmpty(props, "Name", NP.Title);
    FirstOr(TextProp(props, "Entry", NP.Title), TextProp(props, "Name", NP.Title), "Untitled Task")
  }

  /** The priority label: the first of Critical, High and Low the select name contains, else MEDIUM. */
  function PriorityOf(raw: string): (p: string)
    ensures p == "CRITICAL" <==> Contains(raw, "Critical")
    ensures p == "HIGH" <==> !Contains(raw, "Critical") && Contains(raw, "High")
    ensures p == "LOW" <==> !Contains(raw, "Critical") && !Contains(raw, "High") && Contains(raw, "Low")
    ensures p == "MEDIUM" <==> !Contains(raw, "Critical") && !Contains(raw, "High") && !Contains(raw, "Low")
  {
    if Contains(raw, "Critical") then "CRITICAL"
    else if Contains(raw, "High") then "HIGH"
    else if Contains(raw, "Low") then "LOW"
    else "MEDIUM"
  }

  /** A page without a Priority select is MEDIUM. */
  lemma MissingPriorityIsMedium()
    ensures PriorityOf("Medium") == "MEDIUM"
  {
    LacksChar("Medium", "Critical", 'C');
    LacksChar("Medium", "High", 'H');
    LacksChar("Medium", "Low", 'L');
  }

  /** The nine categories with a task type of their own. */
  const CATEGORIES: seq<string> :=
    ["Research", "Analysis", "Infrastructure", "Content", "Data", "Design", "Strategy", "Operations", "Setup"]

  /** `mapCategoryToTaskType`. */
  function MapCategoryToTaskType(category: string): (t: string)
    ensures t == "default" <==> category !in CATEGORIES
    ensures t in TQ.TEMPLATE_KEYS
  {
    match category
    case "Research" => "research"
    case "Analysis" => "analysis"
    case "Infrastructure" => "automation"
    case "Content" => "content"
    case "Data" => "data"
    case "Design" => "content"
    case "Strategy" => "analysis"
    case "Operations" => "automation"
    case "Setup" => "automation"
    case _ => "default"
  }

  /** The owner keywords, in the order they are tried, and the agent of each. */
  const OWNER_KEYWORDS: seq<string> := ["cassian", "sandman", "avery", "rowan", "elliot", "orion", "oracle", "voltagent"]
  const OWNER_AGENTS: seq<string> :=
    ["cassian-sandman", "cassian-sandman", "avery-vale", "rowan-sable", "elliot-brandt", "orion-locke", "oracle", "voltagent"]

  /**
   * `mapOwnerToAgent`: the agent of the first keyword the lower-cased owner
   * contains, else `general-pool`.
   */
  function MapOwnerToAgent(owner: string): (a: string)
    ensures var k := FirstKeyword(LowerStr(owner), OWNER_KEYWORDS);
      && (k == -1 ==> a == "general-pool")
      && (k != -1 ==> a == OWNER_AGENTS[k])
  {
    var k := FirstKeyword(LowerStr(owner), OWNER_KEYWORDS);
    if k == -1 then "general-pool" else OWNER_AGENTS[k]
  }

  /** An owner none of whose keywords occur goes to the general pool, and only such an owner does. */
  lemma GeneralPoolIffNoKeyword(owner: string)
    ensures MapOwnerToAgent(owner) == "general-pool" <==>
      forall i :: 0 <= i < |OWNER_KEYWORDS| ==> !Contains(LowerStr(owner), OWNER_KEYWORDS[i])
  {
    assert "general-pool" !in OWNER_AGENTS;
  }

  /** The owner: the first rich-text run, else the select name, else `general-pool`. */
  function OwnerOf(props: NP.Props): string
  {
    FirstOr(TextProp(props, "Owner", NP.RichText), TextProp(props, "Owner", NP.Select), "general-pool")
  }

  /** `pageToTask`: the queue entry of a page, keyed by the page id. */
  function PageToTask(page: Page): (t: TQ.QueueTask)
    ensures t.taskId == page.id && t.notionPageId == Some(page.id) && t.createdAt == Some(page.createdTime)
    ensures t.taskType.Some? && t.taskType.value in TQ.TEMPLATE_KEYS
    ensures t.priority in {"CRITICAL", "HIGH", "LOW", "MEDIUM"}
  {
    var title := TitleOf(page.props);
    var details := TextProp(page.props, "Details", NP.RichText).GetOr("");
    var priority := PriorityOf(TextProp(page.props, "Priority", NP.Select).GetOr("Medium"));
    var category := TextProp(page.props, "Category", NP.Select).GetOr("Operations");
    TQ.QueueTask(page.id, Some(MapCategoryToTaskType(category)), Trim(title + "\n\n" + details), priority,
                 MapOwnerToAgent(OwnerOf(page.props)), Some(page.id), Some(page.createdTime))
  }

  /** A page without a Category select is an automation task. */
  lemma MissingCategoryIsAutomation(page: Page)
    requires "Category" !in page.props
    ensures PageToTask(page).taskType == Some("automation")
  {
    assert TextProp(page.props, "Category", NP.Select) == None;
    assert MapCategoryToTaskType("Operations") == "automation";
  }

  lemma TrimUntitled()
    ensures Trim("Untitled Task\n\n") == "Untitled Task"
  {
    var s := "Untitled Task\n\n";
    assert TrimStart(s) == s;
    assert s[..|s| - 1] == "Untitled Task\n";
    assert s[..|s| - 1][..|s| - 2] == "Untitled Task";
    assert TrimEnd(s) == TrimEnd("Untitled Task\n") == TrimEnd("Untitled Task");
  }

  /** A page with neither an Entry nor a Name title is described from "Untitled Task". */
  lemma UntitledPage(page: Page)
    requires "Entry" !in page.props && "Name" !in page.props && "Details" !in page.props
    ensures PageToTask(page).description == "Untitled Task"
  {
    assert TitleOf(page.props) == "Untitled Task";
    assert "Untitled Task" + "\n\n" + "" == "Untitled Task\n\n";
    TrimUntitled();
  }

  function TaskId(t: TQ.QueueTask): string
  {
    t.taskId
  }

  function QueuedIds(queue: seq<TQ.QueueTask>): set<string>
  {
    set t | t in queue :: t.taskId
  }

  function NotQueued(ids: set<string>): Page -> bool
  {
    (p: Page) => p.id !in ids
  }

  /** The pages a sync appends: in page order, those whose id is not queued yet. */
  function NewPages(pages: seq<Page>, queue: seq<TQ.QueueTask>): seq<Page>
  {
    Filter(NotQueued(QueuedIds(queue)), pages)
  }

  /** One line of the sync report. */
  datatype Brief = Brief(id: string, taskType: Option<string>, priority: string)

  function BriefOf(t: TQ.QueueTask): Brief
  {
    Brief(t.taskId, t.taskType, t.priority)
  }

  datatype SyncReport =
    | NothingFound
    | Synced(synced: nat, queueSize: nat, tasks: seq<Brief>)

  /**
   * `syncFromNotion` over the fetched pages: with no pages nothing is
   * written; otherwise every page not yet queued is converted and appended,
   * and its id is sent back to be marked Processing.
   */
  method SyncFromNotion(qp: TQ.QueueProcessor, pages: seq<Page>) returns (report: SyncReport, marked: seq<string>)
    modifies qp
    ensures pages == [] ==> report == NothingFound && marked == [] && qp.queue == old(qp.queue)
    ensures pages != [] ==>
      var added := Map(PageToTask, NewPages(pages, old(qp.queue)));
      && qp.queue == old(qp.queue) + added
      && report == Synced(|added|, |qp.queue|, Map(BriefOf, added))
      && marked == Map(TaskId, added)
    ensures qp.processing == old(qp.processing) && qp.results == old(qp.results)
  {
    if pages == [] {
      return NothingFound, [];
    }
    var existingIds := QueuedIds(qp.queue);
    var newTasks := FilterMapLoop(pages, NotQueued(existingIds), PageToTask);
    marked := Map(TaskId, newTasks);
    qp.queue := qp.queue + newTasks;
    report := Synced(|newTasks|, |qp.queue|, Map(BriefOf, newTasks));
  }

  /** A sync never appends a page whose id is already queued. */
  lemma NewPagesNotQueued(pages: seq<Page>, queue: seq<TQ.QueueTask>, t: TQ.QueueTask)
    requires t in Map(PageToTask, NewPages(pages, queue))
    ensures t.taskId !in QueuedIds(queue)
  {
    var i :| 0 <= i < |NewPages(pages, queue)| && t == PageToTask(NewPages(pages, queue)[i]);
  }

  /** When the queue and the fetched pages have no repeated ids, neither does the queue after a sync. */
  lemma SyncKeepsIdsUnique(pages: seq<Page>, queue: seq<TQ.QueueTask>)
    requires Unique(TaskId, queue)
    requires Unique((p: Page) => p.id, pages)
    ensures Unique(TaskId, queue + Map(PageToTask, NewPages(pages, queue)))
  {
    var added := Map(PageToTask, NewPages(pages, queue));
    FilterUnique((p: Page) => p.id, NotQueued(QueuedIds(queue)), pages);
    forall i, j | 0 <= i < j < |queue + added| ensures TaskId((queue + added)[i]) != TaskId((queue + added)[j]) {
      if j >= |queue| {
        NewPagesNotQueued(pages, queue, added[j - |queue|]);
        if i < |queue| {
          assert queue[i] in queue;
        }
      }
    }
  }
}
