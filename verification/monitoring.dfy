/**
 * The monitor registry of the monitoring server: `MonitoringManager`, the
 * three `create_*_monitor` tools that register a monitor and return a
 * simulated first batch of results, and `check_all_monitors`, which walks
 * the registry in insertion order and reports one fixed finding per active
 * monitor.
 *
 * The monitor id and the timestamps are parameters: the source derives the id
 * from the current second and stamps records with the current time.
 */
module Monitoring {
  import opened Numerics

  datatype Option<T> = None | Some(value: T)

  datatype MonitorKind = JobPostings | ResearchPublications | IndustryNews

  /** One registry entry; each kind has the keys its creation tool stores. */
  datatype MonitorConfig =
    | JobMonitor(monitorId: string, companies: seq<string>, keywords: seq<string>, alertContact: string,
                 checkFrequency: string, createdAt: string, lastChecked: Option<string>,
                 active: bool, matchesFound: nat)
    | ResearchMonitor(monitorId: string, topics: seq<string>, alertContact: string, minRelevance: string,
                      sources: seq<string>, createdAt: string, lastChecked: Option<string>, papersFound: nat)
    | NewsMonitor(monitorId: string, industry: string, keywords: seq<string>, alertContact: string,
                  newsSources: seq<string>, createdAt: string, significanceFilter: string)

  /** The config's `"type"` entry. */
  function KindOf(m: MonitorConfig): MonitorKind
  {
    match m
    case JobMonitor(_, _, _, _, _, _, _, _, _) => JobPostings
    case ResearchMonitor(_, _, _, _, _, _, _, _) => ResearchPublications
    case NewsMonitor(_, _, _, _, _, _, _) => IndustryNews
  }

  /** `config.get("active", True)`: only job monitors store the key. */
  predicate IsActive(m: MonitorConfig)
  {
    if m.JobMonitor? then m.active else true
  }

  // ------------------------------------------------------------- registry

  /** The process-wide registry: a dictionary keyed by monitor id, with its insertion order. */
  class MonitoringManager {
    var monitors: map<string, MonitorConfig>
    var order: seq<string>

    ghost predicate Valid()
      reads this
    {
      && |order| == |monitors|
      && (forall k :: 0 <= k < |order| ==> order[k] in monitors)
      && (forall id :: id in monitors ==> id in order)
      && Distinct(order)
      && (forall id :: id in monitors ==> monitors[id].monitorId == id)
    }

    constructor ()
      ensures Valid()
      ensures monitors == map[] && order == []
    {
      monitors := map[];
      order := [];
    }

    /**
     * `monitors[id] = config`. A new id goes to the end of the iteration
     * order; an existing id is overwritten in place and keeps its position.
     */
    method Store(id: string, config: MonitorConfig)
      requires Valid()
      requires config.monitorId == id
      modifies this
      ensures Valid()
      ensures monitors == old(monitors)[id := config]
      ensures order == if id in old(monitors) then old(order) else old(order) + [id]
    {
      if id !in monitors {
        order := order + [id];
      }
      monitors := monitors[id := config];
    }
  }

  // ------------------------------------------------------------ strings

  function LowerChar(ch: char): char
  {
    if 'A' <= ch <= 'Z' then (ch as int + 32) as char else ch
  }

  /** `str.lower()`, restricted to ASCII letters. */
  function ToLower(s: string): (r: string)
    ensures |r| == |s|
    ensures forall k :: 0 <= k < |s| ==> r[k] == LowerChar(s[k])
  {
    if s == [] then [] else [LowerChar(s[0])] + ToLower(s[1..])
  }

  lemma {:induction false} ToLowerIdempotent(s: string)
    ensures ToLower(ToLower(s)) == ToLower(s)
  {
    var l := ToLower(s);
    assert forall k :: 0 <= k < |l| ==> ToLower(l)[k] == l[k];
  }

  predicate OccursAt(s: string, sub: string, i: nat)
  {
    i + |sub| <= |s| && s[i..i + |sub|] == sub
  }

  /** `sub in s` for strings. */
  function Contains(s: string, sub: string): (b: bool)
    ensures b <==> exists i: nat :: OccursAt(s, sub, i)
    decreases |s|
  {
    if |s| < |sub| then
      assert forall i: nat :: !OccursAt(s, sub, i);
      false
    else if s[..|sub|] == sub then
      assert OccursAt(s, sub, 0);
      true
    else
      OccursShift(s, sub);
      Contains(s[1..], sub)
  }

  /** An occurrence past the first character of `s` is an occurrence in `s[1..]`. */
  lemma OccursShift(s: string, sub: string)
    requires |s| >= |sub| && s[..|sub|] != sub
    ensures (exists i: nat :: OccursAt(s, sub, i)) <==> (exists i: nat :: OccursAt(s[1..], sub, i))
  {
    forall i: nat | OccursAt(s, sub, i)
      ensures OccursAt(s[1..], sub, i - 1)
    {
      assert i != 0;
      assert s[1..][i - 1..i - 1 + |sub|] == s[i..i + |sub|];
    }
    forall i: nat | OccursAt(s[1..], sub, i)
      ensures OccursAt(s, sub, i + 1)
    {
      assert s[1..][i..i + |sub|] == s[i + 1..i + 1 + |sub|];
    }
  }

  // ---------------------------------------------------------- job monitor

  datatype MatchPriority = High | Medium

  datatype JobMatch = JobMatch(
    company: string,
    title: string,
    location: string,
    postedDate: string,
    url: string,
    matchKeywords: seq<string>,
    priority: MatchPriority)

  /** HIGH when the lowercased keyword contains "ai", "ml" or "data" anywhere. */
  function MatchPriorityOf(keyword: string): MatchPriority
  {
    var k := ToLower(keyword);
    if Contains(k, "ai") || Contains(k, "ml") || Contains(k, "data") then High else Medium
  }

  /** The priority rule looks at the lowercased keyword, so the keyword's case never matters. */
  lemma MatchPriorityIgnoresCase(keyword: string)
    ensures MatchPriorityOf(ToLower(keyword)) == MatchPriorityOf(keyword)
  {
    ToLowerIdempotent(keyword);
  }

  /** A keyword that is just "AI" is HIGH. */
  lemma KeywordAIIsHigh()
    ensures MatchPriorityOf("AI") == High
  {
    assert ToLower("AI") == "ai";
    assert OccursAt("ai", "ai", 0);
  }

  /** The rule is a substring test: "Email" is HIGH, because "email" contains "ai". */
  lemma KeywordEmailIsHigh()
    ensures MatchPriorityOf("Email") == High
  {
    assert ToLower("Email") == "email";
    assert OccursAt("email", "ai", 2);
  }

  /** A keyword with none of the three terms, such as "Python", is MEDIUM. */
  lemma KeywordPythonIsMedium()
    ensures MatchPriorityOf("Python") == Medium
  {
    var k := ToLower("Python");
    assert forall j :: 0 <= j < |k| ==> k[j] == LowerChar("Python"[j]);
    assert 'a' !in k && 'm' !in k && 'd' !in k;
    MissingFirstCharNotContained(k, "ai");
    MissingFirstCharNotContained(k, "ml");
    MissingFirstCharNotContained(k, "data");
  }

  /** A string without the first character of `sub` cannot contain `sub`. */
  lemma MissingFirstCharNotContained(s: string, sub: string)
    requires |sub| > 0 && sub[0] !in s
    ensures !Contains(s, sub)
  {
    forall i: nat
      ensures !OccursAt(s, sub, i)
    {
      if i + |sub| <= |s| {
        assert s[i..i + |sub|][0] == s[i];
      }
    }
  }

  /** The simulated posting for one company and one keyword. */
  function MakeMatch(company: string, keyword: string, now: string): JobMatch
  {
    JobMatch(
      company,
      "Senior " + keyword + " Engineer",
      "Remote/Hybrid",
      now,
      "https://" + ToLower(company) + ".com/careers/senior-" + ToLower(keyword) + "-engineer",
      [keyword],
      MatchPriorityOf(keyword))
  }

  /** `keywords[:2]` */
  function FirstKeywords(keywords: seq<string>): (r: seq<string>)
    ensures r <= keywords
    ensures |r| == 2 || (|r| < 2 && r == keywords)
  {
    keywords[..MinInt(|keywords|, 2)]
  }

  /** The matches for one company, one per keyword, in keyword order. */
  function CompanyMatches(company: string, kws: seq<string>, now: string): (r: seq<JobMatch>)
    ensures |r| == |kws|
  {
    seq(|kws|, k requires 0 <= k < |kws| => MakeMatch(company, kws[k], now))
  }

  /** All matches, company-major: every keyword of the first company, then of the second, ... */
  function JobMatches(companies: seq<string>, kws: seq<string>, now: string): (r: seq<JobMatch>)
    ensures |r| == |companies| * |kws|
    decreases |companies|
  {
    if companies == [] then []
    else
      var n := |companies| - 1;
      assert (n + 1) * |kws| == n * |kws| + |kws|;
      JobMatches(companies[..n], kws, now) + CompanyMatches(companies[n], kws, now)
  }

  /** The match at position `c * |kws| + k` is company `c` with keyword `k`. */
  lemma {:induction false} JobMatchAt(companies: seq<string>, kws: seq<string>, now: string, c: nat, k: nat)
    requires c < |companies| && k < |kws|
    ensures c * |kws| + k < |JobMatches(companies, kws, now)|
    ensures JobMatches(companies, kws, now)[c * |kws| + k] == MakeMatch(companies[c], kws[k], now)
    decreases |companies|
  {
    var n := |companies| - 1;
    var prefix := companies[..n];
    assert c * |kws| + k < (c + 1) * |kws| <= |companies| * |kws| by {
      assert (c + 1) * |kws| == c * |kws| + |kws|;
      assert c + 1 <= |companies|;
      MulMonotone(c + 1, |companies|, |kws|);
    }
    if c < n {
      JobMatchAt(prefix, kws, now, c, k);
      assert prefix[c] == companies[c];
    } else {
      assert |JobMatches(prefix, kws, now)| == n * |kws|;
    }
  }

  lemma MulMonotone(a: nat, b: nat, m: nat)
    requires a <= b
    ensures a * m <= b * m
  {
  }

  /** The nested loops that build `current_matches`. */
  method BuildJobMatches(companies: seq<string>, keywords: seq<string>, now: string) returns (matches: seq<JobMatch>)
    ensures matches == JobMatches(companies, FirstKeywords(keywords), now)
    ensures |matches| == |companies| * MinInt(|keywords|, 2)
  {
    var kws := FirstKeywords(keywords);
    matches := [];
    var ci := 0;
    while ci < |companies|
      invariant 0 <= ci <= |companies|
      invariant matches == JobMatches(companies[..ci], kws, now)
    {
      var ki := 0;
      while ki < |kws|
        invariant 0 <= ki <= |kws|
        invariant matches == JobMatches(companies[..ci], kws, now) + CompanyMatches(companies[ci], kws[..ki], now)
      {
        assert CompanyMatches(companies[ci], kws[..ki + 1], now)
            == CompanyMatches(companies[ci], kws[..ki], now) + [MakeMatch(companies[ci], kws[ki], now)];
        matches := matches + [MakeMatch(companies[ci], kws[ki], now)];
        ki := ki + 1;
      }
      assert kws[..ki] == kws;
      assert companies[..ci + 1][..ci] == companies[..ci];
      ci := ci + 1;
    }
    assert companies[..ci] == companies;
  }

  datatype JobMonitorResponse = JobMonitorResponse(
    monitorCreated: bool,
    monitorId: string,
    companiesMonitored: nat,   // "<n> companies for <m> keywords"
    keywordsMonitored: nat,
    currentMatchesFound: nat,
    sampleMatches: seq<JobMatch>,
    alertSetup: string)

  method CreateJobMonitor(mgr: MonitoringManager, monitorId: string, now: string,
                          companies: seq<string>, keywords: seq<string>,
                          alertContact: string, checkFrequency: string := "daily")
      returns (resp: JobMonitorResponse)
    requires mgr.Valid()
    modifies mgr
    ensures mgr.Valid()
    ensures monitorId in mgr.monitors
    ensures mgr.monitors[monitorId] ==
      JobMonitor(monitorId, companies, keywords, alertContact, checkFrequency, now, None, true, 0)
    ensures forall id :: id in old(mgr.monitors) && id != monitorId ==>
      id in mgr.monitors && mgr.monitors[id] == old(mgr.monitors)[id]
    ensures mgr.monitors.Keys == old(mgr.monitors).Keys + {monitorId}
    ensures mgr.order == if monitorId in old(mgr.monitors) then old(mgr.order) else old(mgr.order) + [monitorId]
    ensures resp.monitorCreated && resp.monitorId == monitorId
    ensures resp.companiesMonitored == |companies| && resp.keywordsMonitored == |keywords|
    ensures resp.currentMatchesFound == |companies| * MinInt(|keywords|, 2)
    ensures resp.sampleMatches ==
      JobMatches(companies, FirstKeywords(keywords), now)[..MinInt(3, resp.currentMatchesFound)]
    ensures resp.alertSetup == "Will notify " + alertContact + " when new matches found"
  {
    var config := JobMonitor(monitorId, companies, keywords, alertContact, checkFrequency, now, None, true, 0);
    var matches := BuildJobMatches(companies, keywords, now);
    mgr.Store(monitorId, config);
    resp := JobMonitorResponse(true, monitorId, |companies|, |keywords|, |matches|,
                               matches[..MinInt(3, |matches|)],
                               "Will notify " + alertContact + " when new matches found");
  }

  // ----------------------------------------------------- research monitor

  datatype Paper = Paper(
    title: string,
    authors: seq<string>,
    published: string,
    relevanceScore: real,
    abstractPreview: string,
    citationPotential: string,
    practicalApplications: seq<string>)

  const TitlePrefix: string := "Advances in "

  function PaperFor(topic: string, now: string): Paper
  {
    Paper(
      TitlePrefix + topic + ": A Comprehensive Survey",
      ["Dr. Research Smith", "Prof. Innovation Jones"],
      now,
      0.92,
      "This paper presents novel approaches to " + topic + " with significant implications for...",
      "High",
      ["Industry implementation", "Further research directions"])
  }

  /** The loop that builds `recent_papers`: one paper per topic, in topic order. */
  method BuildRecentPapers(topics: seq<string>, now: string) returns (papers: seq<Paper>)
    ensures |papers| == |topics|
    ensures forall k :: 0 <= k < |topics| ==> papers[k] == PaperFor(topics[k], now)
  {
    papers := [];
    var i := 0;
    while i < |topics|
      invariant 0 <= i <= |topics|
      invariant |papers| == i
      invariant forall k :: 0 <= k < i ==> papers[k] == PaperFor(topics[k], now)
    {
      papers := papers + [PaperFor(topics[i], now)];
      i := i + 1;
    }
  }

  datatype ResearchMonitorResponse = ResearchMonitorResponse(
    researchMonitorCreated: bool,
    monitorId: string,
    topicsMonitored: seq<string>,
    sourcesChecked: seq<string>,
    recentPapersSample: seq<Paper>,
    relevanceThreshold: string,
    notificationContact: string)

  method CreateResearchMonitor(mgr: MonitoringManager, monitorId: string, now: string,
                               topics: seq<string>, alertContact: string, minRelevance: string := "high")
      returns (resp: ResearchMonitorResponse)
    requires mgr.Valid()
    modifies mgr
    ensures mgr.Valid()
    ensures monitorId in mgr.monitors
    ensures mgr.monitors[monitorId] ==
      ResearchMonitor(monitorId, topics, alertContact, minRelevance,
                      ["arxiv", "google_scholar", "pubmed"], now, None, 0)
    ensures forall id :: id in old(mgr.monitors) && id != monitorId ==>
      id in mgr.monitors && mgr.monitors[id] == old(mgr.monitors)[id]
    ensures mgr.monitors.Keys == old(mgr.monitors).Keys + {monitorId}
    ensures mgr.order == if monitorId in old(mgr.monitors) then old(mgr.order) else old(mgr.order) + [monitorId]
    ensures resp.researchMonitorCreated && resp.monitorId == monitorId
    ensures resp.topicsMonitored == topics
    ensures resp.sourcesChecked == ["ArXiv", "Google Scholar", "PubMed"]
    ensures |resp.recentPapersSample| == |topics|
    ensures forall k :: 0 <= k < |topics| ==> resp.recentPapersSample[k] == PaperFor(topics[k], now)
    ensures resp.relevanceThreshold == minRelevance && resp.notificationContact == alertContact
  {
    var config := ResearchMonitor(monitorId, topics, alertContact, minRelevance,
                                  ["arxiv", "google_scholar", "pubmed"], now, None, 0);
    var papers := BuildRecentPapers(topics, now);
    mgr.Store(monitorId, config);
    resp := ResearchMonitorResponse(true, monitorId, topics, ["ArXiv", "Google Scholar", "PubMed"],
                                    papers, minRelevance, alertContact);
  }

  // -------------------------------------------------- industry news monitor

  datatype NewsItem = NewsItem(
    headline: string,
    source: string,
    published: string,
    significance: string,
    summary: string,
    impactAreas: seq<string>,
    relevanceToKeywords: Option<seq<string>>)  // only the first item has the key

  const NewsSources: seq<string> := ["TechCrunch", "Forbes", "Reuters", "Industry Publications"]

  /** The two simulated news items: an investment story now and a regulation story `earlier`. */
  function RecentNews(industry: string, keywords: seq<string>, now: string, earlier: string): (r: seq<NewsItem>)
    ensures |r| == 2
    ensures r[0].relevanceToKeywords == Some(FirstKeywords(keywords))
    ensures r[1].relevanceToKeywords == None
    ensures r[0].published == now && r[1].published == earlier
  {
    [ NewsItem(industry + " Industry Sees Major AI Investment", "Industry Times", now, "HIGH",
               "Leading " + industry + " companies announce $2B investment in AI technologies",
               ["Technology adoption", "Competitive landscape", "Job market"],
               Some(FirstKeywords(keywords))),
      NewsItem("New Regulations Affecting " + industry + " Sector", "Regulatory News", earlier, "MEDIUM",
               "Regulatory changes expected to impact operations starting Q2",
               ["Compliance", "Operations", "Strategy"],
               None) ]
  }

  datatype NewsMonitorResponse = NewsMonitorResponse(
    industryMonitorCreated: bool,
    monitorId: string,
    industry: string,
    keywordsTracked: seq<string>,
    newsSources: seq<string>,
    recentDevelopments: seq<NewsItem>,
    alertContact: string)

  method CreateIndustryNewsMonitor(mgr: MonitoringManager, monitorId: string, now: string, earlier: string,
                                   industry: string, keywords: seq<string>, alertContact: string)
      returns (resp: NewsMonitorResponse)
    requires mgr.Valid()
    modifies mgr
    ensures mgr.Valid()
    ensures monitorId in mgr.monitors
    ensures mgr.monitors[monitorId] ==
      NewsMonitor(monitorId, industry, keywords, alertContact, NewsSources, now, "medium_to_high")
    ensures forall id :: id in old(mgr.monitors) && id != monitorId ==>
      id in mgr.monitors && mgr.monitors[id] == old(mgr.monitors)[id]
    ensures mgr.monitors.Keys == old(mgr.monitors).Keys + {monitorId}
    ensures mgr.order == if monitorId in old(mgr.monitors) then old(mgr.order) else old(mgr.order) + [monitorId]
    ensures resp.industryMonitorCreated && resp.monitorId == monitorId
    ensures resp.industry == industry && resp.keywordsTracked == keywords
    ensures resp.newsSources == NewsSources && resp.alertContact == alertContact
    ensures resp.recentDevelopments == RecentNews(industry, keywords, now, earlier)
  {
    var config := NewsMonitor(monitorId, industry, keywords, alertContact, NewsSources, now, "medium_to_high");
    mgr.Store(monitorId, config);
    resp := NewsMonitorResponse(true, monitorId, industry, keywords, NewsSources,
                                RecentNews(industry, keywords, now, earlier), alertContact);
  }

  // ------------------------------------------------------------ check cycle

  datatype Finding =
    | JobFinding(company: string, title: string, posted: string, priority: MatchPriority, matchReason: string)
    | PaperFinding(title: string, relevance: real, published: string, significance: string)
    | NewsFinding(headline: string, impact: string, published: string, relevanceNote: string)

  /** The findings the check simulates for a monitor of the given kind: the same one every time. */
  function NewFindingsFor(kind: MonitorKind): (r: seq<Finding>)
    ensures |r| == 1
  {
    match kind
    case JobPostings =>
      [JobFinding("Google", "Senior AI Research Scientist", "2 hours ago", High,
                  "Contains keywords: AI, Machine Learning")]
    case ResearchPublications =>
      [PaperFinding("Revolutionary Advances in Large Language Models", 0.95, "Today",
                    "Breakthrough methodology")]
    case IndustryNews =>
      [NewsFinding("Major Insurance Company Adopts AI Claims Processing", "HIGH", "1 hour ago",
                   "Direct industry impact")]
  }

  datatype StatusEntry = StatusEntry(
    monitorId: string,
    kind: MonitorKind,
    status: string,
    lastChecked: string,
    findingsToday: nat)

  datatype CheckReport = CheckReport(
    checkTimestamp: string,
    monitorsChecked: nat,
    alertsGenerated: nat,
    newFindings: seq<Finding>,
    monitorStatus: seq<StatusEntry>)  // an insertion-ordered dictionary keyed by monitorId

  ghost predicate Distinct(ids: seq<string>)
  {
    forall p, q :: 0 <= p < q < |ids| ==> ids[p] != ids[q]
  }

  ghost predicate AllRegistered(ids: seq<string>, monitors: map<string, MonitorConfig>)
  {
    forall k :: 0 <= k < |ids| ==> ids[k] in monitors
  }

  /** The ids, in order, of the monitors the check does not skip. */
  function ActiveIds(ids: seq<string>, monitors: map<string, MonitorConfig>): (r: seq<string>)
    requires AllRegistered(ids, monitors)
    ensures |r| <= |ids|
    ensures AllRegistered(r, monitors)
    decreases |ids|
  {
    if ids == [] then []
    else
      var n := |ids| - 1;
      ActiveIds(ids[..n], monitors) + (if IsActive(monitors[ids[n]]) then [ids[n]] else [])
  }

  /** `new_findings`: each visited monitor's simulated findings, concatenated in visiting order. */
  function CycleFindings(ids: seq<string>, monitors: map<string, MonitorConfig>): seq<Finding>
    requires AllRegistered(ids, monitors)
    decreases |ids|
  {
    if ids == [] then []
    else
      var n := |ids| - 1;
      CycleFindings(ids[..n], monitors) + NewFindingsFor(KindOf(monitors[ids[n]]))
  }

  /** `alerts_generated`: one per visited monitor whose simulated findings are non-empty. */
  function CycleAlerts(ids: seq<string>, monitors: map<string, MonitorConfig>): nat
    requires AllRegistered(ids, monitors)
    decreases |ids|
  {
    if ids == [] then 0
    else
      var n := |ids| - 1;
      CycleAlerts(ids[..n], monitors) + (if |NewFindingsFor(KindOf(monitors[ids[n]]))| > 0 then 1 else 0)
  }

  function StatusOf(ids: seq<string>, monitors: map<string, MonitorConfig>, now: string): (r: seq<StatusEntry>)
    requires AllRegistered(ids, monitors)
  {
    seq(|ids|, k requires 0 <= k < |ids| => StatusEntry(ids[k], KindOf(monitors[ids[k]]), "ACTIVE", now, 1))
  }

  /** The check visits exactly the active monitors among `ids`, and nothing else. */
  lemma {:induction false} ActiveIdsExactlyActive(ids: seq<string>, monitors: map<string, MonitorConfig>)
    requires AllRegistered(ids, monitors)
    ensures forall k :: 0 <= k < |ActiveIds(ids, monitors)| ==>
      IsActive(monitors[ActiveIds(ids, monitors)[k]]) && ActiveIds(ids, monitors)[k] in ids
    ensures forall k :: 0 <= k < |ids| && IsActive(monitors[ids[k]]) ==> ids[k] in ActiveIds(ids, monitors)
    decreases |ids|
  {
    if ids != [] {
      var n := |ids| - 1;
      ActiveIdsExactlyActive(ids[..n], monitors);
      assert forall k :: 0 <= k < n ==> ids[..n][k] == ids[k];
    }
  }

  /** The active ids of a concatenation are those of each part, in order: a sub-list of `ids`. */
  lemma {:induction false} ActiveIdsAppend(s: seq<string>, t: seq<string>, monitors: map<string, MonitorConfig>)
    requires AllRegistered(s, monitors) && AllRegistered(t, monitors)
    ensures AllRegistered(s + t, monitors)
    ensures ActiveIds(s + t, monitors) == ActiveIds(s, monitors) + ActiveIds(t, monitors)
    decreases |t|
  {
    if t == [] {
      assert s + t == s;
    } else {
      var n := |t| - 1;
      ActiveIdsAppend(s, t[..n], monitors);
      assert (s + t)[..|s| + n] == s + t[..n];
      assert (s + t)[|s| + n] == t[n];
      var last := if IsActive(monitors[t[n]]) then [t[n]] else [];
      calc {
        ActiveIds(s + t, monitors);
        ActiveIds(s + t[..n], monitors) + last;
        (ActiveIds(s, monitors) + ActiveIds(t[..n], monitors)) + last;
        ActiveIds(s, monitors) + (ActiveIds(t[..n], monitors) + last);
      }
    }
  }

  /** Distinct registry ids give distinct visited ids, so the status dictionary has no repeated key. */
  lemma {:induction false} ActiveIdsDistinct(ids: seq<string>, monitors: map<string, MonitorConfig>)
    requires AllRegistered(ids, monitors) && Distinct(ids)
    ensures Distinct(ActiveIds(ids, monitors))
    decreases |ids|
  {
    if ids != [] {
      var n := |ids| - 1;
      ActiveIdsDistinct(ids[..n], monitors);
      ActiveIdsExactlyActive(ids[..n], monitors);
      assert ids[n] !in ids[..n];
    }
  }

  /** Visiting one more monitor extends the active list by it exactly when it is active. */
  lemma ActiveIdsStep(order: seq<string>, i: nat, monitors: map<string, MonitorConfig>)
    requires i < |order| && AllRegistered(order, monitors)
    ensures AllRegistered(order[..i], monitors) && AllRegistered(order[..i + 1], monitors)
    ensures ActiveIds(order[..i + 1], monitors) ==
      ActiveIds(order[..i], monitors) + (if IsActive(monitors[order[i]]) then [order[i]] else [])
  {
    assert order[..i + 1][..i] == order[..i];
  }

  /** Each report component grows by the contribution of the newly visited active monitor. */
  lemma CycleStep(ids: seq<string>, id: string, monitors: map<string, MonitorConfig>, now: string)
    requires AllRegistered(ids, monitors) && id in monitors
    ensures AllRegistered(ids + [id], monitors)
    ensures CycleFindings(ids + [id], monitors) == CycleFindings(ids, monitors) + NewFindingsFor(KindOf(monitors[id]))
    ensures CycleAlerts(ids + [id], monitors) ==
      CycleAlerts(ids, monitors) + (if |NewFindingsFor(KindOf(monitors[id]))| > 0 then 1 else 0)
    ensures StatusOf(ids + [id], monitors, now) ==
      StatusOf(ids, monitors, now) + [StatusEntry(id, KindOf(monitors[id]), "ACTIVE", now, 1)]
  {
    assert (ids + [id])[..|ids|] == ids;
  }

  /** One finding and one alert per visited monitor. */
  lemma {:induction false} CycleCounts(ids: seq<string>, monitors: map<string, MonitorConfig>)
    requires AllRegistered(ids, monitors)
    ensures |CycleFindings(ids, monitors)| == |ids|
    ensures CycleAlerts(ids, monitors) == |ids|
    decreases |ids|
  {
    if ids != [] {
      CycleCounts(ids[..|ids| - 1], monitors);
    }
  }

  /** When no monitor is marked inactive, the check visits every registered monitor. */
  lemma {:induction false} ActiveIdsAllActive(ids: seq<string>, monitors: map<string, MonitorConfig>)
    requires AllRegistered(ids, monitors)
    requires forall k :: 0 <= k < |ids| ==> IsActive(monitors[ids[k]])
    ensures ActiveIds(ids, monitors) == ids
    decreases |ids|
  {
    if ids != [] {
      var n := |ids| - 1;
      ActiveIdsAllActive(ids[..n], monitors);
      assert ids[..n] + [ids[n]] == ids;
    }
  }

  /** Research and news monitors have no `active` key, so the check never skips them. */
  lemma OnlyJobMonitorsCanBeSkipped(m: MonitorConfig)
    ensures !IsActive(m) ==> KindOf(m) == JobPostings && !m.active
  {
  }

  /**
   * `check_all_monitors()`. It reads the registry and writes nothing back: no
   * `last_checked` or `matches_found` is updated.
   */
  method CheckAllMonitors(mgr: MonitoringManager, now: string) returns (report: CheckReport)
    requires mgr.Valid()
    ensures report.checkTimestamp == now
    ensures report.monitorsChecked == |mgr.monitors|
    ensures report.newFindings == CycleFindings(ActiveIds(mgr.order, mgr.monitors), mgr.monitors)
    ensures report.alertsGenerated == CycleAlerts(ActiveIds(mgr.order, mgr.monitors), mgr.monitors)
    ensures report.monitorStatus == StatusOf(ActiveIds(mgr.order, mgr.monitors), mgr.monitors, now)
    // one finding and one alert per active monitor
    ensures report.alertsGenerated == |report.newFindings| == |ActiveIds(mgr.order, mgr.monitors)|
    // the status keys are exactly the active ids, in insertion order
    ensures |report.monitorStatus| == |ActiveIds(mgr.order, mgr.monitors)|
    ensures forall k :: 0 <= k < |report.monitorStatus| ==>
      report.monitorStatus[k].monitorId == ActiveIds(mgr.order, mgr.monitors)[k]
    ensures forall p, q :: 0 <= p < q < |report.monitorStatus| ==>
      report.monitorStatus[p].monitorId != report.monitorStatus[q].monitorId
  {
    var order := mgr.order;
    var monitors := mgr.monitors;
    var findings: seq<Finding> := [];
    var alerts: nat := 0;
    var status: seq<StatusEntry> := [];
    ghost var visited: seq<string> := [];
    var i := 0;
    assert order[..0] == [];
    while i < |order|
      invariant 0 <= i <= |order|
      invariant AllRegistered(order[..i], monitors) && AllRegistered(visited, monitors)
      invariant visited == ActiveIds(order[..i], monitors)
      invariant findings == CycleFindings(visited, monitors)
      invariant alerts == CycleAlerts(visited, monitors)
      invariant status == StatusOf(visited, monitors, now)
    {
      var id := order[i];
      var config := monitors[id];
      ActiveIdsStep(order, i, monitors);
      if IsActive(config) {
        CycleStep(visited, id, monitors, now);
        var found := NewFindingsFor(KindOf(config));
        if |found| > 0 {
          findings := findings + found;
          alerts := alerts + 1;
        }
        status := status + [StatusEntry(id, KindOf(config), "ACTIVE", now, 1)];
        visited := visited + [id];
      }
      i := i + 1;
    }
    assert order[..i] == order;
    CycleCounts(ActiveIds(order, monitors), monitors);
    ActiveIdsDistinct(order, monitors);
    report := CheckReport(now, |monitors|, alerts, findings, status);
  }
}
