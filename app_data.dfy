/**
 * The portfolio's record types and the seed content the page starts with:
 * two projects, two work experiences and the two-line hero headline.
 */
module AppData {

  /** The problem/process/outcome narrative shown in a project's modal. */
  datatype CaseStudy = CaseStudy(problem: string, process: string, outcome: string)

  /** A gallery entry. Projects have no identity field: their position in the list is their identity. */
  datatype Project = Project(title: string, imgSrc: string, tags: seq<string>, caseStudy: CaseStudy)

  /** The side of the timeline an experience is drawn on: 'left' or 'right'. */
  datatype Align = Left | Right

  /** A timeline entry. */
  datatype Experience = Experience(role: string, company: string, date: string, align: Align, points: seq<string>)

  /** One styled span of the headline: its text and the CSS class it is painted with. */
  datatype HeadlinePart = HeadlinePart(text: string, cls: string)

  /** Adjacent timeline entries sit on opposite sides. */
  predicate Alternates(experiences: seq<Experience>) {
    forall i :: 0 < i < |experiences| ==> experiences[i].align != experiences[i - 1].align
  }

  /** The two seed projects; each carries four tags. */
  function InitialProjects(): (projects: seq<Project>)
    ensures |projects| == 2
    ensures forall i :: 0 <= i < |projects| ==> |projects[i].tags| == 4
  {
    [
      Project(
        "Incident Dashboard for SOC Monitoring",
        SocImage,
        SeedTags,
        CaseStudy(
          SocProblem,
          SocProcess,
          SocOutcome)),
      Project(
        "HR Analytics Dashboard",
        HrImage,
        SeedTags,
        CaseStudy(
          HrProblem,
          HrProcess,
          HrOutcome))
    ]
  }

  /** The two seed experiences, drawn right then left, so the timeline already alternates. */
  function InitialExperiences(): (experiences: seq<Experience>)
    ensures |experiences| == 2
    ensures experiences[0].align == Right && experiences[1].align == Left
    ensures Alternates(experiences)
  {
    [
      Experience(
        "Data Analyst Intern",
        "Intelizign, Chennai",
        "Jan 2025 - Mar 2025",
        Right,
        [
          InternPoint1,
          InternPoint2,
          InternPoint3,
          InternPoint4
        ]),
      Experience(
        "SOC Operation Intern",
        "L&T Technology Services, Chennai",
        "Jul 2024 - Aug 2024",
        Left,
        [
          SocInternPoint1,
          SocInternPoint2,
          SocInternPoint3,
          SocInternPoint4
        ])
    ]
  }

  /** The hero headline: two lines of two styled spans each. */
  function InitialHeadlineParts(): (lines: seq<seq<HeadlinePart>>)
    ensures |lines| == 2 && |lines[0]| == 2 && |lines[1]| == 2
    ensures lines[0][0].cls == lines[1][0].cls == "text-gray-900"
    ensures lines[0][1].text == "Data" && lines[1][1].text == "Insights"
  {
    [
      [HeadlinePart("Turning ", "text-gray-900"), HeadlinePart("Data", "text-indigo-600")],
      [HeadlinePart("Into ", "text-gray-900"), HeadlinePart("Insights", "text-emerald-500")]
    ]
  }

  // The seed texts, one constant each; both seed projects carry the same tags.
  const SeedTags: seq<string> := ["Python", "Power BI", "Microsoft Excel", "SQL"]
  const SocImage: string := "https://images.unsplash.com/photo-1551288049-bebda4e38f71?q=80&w=2070&auto=format&fit=crop&ixlib=rb-4.0.3"
  const SocProblem: string := "The Security Operations Center (SOC) team lacked a centralized, real-time view of security incidents, leading to delayed response times and difficulty in identifying threat patterns across disparate systems."
  const SocProcess: string := "I engineered a data pipeline using SQL to extract and aggregate logs from firewalls, proxies, and endpoints. Using Python (Pandas) for data cleaning and transformation, I structured the data for analysis. The final step was to build an interactive dashboard in Power BI, featuring drill-down capabilities and trend visualizations."
  const SocOutcome: string := "Delivered a unified dashboard that reduced incident identification time by 40%. The visualizations helped the SOC team proactively identify recurring threats and strengthen security protocols, leading to a 15% decrease in low-priority alerts."
  const HrImage: string := "https://images.unsplash.com/photo-1542744173-8e7e53415bb0?q=80&w=2070&auto=format&fit=crop&ixlib=rb-4.0.3"
  const HrProblem: string := "The HR department relied on manual, time-consuming spreadsheet analysis for key metrics like employee attrition and performance, which made strategic workforce planning difficult and reactive."
  const HrProcess: string := "I consolidated data from multiple Excel sources into a structured dataset. Using Power BI and DAX, I developed key performance indicators (KPIs) for attrition rate, headcount, and performance scores. The final product was an interactive dashboard that allowed HR managers to filter data by department, tenure, and other dimensions."
  const HrOutcome: string := "The dashboard provided a clear, real-time view of HR metrics, saving the team approximately 10 hours of manual reporting per week. The insights from the attrition analysis led to a new employee retention strategy, which contributed to a 5% reduction in voluntary turnover in the following quarter."
  const InternPoint1: string := "Engineered and maintained data pipelines using SQL and Python, transforming raw data into actionable datasets for analysis."
  const InternPoint2: string := "Developed interactive Power BI dashboards that provided key stakeholders with insights into workforce performance and operational efficiency."
  const InternPoint3: string := "Optimized dashboard query performance by 30% through advanced DAX formulas and data model refinements."
  const InternPoint4: string := "Translated complex findings into clear, concise reports that enabled data-driven strategic planning."
  const SocInternPoint1: string := "Conducted real-time threat monitoring and analysis within a fast-paced Security Operations Center (SOC) environment."
  const SocInternPoint2: string := "Utilized industry-leading SIEM platforms to dissect logs from firewalls, proxies, and endpoints, identifying anomalous patterns indicative of security threats."
  const SocInternPoint3: string := "Played an active role in the incident investigation process by escalating credible threats and providing detailed analysis to senior team members."
  const SocInternPoint4: string := "Contributed to the refinement of threat detection workflows, directly helping to strengthen the organization's overall security posture."
}
