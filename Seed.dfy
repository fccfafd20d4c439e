/** The model the editor starts from (constants.tsx), and what the
    editor's operations do to it. */
module Seed {
  import opened Optional
  import opened Types
  import Seqs
  import Workflow

  const Levels: seq<OrgLevel> := [
    OrgLevel(StrategicLevel, "Strategic", "border-red-200", "bg-red-50/50"),
    OrgLevel(PortfolioLevel, "Portfolio", "border-purple-200", "bg-purple-50/50"),
    OrgLevel(TeamLevel, "Team", "border-blue-200", "bg-blue-50/50")
  ]

  const Teams: seq<Team> := [
    Team("t1", "Executive Team", ["CEO", "CPO", "CTO"], StrategicLevel, Some(StreamAligned),
         Some(["Board of Directors", "External Auditors", "Legal Counsel"])),
    Team("t2", "Product Ops", ["Operations Lead", "Agile Coach"], PortfolioLevel, Some(Enabling),
         Some(["HR Business Partners", "Finance", "Data Privacy Office"])),
    Team("t3", "Platform Squad", ["Eng Manager", "Lead Dev"], TeamLevel, Some(Platform),
         Some(["Cloud Provider Support", "Security Team", "Design Systems Group"]))
  ]

  const WorkItems: seq<WorkItem> := [
    WorkItem("w1", "EU AI Act Compliance", Input, StrategicLevel, None, None, None, Some("Regulation (External)")),
    WorkItem("w2", "Competitor X Series C", Input, StrategicLevel, None, None, None, Some("Market Trends")),
    WorkItem("w3", "Carbon Neutrality 2026", Input, PortfolioLevel,
             Some("Mandate filtered down from ESG Strategy"), None, None, Some("Strategic Directive")),
    WorkItem("w4", "Scale to 1M Users", Input, TeamLevel, None, None, None, Some("Portfolio Roadmap")),
    WorkItem("w5", "Latency Complaints", Input, TeamLevel, None, None, None, Some("Customer Support")),
    WorkItem("board_port", "Portfolio Board", Epic, PortfolioLevel,
             Some("Central tracker for all cross-team initiatives"), Some("t2"), None, None),
    WorkItem("board_team", "Team Jira Board", Story, TeamLevel,
             Some("Active development sprint board"), Some("t3"), None, None)
  ]

  const Rituals: seq<Ritual> := [
    Ritual("r_port_rev", "Portfolio Review", PortfolioLevel, None, ["VPs", "Directors", "Scrum Masters"],
           ["Review releases", "Review portfolio impacts", "Risk assessment"], "Weekly", Some("t2")),
    Ritual("r_standup", "Daily Standup", TeamLevel, None, ["Team", "Scrum Master"],
           ["Review blockers", "Yesterday/Today", "Help needed"], "Daily", Some("t3")),
    Ritual("r_demo", "Sprint Demo", TeamLevel, None, ["Team", "Stakeholders"],
           ["Showcase work", "Gather feedback"], "Bi-weekly", Some("t3"))
  ]

  const C1 := Connection("c1", "w1", "board_port", Some("Flows to"), Solid, None)
  const C2 := Connection("c2", "board_port", "r_port_rev", Some("Governed by"), Solid, None)
  const C3 := Connection("c3", "r_port_rev", "board_team", Some("Decomposes to"), Solid, None)
  const C4 := Connection("c4", "board_team", "r_standup", Some("Processes"), Solid, None)
  const C5 := Connection("c5", "r_standup", "r_demo", Some("Progresses to"), Dashed, None)
  const C6 := Connection("c6", "w3", "board_port", None, Solid, None)
  const C7 := Connection("c7", "w4", "board_team", None, Solid, None)

  const Initial := WorkflowModel(Levels, Teams, WorkItems, Rituals, [C1, C2, C3, C4, C5, C6, C7])

  /** Filtering seven elements of which the first, second and sixth fail
      the test leaves the third, fourth, fifth and seventh. */
  lemma FilterSeven<T(!new)>(a: T, b: T, c: T, d: T, e: T, f: T, g: T, keep: T -> bool)
    requires !keep(a) && !keep(b) && keep(c) && keep(d) && keep(e) && !keep(f) && keep(g)
    ensures Seqs.Filter([a, b, c, d, e, f, g], keep) == [c, d, e, g]
  {
    assert [f] + [g] == [f, g];
    assert [e] + [f, g] == [e, f, g];
    assert [d] + [e, f, g] == [d, e, f, g];
    assert [c] + [d, e, f, g] == [c, d, e, f, g];
    assert [b] + [c, d, e, f, g] == [b, c, d, e, f, g];
    assert [a] + [b, c, d, e, f, g] == [a, b, c, d, e, f, g];
    assert [c] + [d, e, g] == [c, d, e, g];
    assert [d] + [e, g] == [d, e, g];
    assert [e] + [g] == [e, g];
    Seqs.FilterSingleton(g, keep);
    Seqs.FilterCons(f, [g], keep);
    Seqs.FilterCons(e, [f, g], keep);
    Seqs.FilterCons(d, [e, f, g], keep);
    Seqs.FilterCons(c, [d, e, f, g], keep);
    Seqs.FilterCons(b, [c, d, e, f, g], keep);
    Seqs.FilterCons(a, [b, c, d, e, f, g], keep);
  }

  /** Which seed links touch the portfolio board. */
  lemma BoardLinks()
    ensures !Workflow.Untouched("board_port")(C1) && !Workflow.Untouched("board_port")(C2)
    ensures Workflow.Untouched("board_port")(C3) && Workflow.Untouched("board_port")(C4)
    ensures Workflow.Untouched("board_port")(C5) && !Workflow.Untouched("board_port")(C6)
    ensures Workflow.Untouched("board_port")(C7)
  {
    assert "r_port_rev"[0] != "board_port"[0];
    assert "board_team"[6] != "board_port"[6];
    assert "r_standup"[0] != "board_port"[0];
    assert |"r_demo"| != |"board_port"|;
    assert |"w4"| != |"board_port"|;
  }

  /** Deleting the portfolio board takes the three links that touch it
      (c1, c2, c6) with it and keeps the other four in order. */
  lemma DeletePortfolioBoard()
    ensures Workflow.DeleteSelected(Initial, Workflow.Selection(Workflow.WorkKind, "board_port")).connections
         == [C3, C4, C5, C7]
  {
    BoardLinks();
    FilterSeven(C1, C2, C3, C4, C5, C6, C7, Workflow.Untouched("board_port"));
  }

  /** Which seed links join the standup and the team board. */
  lemma StandupLinks()
    ensures !Workflow.Links(C1, "r_standup", "board_team") && !Workflow.Links(C2, "r_standup", "board_team")
    ensures !Workflow.Links(C3, "r_standup", "board_team") && Workflow.Links(C4, "r_standup", "board_team")
  {
    assert "w1"[0] != "r_standup"[0] && "w1"[0] != "board_team"[0];
    assert "board_port"[6] != "board_team"[6] && "board_port"[0] != "r_standup"[0];
    assert "r_port_rev"[2] != "r_standup"[2] && "r_port_rev"[0] != "board_team"[0];
  }

  /** The inspector's link button pressed on the standup for the team
      board, against the direction of c4, removes c4 and nothing else. */
  lemma ToggleStandupBoard(now: nat)
    ensures Workflow.Toggle(Initial, "r_standup", "board_team", now).connections == [C1, C2, C3, C5, C6, C7]
  {
    var cs := [C1, C2, C3, C4, C5, C6, C7];
    assert cs[3] == C4;
    StandupLinks();
    var k := Workflow.FindLink(cs, "r_standup", "board_team");
    assert k == 3;
    var r := Workflow.Toggle(Initial, "r_standup", "board_team", now).connections;
    assert r[0] == C1 && r[1] == C2 && r[2] == C3 && r[3] == C5 && r[4] == C6 && r[5] == C7;
  }

  /** No seed team is called `board_port`. */
  lemma NoBoardTeam()
    ensures Workflow.FindTeam(Teams, "board_port") == None
  {
    assert forall j :: 0 <= j < |Teams| ==> |Teams[j].id| != |"board_port"|;
  }

  /** The first seed work item with id `board_port` is the portfolio board. */
  lemma BoardWork()
    ensures Workflow.FindWork(WorkItems, "board_port") == Some(WorkItems[5])
  {
    assert forall j :: 0 <= j < 5 ==> |WorkItems[j].id| != |"board_port"|;
    assert WorkItems[6].id[6] != "board_port"[6];
  }

  /** The inspector's heading for the portfolio board is its title. */
  lemma BoardName()
    ensures Workflow.GetEntityName(Initial, "board_port") == "Portfolio Board"
  {
    NoBoardTeam();
    BoardWork();
    Workflow.EntityNameFromWork(Initial, "board_port", WorkItems[5]);
  }

  /** The seed model starts with every pair joined at most once. */
  lemma InitialLinksDistinct()
    ensures Workflow.NoDuplicateLinks(Initial.connections)
  {
  }
}
