/** The plan that the orchestrator gives every project. */
module Plans {
  import opened Domain
  import opened Soundness
  import opened Coupling
  import Workflow

  function BuildPlan(): seq<TaskShape> {
    [
      TaskShape("task-research", "Research baseline", Research, []),
      TaskShape("task-design", "Design architecture", Design, ["task-research"]),
      TaskShape("task-build", "Build scaffold", Build, ["task-design"]),
      TaskShape("task-trend", "Trend analysis", Trend, ["task-design"]),
      TaskShape("task-review", "Review output", Review, ["task-build", "task-trend"])
    ]
  }

  /** The plan is one to which every theorem about runs applies. */
  lemma BuildPlanIsGood()
    ensures GoodPlan(BuildPlan())
  {
    var plan := BuildPlan();
    assert plan[1].id[5] == 'd' && plan[2].id[5] == 'b' && plan[3].id[5] == 't';
    assert plan[0].id[7] == 's' && plan[4].id[7] == 'v';
    assert InDependencyOrder(plan) by {
      forall i, d | 0 <= i < |plan| && d in plan[i].dependsOn
        ensures exists j :: 0 <= j < i && plan[j].id == d
      {
        assert plan[0].id == "task-research" && plan[1].id == "task-design";
        assert plan[2].id == "task-build" && plan[3].id == "task-trend";
      }
    }
    forall mode
      ensures ClosedUnderDependents(plan, Workflow.ResetDepartments(mode))
    {
      match mode
      case Replanning =>
      case Rebuilding =>
      case Rereview =>
    }
  }
}
