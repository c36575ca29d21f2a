/** The iteration limit a route starts with, and what it means for the runs on that route. */
module ToolGroups {
  import opened AgentModel
  import opened AgentRuns
  import opened AgentTheorems

  datatype ExpertType = User | Coder | Infrastructure | Search | Planner | OtherExpert

  const SIMPLE_MAX_ITERATIONS := 8

  function BaseMaxIterations(expert: ExpertType): nat {
    match expert
    case User => 10
    case Coder => 30
    case Infrastructure => 30
    case Search => 15
    case Planner => 10
    case OtherExpert => 20
  }

  /** Tasks of at most three estimated steps are simple. */
  function GetMaxIterations(expert: ExpertType, estimatedSteps: int): (limit: nat)
    ensures SIMPLE_MAX_ITERATIONS <= limit <= ABSOLUTE_MAX_ITERATIONS
    ensures limit == SIMPLE_MAX_ITERATIONS <==> estimatedSteps <= 3
    ensures estimatedSteps > 3 ==> limit >= 3 * estimatedSteps || limit == 200
    ensures limit > 30 ==> limit == 3 * estimatedSteps || limit == 200
    ensures (expert.Coder? || expert.Infrastructure?) && 3 < estimatedSteps <= 10 ==> limit == 30
    ensures expert.OtherExpert? && 3 < estimatedSteps <= 6 ==> limit == 20
    ensures expert.Search? && 3 < estimatedSteps <= 5 ==> limit == 15
    ensures (expert.User? || expert.Planner?) && 3 < estimatedSteps <= 66 ==> limit == 3 * estimatedSteps
  {
    var base := BaseMaxIterations(expert);
    if estimatedSteps <= 3 then SIMPLE_MAX_ITERATIONS
    else
      var fromSteps := if estimatedSteps * 3 < 200 then estimatedSteps * 3 else 200;
      if base > fromSteps then base else fromSteps
  }

  /** More steps never mean a lower limit. */
  lemma {:induction false} LimitIsMonotone(expert: ExpertType, fewer: int, more: int)
    requires fewer <= more
    ensures GetMaxIterations(expert, fewer) <= GetMaxIterations(expert, more)
  {
  }

  /** On every route: the limit stays at or below 200 however often it is raised, the LLM is called at most 201
      times, and the run is over after at most 804 steps. */
  lemma {:induction false} RoutedRunEnds(
    expert: ExpertType, cfg: Config, memory: seq<Message>, xs: seq<Input>)
    requires cfg.Valid() && cfg.limit == GetMaxIterations(expert, cfg.estimatedSteps)
    ensures var m := Run(cfg, Initial(cfg, memory), xs);
      && m.s.pace.iterations <= m.s.pace.limit <= 200
      && CallsOf(m.log).made <= 201
      && (|xs| > 804 ==> m.Ended())
  {
    EveryRunEnds(cfg, memory, xs);
  }
}
