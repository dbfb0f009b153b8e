/** The Goals page (src/pages/Goals.tsx): each goal has a direction-dependent
    progress percentage and is rendered according to its type; overview cards
    count goals by status. */
module Goals {
  import opened Collections
  import opened Kinds
  import Percent

  /** A goal. `kind` is the source's `type`: 'income', 'expense',
      'business', 'financial', 'quality', 'savings' or any other string. */
  datatype Goal = Goal(
    id: int,
    title: string,
    target: int,
    current: int,
    kind: string,
    status: string)

  const COMPLETED: string := "completed"
  const ON_TRACK: string := "on-track"
  const AT_RISK: string := "at-risk"

  /** `calculateProgress`. An 'expense' goal is one to reduce, so its
      progress is the share of the target not yet used; every other goal
      accumulates towards its target. Both are clamped to [0, 100]. */
  function Progress(g: Goal): (r: real)
    requires g.target != 0
    ensures 0.0 <= r <= 100.0
  {
    if g.kind == EXPENSE then Percent.Clamp(Percent.Ratio(g.target - g.current, g.target))
    else Percent.Clamp(Percent.Ratio(g.current, g.target))
  }

  /** An expense goal with a positive target: none of the progress is left
      once the current amount reaches the target, all of it while nothing is
      spent, and in between the unspent share of the target. */
  lemma ExpenseGoalProgress(g: Goal)
    requires g.kind == EXPENSE && g.target > 0
    ensures g.current >= g.target ==> Progress(g) == 0.0
    ensures g.current <= 0 ==> Progress(g) == 100.0
    ensures 0 < g.current < g.target ==>
      Progress(g) * g.target as real == (g.target - g.current) as real * 100.0
    ensures Progress(g) == 0.0 <==> g.current >= g.target
  {
    Percent.RatioOrder(g.target - g.current, g.target);
  }

  /** Any other goal with a positive target: complete once the current
      amount reaches the target, nothing while it is zero or below, and in
      between the reached share of the target. */
  lemma AccumulationGoalProgress(g: Goal)
    requires g.kind != EXPENSE && g.target > 0
    ensures g.current >= g.target ==> Progress(g) == 100.0
    ensures g.current <= 0 ==> Progress(g) == 0.0
    ensures 0 < g.current < g.target ==>
      Progress(g) * g.target as real == g.current as real * 100.0
    ensures Progress(g) == 100.0 <==> g.current >= g.target
  {
    Percent.RatioOrder(g.current, g.target);
  }

  /** The branch is chosen by the type alone: two goals with the same
      figures and non-expense types progress alike, and within the target an
      expense goal's progress is the complement of an accumulating goal's. */
  lemma ProgressChosenByTypeOnly(g: Goal, h: Goal)
    requires g.target == h.target && g.current == h.current && g.target != 0
    ensures g.kind != EXPENSE && h.kind != EXPENSE ==> Progress(g) == Progress(h)
    ensures g.kind == EXPENSE && h.kind != EXPENSE && g.target > 0 && 0 <= g.current <= g.target ==>
      Progress(g) + Progress(h) == 100.0
  {
    if g.kind == EXPENSE && h.kind != EXPENSE && g.target > 0 && 0 <= g.current <= g.target {
      Percent.RatioOrder(g.target - g.current, g.target);
      Percent.RatioOrder(g.current, g.target);
      Percent.RatiosComplement(g.current, g.target);
    }
  }

  /** How a figure is rendered: with a '%' suffix, as "current/target", as a
      bare number, or as a KES currency amount. */
  datatype Rendered = WithPercent(n: int) | OutOf(current: int, target: int) | Bare(n: int) | Kes(n: int)

  predicate IsPercentKind(kind: string)
  {
    kind == "financial" || kind == "quality"
  }

  /** `formatValue`: how the current figure is rendered. */
  function FormatValue(g: Goal): (r: Rendered)
    ensures r.WithPercent? <==> IsPercentKind(g.kind)
    ensures r.OutOf? <==> g.kind == "business"
    ensures r.Kes? <==> !IsPercentKind(g.kind) && g.kind != "business"
    ensures !r.OutOf? ==> !r.Bare? && r.n == g.current
    ensures r.OutOf? ==> r == OutOf(g.current, g.target)
  {
    if IsPercentKind(g.kind) then WithPercent(g.current)
    else if g.kind == "business" then OutOf(g.current, g.target)
    else Kes(g.current)
  }

  /** `formatTarget`: how the target figure is rendered. */
  function FormatTarget(g: Goal): (r: Rendered)
    ensures r.WithPercent? <==> IsPercentKind(g.kind)
    ensures r.Bare? <==> g.kind == "business"
    ensures r.Kes? <==> !IsPercentKind(g.kind) && g.kind != "business"
    ensures !r.OutOf? && r.n == g.target
  {
    if IsPercentKind(g.kind) then WithPercent(g.target)
    else if g.kind == "business" then Bare(g.target)
    else Kes(g.target)
  }

  /** The value and the target of a goal are rendered in the same style,
      except that a business goal's value also carries its target. */
  lemma FormatsAgree(g: Goal)
    ensures FormatValue(g).WithPercent? == FormatTarget(g).WithPercent?
    ensures FormatValue(g).Kes? == FormatTarget(g).Kes?
    ensures FormatValue(g).OutOf? ==> FormatValue(g).target == FormatTarget(g).n
  {
  }

  /** The overview cards: the number of goals and how many are completed,
      on track or at risk. */
  datatype GoalCounts = GoalCounts(total: nat, completed: nat, onTrack: nat, atRisk: nat)

  /** Each count matches one exact status; goals of any other status (such
      as 'in-progress') fall in none, so the three never exceed the total. */
  function CountsOf(gs: seq<Goal>): (c: GoalCounts)
    ensures c.total == |gs|
    ensures c.completed + c.onTrack + c.atRisk <= c.total
  {
    var completed := (g: Goal) => g.status == COMPLETED;
    var onTrack := (g: Goal) => g.status == ON_TRACK;
    var atRisk := (g: Goal) => g.status == AT_RISK;
    ExclusiveCountsBounded(completed, onTrack, atRisk, gs);
    GoalCounts(|gs|, Count(completed, gs), Count(onTrack, gs), Count(atRisk, gs))
  }

  /** The Completed card's success rate: the completed goals as a
      percentage of all goals, within [0, 100]. */
  function SuccessRate(gs: seq<Goal>): (r: real)
    requires |gs| != 0
    ensures r * |gs| as real == CountsOf(gs).completed as real * 100.0
    ensures 0.0 <= r <= 100.0
  {
    Percent.RatioOrder(CountsOf(gs).completed, |gs|);
    Percent.Ratio(CountsOf(gs).completed, |gs|)
  }

  /** The rate is 100 exactly when every goal is completed, and 0 exactly
      when none is. */
  lemma SuccessRateExtremes(gs: seq<Goal>)
    requires |gs| != 0
    ensures SuccessRate(gs) == 100.0 <==> forall i :: 0 <= i < |gs| ==> gs[i].status == COMPLETED
    ensures SuccessRate(gs) == 0.0 <==> forall i :: 0 <= i < |gs| ==> gs[i].status != COMPLETED
  {
    var completed := (g: Goal) => g.status == COMPLETED;
    Percent.RatioOrder(CountsOf(gs).completed, |gs|);
    CountAll(completed, gs);
    CountNone(completed, gs);
  }
}
