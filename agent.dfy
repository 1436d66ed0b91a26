/** The multi-agent problem solver's step functions, each a fixed text
    template, and the bounded conflict-resolution loop that re-collects
    role thoughts until the text reports no conflicts. */
module Agent {
  import opened Text

  // ---------------------------------------------------------------------
  // Templates that embed their argument
  // ---------------------------------------------------------------------

  /** `head + x + tail`: the argument sits verbatim between a fixed head and tail. */
  function Fill(head: string, x: string, tail: string): (r: string)
    ensures |r| == |head| + |x| + |tail|
    ensures r[..|head|] == head && r[|head|..|r| - |tail|] == x && r[|r| - |tail|..] == tail
    ensures Contains(r, x)
  {
    var r := head + x + tail;
    assert r[|head|..|head| + |x|] == x;
    assert OccursAt(r, x, |head|);
    r
  }

  /** Two fillings of the same template are equal only for equal arguments. */
  lemma FillInjective(head: string, tail: string, x: string, y: string)
    requires Fill(head, x, tail) == Fill(head, y, tail)
    ensures x == y
  {
  }

  const DataCollectionHead := "\n    Data Collection:\n    Problem Statement: "
  const DataCollectionTail := "\n    \n    Collected Context:\n    - Key statistics: Example stats from global reports\n    - Relevant case studies: Referenced from domain sources\n    - Benchmarks and best practices: Summarized from web search\n    "

  /** `collect_problem_data`: the problem statement, verbatim, inside the data-collection report. */
  function CollectProblemData(problemStatement: string): (r: string)
    ensures |r| == |DataCollectionHead| + |problemStatement| + |DataCollectionTail|
    ensures Contains(r, problemStatement)
    ensures r[|DataCollectionHead|..|r| - |DataCollectionTail|] == problemStatement
  {
    Fill(DataCollectionHead, problemStatement, DataCollectionTail)
  }

  const RolesHead := "\n    Problem Context: "
  const RolesTail := "\n    \n    Dynamically Identified Roles:\n    - Technical Expert\n    - Domain Specialist\n    - UX Consultant\n    - Regulatory Advisor\n    - Strategy Analyst\n    "

  /** `identify_roles`: the problem context, verbatim, above the fixed list of five roles. */
  function IdentifyRoles(problemContext: string): (r: string)
    ensures |r| == |RolesHead| + |problemContext| + |RolesTail|
    ensures Contains(r, problemContext)
    ensures r[|RolesHead|..|r| - |RolesTail|] == problemContext
  {
    Fill(RolesHead, problemContext, RolesTail)
  }

  const PromptsHead := "\n    Role Prompts Generated:\n    "
  const PromptsTail := "\n    \n    Prompts:\n    - Technical Expert Prompt: Analyze technical feasibility.\n    - Domain Specialist Prompt: Identify domain-specific constraints.\n    - UX Consultant Prompt: Assess usability and user impact.\n    - Regulatory Advisor Prompt: Highlight compliance risks.\n    - Strategy Analyst Prompt: Evaluate long-term strategic impact.\n    "

  /** `generate_role_prompts`: the roles, verbatim, above one prompt per role. */
  function GenerateRolePrompts(roles: string): (r: string)
    ensures |r| == |PromptsHead| + |roles| + |PromptsTail|
    ensures Contains(r, roles)
    ensures r[|PromptsHead|..|r| - |PromptsTail|] == roles
  {
    Fill(PromptsHead, roles, PromptsTail)
  }

  const SynthesisHead := "\n    === FINAL INTEGRATED SOLUTION ===\n    "
  const SynthesisTail := "\n    \n    - All role perspectives integrated\n    - Actionable recommendations provided\n    - References and risk considerations included\n    "

  /** `synthesize_final_solution`: the prioritised solutions, verbatim, under the final-solution banner. */
  function SynthesizeFinalSolution(prioritizedSolutions: string): (r: string)
    ensures |r| == |SynthesisHead| + |prioritizedSolutions| + |SynthesisTail|
    ensures Contains(r, prioritizedSolutions)
    ensures r[|SynthesisHead|..|r| - |SynthesisTail|] == prioritizedSolutions
  {
    Fill(SynthesisHead, prioritizedSolutions, SynthesisTail)
  }

  /** No embedding template loses information: different arguments give different texts. */
  lemma EmbeddingTemplatesInjective(x: string, y: string)
    ensures CollectProblemData(x) == CollectProblemData(y) ==> x == y
    ensures IdentifyRoles(x) == IdentifyRoles(y) ==> x == y
    ensures GenerateRolePrompts(x) == GenerateRolePrompts(y) ==> x == y
    ensures SynthesizeFinalSolution(x) == SynthesizeFinalSolution(y) ==> x == y
  {
    if CollectProblemData(x) == CollectProblemData(y) {
      FillInjective(DataCollectionHead, DataCollectionTail, x, y);
    }
    if IdentifyRoles(x) == IdentifyRoles(y) {
      FillInjective(RolesHead, RolesTail, x, y);
    }
    if GenerateRolePrompts(x) == GenerateRolePrompts(y) {
      FillInjective(PromptsHead, PromptsTail, x, y);
    }
    if SynthesizeFinalSolution(x) == SynthesizeFinalSolution(y) {
      FillInjective(SynthesisHead, SynthesisTail, x, y);
    }
  }

  // ---------------------------------------------------------------------
  // Templates that ignore their argument
  // ---------------------------------------------------------------------

  /** One line of the role-thoughts template: a role, its thought and a reference. */
  function ThoughtLine(role: string, thought: string, reference: string): string
  {
    "\n    - " + role + ": " + thought + " [Ref: " + reference + "]"
  }

  /** The role, thought and reference of each line of the role-thoughts template. */
  const RoleLines: seq<(string, string, string)> := [
    ("Technical Expert", "Scalability, reliability, modern tech stack.", "Tech sources"),
    ("Domain Specialist", "Domain constraints and opportunities.", "Domain sources"),
    ("UX Consultant", "Usability and accessibility.", "UX research"),
    ("Regulatory Advisor", "Compliance obligations.", "Regulatory sources"),
    ("Strategy Analyst", "Long-term strategic impact.", "Strategy sources")
  ]

  /** The thought lines of a list of entries, one after the other. */
  function ThoughtLines(lines: seq<(string, string, string)>): string
  {
    if lines == [] then []
    else ThoughtLine(lines[0].0, lines[0].1, lines[0].2) + ThoughtLines(lines[1..])
  }

  const RoleThoughtsText := "\n    Collected Role Thoughts:" + ThoughtLines(RoleLines) + "\n    "

  /** The text whose presence ends the conflict-resolution loop. */
  const Marker := "No conflicts"

  /** A thought line has a capital N only where its role, thought or reference does. */
  lemma ThoughtLineLacksN(role: string, thought: string, reference: string)
    requires 'N' !in role && 'N' !in thought && 'N' !in reference
    ensures 'N' !in ThoughtLine(role, thought, reference)
  {
    assert 'N' !in "\n    - " by {
      var s := "\n    - ";
      forall i | 0 <= i < |s| ensures s[i] != 'N' { }
    }
    assert 'N' !in ": " by {
      var s := ": ";
      forall i | 0 <= i < |s| ensures s[i] != 'N' { }
    }
    assert 'N' !in " [Ref: " by {
      var s := " [Ref: ";
      forall i | 0 <= i < |s| ensures s[i] != 'N' { }
    }
  }

  /** No line of the role-thoughts template has a capital N. */
  lemma RoleLineLacksN(k: nat)
    requires k < |RoleLines|
    ensures 'N' !in ThoughtLine(RoleLines[k].0, RoleLines[k].1, RoleLines[k].2)
  {
    var (role, thought, reference) := RoleLines[k];
    forall i | 0 <= i < |role| ensures role[i] != 'N' { }
    forall i | 0 <= i < |thought| ensures thought[i] != 'N' { }
    forall i | 0 <= i < |reference| ensures reference[i] != 'N' { }
    ThoughtLineLacksN(role, thought, reference);
  }

  /** The thought lines of the template's entries from the k-th on have no capital N. */
  lemma {:induction false} RoleLinesLackN(k: nat)
    requires k <= |RoleLines|
    ensures 'N' !in ThoughtLines(RoleLines[k..])
    decreases |RoleLines| - k
  {
    if k < |RoleLines| {
      RoleLineLacksN(k);
      RoleLinesLackN(k + 1);
      assert RoleLines[k..][1..] == RoleLines[k + 1..];
    }
  }

  /** The role-thoughts template has no capital N anywhere, so it cannot hold the marker. */
  lemma RoleThoughtsLackMarker()
    ensures !Contains(RoleThoughtsText, Marker)
  {
    assert 'N' !in "\n    Collected Role Thoughts:" by {
      var s := "\n    Collected Role Thoughts:";
      forall i | 0 <= i < |s| ensures s[i] != 'N' { }
    }
    assert 'N' !in "\n    " by {
      var s := "\n    ";
      forall i | 0 <= i < |s| ensures s[i] != 'N' { }
    }
    RoleLinesLackN(0);
    assert RoleLines[0..] == RoleLines;
    AbsentFirstCharNotContained(RoleThoughtsText, Marker);
  }

  /** `collect_role_thoughts`: the fixed list of role thoughts, whatever the
      prompts; it never reports "No conflicts". */
  function CollectRoleThoughts(rolePrompts: string): (r: string)
    ensures r == RoleThoughtsText
    ensures !Contains(r, Marker)
  {
    RoleThoughtsLackMarker();
    RoleThoughtsText
  }

  /** `fact_check_role_thoughts`: a fixed verdict. */
  function FactCheckRoleThoughts(roleThoughts: string): string
  {
    "\n    Fact Check Results:\n    - All critical claims verified\n    - Minor references updated\n    - All role outputs validated\n    "
  }

  /** `run_simulations`: three fixed scenarios. */
  function RunSimulations(roleThoughts: string): string
  {
    "\n    Simulation Results:\n    - Scenario 1: Feasible, low risk\n    - Scenario 2: Medium risk, needs mitigation\n    - Scenario 3: High impact, moderate feasibility\n    "
  }

  /** `score_solutions`: a fixed ranking. */
  function ScoreSolutions(simulationResults: string): string
  {
    "\n    Ranked Solutions:\n    1. Solution A (Confidence: High, Feasibility: 9/10)\n    2. Solution B (Confidence: Medium, Feasibility: 7/10)\n    3. Solution C (Confidence: Medium-Low, Feasibility: 6/10)\n    "
  }

  /** `generate_visuals`: a fixed dashboard description. */
  function GenerateVisuals(finalSolution: string): string
  {
    "\n    Dashboard Generated:\n    - Side-by-side role insights\n    - Confidence and feasibility heatmaps\n    - Risk and mitigation charts\n    "
  }

  // ---------------------------------------------------------------------
  // resolve_conflicts
  // ---------------------------------------------------------------------

  /** How the conflict check ended, and after how many re-collections. */
  datatype Outcome = NoConflicts(iterations: nat) | Resolved(iterations: nat)

  const NoConflictsHead := "Conflict Check: No conflicts after "
  const ResolvedHead := "Conflict Check: Conflicts resolved after "
  const IterationsTail := " iterations."

  /** The message `resolve_conflicts` returns for an outcome. */
  function Report(o: Outcome): string
  {
    match o
    case NoConflicts(n) => NoConflictsHead + Decimal(n) + IterationsTail
    case Resolved(n) => ResolvedHead + Decimal(n) + IterationsTail
  }

  /** The message tells the outcome and the iteration count apart. */
  lemma ReportInjective(o: Outcome, o': Outcome)
    requires Report(o) == Report(o')
    ensures o == o'
  {
    var r := Report(o);
    assert NoConflictsHead[16] == 'N' && ResolvedHead[16] == 'C';
    assert r[16] == (if o.NoConflicts? then 'N' else 'C');
    assert r[16] == (if o'.NoConflicts? then 'N' else 'C');
    var head := if o.NoConflicts? then NoConflictsHead else ResolvedHead;
    assert r[|head|..|r| - |IterationsTail|] == Decimal(o.iterations);
    assert r[|head|..|r| - |IterationsTail|] == Decimal(o'.iterations);
    DecimalInjective(o.iterations, o'.iterations);
  }

  /** The thoughts after `n` re-collections. */
  function Iterate(thoughts: string, n: nat): string
  {
    if n == 0 then thoughts else CollectRoleThoughts(Iterate(thoughts, n - 1))
  }

  /** What the loop does from counter `iteration` with thoughts `current`:
      stop once the counter reaches `maxIterations`, report no conflicts when
      the marker is present, and otherwise re-collect and count one more. */
  function ResolveFrom(current: string, iteration: nat, maxIterations: int): Outcome
    decreases maxIterations - iteration
  {
    if iteration >= maxIterations then Resolved(iteration)
    else if Contains(current, Marker) then NoConflicts(iteration)
    else ResolveFrom(CollectRoleThoughts(current), iteration + 1, maxIterations)
  }

  /** The outcome of `resolve_conflicts(roleThoughts, maxIterations)`. */
  function Resolution(roleThoughts: string, maxIterations: int): Outcome
  {
    ResolveFrom(roleThoughts, 0, maxIterations)
  }

  /** `resolve_conflicts`: checks for the marker before each re-collection,
      and stops at the first marker or after `maxIterations` re-collections. */
  method ResolveConflicts(roleThoughts: string, maxIterations: int) returns (report: string)
    ensures report == Report(Resolution(roleThoughts, maxIterations))
  {
    var iteration: nat := 0;
    var currentThoughts := roleThoughts;
    while iteration < maxIterations
      invariant currentThoughts == Iterate(roleThoughts, iteration)
      invariant ResolveFrom(currentThoughts, iteration, maxIterations) == Resolution(roleThoughts, maxIterations)
      decreases maxIterations - iteration
    {
      var conflictsDetected := !Contains(currentThoughts, Marker);
      if !conflictsDetected {
        return Report(NoConflicts(iteration));
      }
      currentThoughts := CollectRoleThoughts(currentThoughts);
      iteration := iteration + 1;
    }
    return Report(Resolved(iteration));
  }

  /** The loop ends at the first point where the marker is present, or
      after `max(0, maxIterations)` re-collections when it never is; the count it
      reports is the number of re-collections made. */
  lemma {:induction false} ResolveFromFirstMarker(thoughts: string, iteration: nat, maxIterations: int)
    requires forall j :: 0 <= j < iteration ==> !Contains(Iterate(thoughts, j), Marker)
    ensures var o := ResolveFrom(Iterate(thoughts, iteration), iteration, maxIterations);
            && iteration <= o.iterations
            && (forall j :: 0 <= j < o.iterations ==> !Contains(Iterate(thoughts, j), Marker))
            && (o.NoConflicts? ==> o.iterations < maxIterations && Contains(Iterate(thoughts, o.iterations), Marker))
            && (o.Resolved? ==> o.iterations == if iteration >= maxIterations then iteration else maxIterations)
    decreases maxIterations - iteration
  {
    if iteration < maxIterations && !Contains(Iterate(thoughts, iteration), Marker) {
      ResolveFromFirstMarker(thoughts, iteration + 1, maxIterations);
    }
  }

  /** `resolve_conflicts` by its meaning: "no conflicts after n" means the
      marker first appears after n re-collections, with n below the bound;
      "resolved after n" means the marker never appeared in the n =
      max(0, maxIterations) texts examined. Either way at most
      max(0, maxIterations) re-collections are made. */
  lemma ResolutionMeaning(thoughts: string, maxIterations: int)
    ensures var o := Resolution(thoughts, maxIterations);
            && o.iterations <= (if maxIterations > 0 then maxIterations else 0)
            && (forall j :: 0 <= j < o.iterations ==> !Contains(Iterate(thoughts, j), Marker))
            && (o.NoConflicts? ==> Contains(Iterate(thoughts, o.iterations), Marker))
            && (o.Resolved? ==> o.iterations == if maxIterations > 0 then maxIterations else 0)
  {
    ResolveFromFirstMarker(thoughts, 0, maxIterations);
  }

  /** After one re-collection the marker never appears again, so the loop
      runs to its bound. */
  lemma {:induction false} ResolveFromNoMarker(current: string, iteration: nat, maxIterations: int)
    requires !Contains(current, Marker)
    ensures ResolveFrom(current, iteration, maxIterations) ==
              Resolved(if iteration >= maxIterations then iteration else maxIterations)
    decreases maxIterations - iteration
  {
    if iteration < maxIterations {
      ResolveFromNoMarker(CollectRoleThoughts(current), iteration + 1, maxIterations);
    }
  }

  /** The whole behaviour in closed form: the marker in the input (with a
      positive bound) gives "no conflicts after 0"; anything else is
      "resolved after max(0, maxIterations)". */
  lemma ResolutionClosedForm(thoughts: string, maxIterations: int)
    ensures Resolution(thoughts, maxIterations) ==
              if maxIterations > 0 && Contains(thoughts, Marker) then NoConflicts(0)
              else Resolved(if maxIterations > 0 then maxIterations else 0)
  {
    if maxIterations > 0 && !Contains(thoughts, Marker) {
      ResolveFromNoMarker(CollectRoleThoughts(thoughts), 1, maxIterations);
    }
  }

  /** With the default bound of 3 and the marker absent, the report is "resolved after 3". */
  lemma DefaultBoundReport(thoughts: string)
    requires !Contains(thoughts, Marker)
    ensures Report(Resolution(thoughts, 3)) == "Conflict Check: Conflicts resolved after 3 iterations."
  {
    ResolutionClosedForm(thoughts, 3);
    assert Decimal(3) == "3";
  }
}
