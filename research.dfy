/**
 * The research workflow's own nodes: the human review of the planned outline, which
 * either fans out one section expert per researched section or sends the feedback back
 * to the planner, and the gathering of the experts' summaries into the outline.
 */
module Research {
  import opened Wrappers
  import opened Strings
  import opened Graph
  import opened MacroReport
  import Expert

  /** The workflow state seen by these nodes. */
  datatype State = State(
    message: string,
    feedback: string,
    outline: Option<Outline>,
    summarizations: seq<Expert.Summarization>,
    markdown: string)

  /** The input of one section expert: `{"section": ..., "topic": ...}`. */
  datatype SectionTask = SectionTask(section: Section, topic: string)

  /** The planner's input, sent back with the accumulated feedback. */
  datatype PlanningInput = PlanningInput(message: string, feedback: string)

  const MainSectionExpert: string := "main-section-expert"
  const MainPlan: string := "main-plan"

  /** One expert task per researched section, in outline order. */
  function ResearchTasks(sections: seq<Section>, topic: string): (r: seq<Send<SectionTask>>)
    ensures |r| <= |sections|
    ensures forall k :: 0 <= k < |r| ==> r[k].node == MainSectionExpert && r[k].arg.topic == topic && r[k].arg.section.research
  {
    if sections == [] then []
    else (if sections[0].research then [Send(MainSectionExpert, SectionTask(sections[0], topic))] else [])
         + ResearchTasks(sections[1..], topic)
  }

  /** The researched sections of an outline, in order. */
  function Researched(sections: seq<Section>): seq<Section> {
    if sections == [] then [] else (if sections[0].research then [sections[0]] else []) + Researched(sections[1..])
  }

  /** The tasks carry exactly the researched sections, in order; none at all when no section is researched. */
  lemma {:induction false} ResearchTasksAreResearched(sections: seq<Section>, topic: string)
    ensures |ResearchTasks(sections, topic)| == |Researched(sections)|
    ensures forall k :: 0 <= k < |Researched(sections)| ==>
      ResearchTasks(sections, topic)[k] == Send(MainSectionExpert, SectionTask(Researched(sections)[k], topic))
    ensures (forall i :: 0 <= i < |sections| ==> !sections[i].research) ==> ResearchTasks(sections, topic) == []
  {
    if sections != [] {
      ResearchTasksAreResearched(sections[1..], topic);
    }
  }

  /**
   * `review_plan`, given the reviewer's answer `resume`: "y" in any case fans out the
   * section experts; anything else goes back to the planner with the feedback appended
   * on a new line. The node refuses a state without an outline.
   */
  function ReviewPlan(state: State, resume: string): (r: Result<Command<PlanningInput, SectionTask>>)
    ensures state.outline.None? <==> r == Err(ValueError("Outline is empty or None."))
    ensures state.outline.Some? && IsYes(resume) ==>
      r == Ok(Command(GotoSends(ResearchTasks(state.outline.value.sections, state.message)), None))
    ensures state.outline.Some? && !IsYes(resume) ==>
      r == Ok(Command(GotoNode(MainPlan), Some(PlanningInput(state.message, state.feedback + "\n" + resume))))
  {
    if state.outline.None? then Err(ValueError("Outline is empty or None."))
    else if Lower(resume) == "y" then
      Ok(Command(GotoSends(ResearchTasks(state.outline.value.sections, state.message)), None))
    else
      var parts := [state.feedback, resume];
      assert parts[1..] == [resume] && Join(parts[1..], "\n") == resume;
      Ok(Command(GotoNode(MainPlan), Some(PlanningInput(state.message, Join(parts, "\n")))))
  }

  // ---------------------------------------------------------------------------
  // gather_sections
  // ---------------------------------------------------------------------------

  /** The index of the first section with identifier `id`, if any. */
  function FirstWithId(sections: seq<Section>, id: string): (r: Option<nat>)
    ensures r.Some? ==> r.value < |sections| && sections[r.value].id == id
    ensures r.Some? ==> forall j :: 0 <= j < r.value ==> sections[j].id != id
    ensures r.None? ==> forall j :: 0 <= j < |sections| ==> sections[j].id != id
  {
    if sections == [] then None
    else if sections[0].id == id then Some(0)
    else match FirstWithId(sections[1..], id)
      case None => None
      case Some(k) => Some(k + 1)
  }

  /** One summarization applied: the first section with its id takes its content as markdown. */
  function Apply(sections: seq<Section>, s: Expert.Summarization): (r: seq<Section>)
    ensures |r| == |sections|
  {
    match FirstWithId(sections, s.sectionId)
    case None => sections
    case Some(k) => sections[k := sections[k].(markdown := s.content)]
  }

  /** The summarizations applied in order. */
  function ApplyAll(sections: seq<Section>, sums: seq<Expert.Summarization>): (r: seq<Section>)
    ensures |r| == |sections|
    decreases |sums|
  {
    if sums == [] then sections else Apply(ApplyAll(sections, sums[..|sums| - 1]), sums[|sums| - 1])
  }

  /** The content of the last summarization for `id`, if any. */
  function LastFor(sums: seq<Expert.Summarization>, id: string): Option<string>
    decreases |sums|
  {
    if sums == [] then None
    else if sums[|sums| - 1].sectionId == id then Some(sums[|sums| - 1].content)
    else LastFor(sums[..|sums| - 1], id)
  }

  /** Section `i` is the first of its identifier. */
  predicate FirstOfItsId(sections: seq<Section>, i: nat)
    requires i < |sections|
  {
    forall j :: 0 <= j < i ==> sections[j].id != sections[i].id
  }

  /**
   * After gathering, the first section with a given identifier holds the content of the
   * last summarization for that identifier; every other section, and every section no
   * summarization names, is unchanged.
   */
  lemma {:induction false} ApplyAllResult(sections: seq<Section>, sums: seq<Expert.Summarization>, i: nat)
    requires i < |sections|
    ensures var r := ApplyAll(sections, sums);
      r[i] == if FirstOfItsId(sections, i) && LastFor(sums, sections[i].id).Some?
              then sections[i].(markdown := LastFor(sums, sections[i].id).value)
              else sections[i]
    ensures forall j :: 0 <= j < |sections| ==> ApplyAll(sections, sums)[j].id == sections[j].id
    decreases |sums|
  {
    if sums != [] {
      var init := sums[..|sums| - 1];
      var prev := ApplyAll(sections, init);
      ApplyAllResult(sections, init, i);
      forall j | 0 <= j < |sections| ensures prev[j].id == sections[j].id {
        ApplyAllResult(sections, init, j);
      }
      var s := sums[|sums| - 1];
      match FirstWithId(prev, s.sectionId)
      case None =>
      case Some(k) =>
        if k == i {
          assert FirstOfItsId(sections, i);
        } else if sections[i].id == s.sectionId {
          assert !FirstOfItsId(sections, i) by {
            assert k < i;
            assert sections[k].id == sections[i].id;
          }
        }
    }
  }

  /**
   * `gather_sections`: apply each summarization in order to the outline's sections in
   * place, then render the outline. The node refuses a state without an outline.
   */
  method GatherSections(state: State) returns (r: Result<string>, sections: seq<Section>)
    ensures state.outline.None? <==> r == Err(ValueError("Outline is empty or None."))
    ensures state.outline.Some? ==> sections == ApplyAll(state.outline.value.sections, state.summarizations)
    ensures state.outline.Some? ==> r == Ok(Outline(state.outline.value.pageTitle, sections).AsStr())
  {
    sections := [];
    if state.outline.None? {
      return Err(ValueError("Outline is empty or None.")), sections;
    }
    sections := state.outline.value.sections;
    var i := 0;
    while i < |state.summarizations|
      invariant 0 <= i <= |state.summarizations|
      invariant sections == ApplyAll(state.outline.value.sections, state.summarizations[..i])
    {
      var summarization := state.summarizations[i];
      assert state.summarizations[..i + 1][..i] == state.summarizations[..i];
      var sectionIdx := FirstWithId(sections, summarization.sectionId);
      i := i + 1;
      if sectionIdx.None? {
        continue;
      }
      sections := sections[sectionIdx.value := sections[sectionIdx.value].(markdown := summarization.content)];
    }
    assert state.summarizations[..i] == state.summarizations;
    r := Ok(Outline(state.outline.value.pageTitle, sections).AsStr());
  }
}
