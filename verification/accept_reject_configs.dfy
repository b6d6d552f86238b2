/**
 * The ten accept/reject questions (acceptRejectLevelConfigs.ts): a small
 * fence-and-arrow graph, a sheep pattern, and the answer the player is graded
 * against. The answer is authored data; the lemmas here show that the path
 * animator's walk agrees with it on every question.
 */
module AcceptRejectConfigs {
  import opened Wrappers
  import opened Graph
  import opened PathAnimator

  /** 'accept' or 'reject'. */
  datatype Verdict = Accept | Reject

  /** The authored rejection reason: 'no-path', 'wrong-state', 'dead-end' or 'incomplete'. */
  datatype RejectionTag = NoPathTag | WrongStateTag | DeadEndTag | IncompleteTag

  /**
   * A question. `rejectionReason` is the optional field, present on some
   * 'reject' questions; the explanation text is `QuestionExplanation`.
   */
  datatype AcceptRejectQuestion = AcceptRejectQuestion(
    id: int,
    conceptsIntroduced: seq<string>,
    nodes: seq<Node>,
    edges: seq<Edge>,
    testPattern: seq<string>,
    correctAnswer: Verdict,
    rejectionReason: Option<RejectionTag>)

  /** A question's fence literal: a `stateNode` whose data has only isStart and isAccepting (no label). */
  function Fence(id: string, x: int, y: int, isStart: bool, isAccepting: bool): Node {
    Node(id, "stateNode", x, y, isStart, isAccepting, None)
  }

  /** A question's arrow literal: type 'sheep', carrying one sheep. */
  function Arrow(id: string, source: string, target: string, sheep: string): Edge {
    Edge(id, source, target, "sheep", Some(sheep), None)
  }

  const Q1Nodes: seq<Node> :=
    [Fence("start", 50, 150, true, false), Fence("end", 450, 150, false, true)]
  const Q1Edges: seq<Edge> :=
    [Arrow("e1", "start", "end", "sheep-3")]
  const Q1Pattern: seq<string> := ["sheep-3"]
  const Q1: AcceptRejectQuestion :=
    AcceptRejectQuestion(1, ["start-state", "accepting-state", "transition"], Q1Nodes, Q1Edges, Q1Pattern, Accept, None)

  const Q2Nodes: seq<Node> :=
    [Fence("start", 50, 150, true, false), Fence("end", 450, 150, false, true)]
  const Q2Edges: seq<Edge> :=
    [Arrow("e1", "start", "end", "sheep-3")]
  const Q2Pattern: seq<string> := ["sheep-8"]
  const Q2: AcceptRejectQuestion :=
    AcceptRejectQuestion(2, ["rejection"], Q2Nodes, Q2Edges, Q2Pattern, Reject, Some(NoPathTag))

  const Q3Nodes: seq<Node> :=
    [Fence("start", 50, 150, true, false), Fence("middle", 300, 150, false, false),
     Fence("end", 550, 150, false, true)]
  const Q3Edges: seq<Edge> :=
    [Arrow("e1", "start", "middle", "sheep-3"), Arrow("e2", "middle", "end", "sheep-8")]
  const Q3Pattern: seq<string> := ["sheep-3", "sheep-8"]
  const Q3: AcceptRejectQuestion :=
    AcceptRejectQuestion(3, ["sequence"], Q3Nodes, Q3Edges, Q3Pattern, Accept, None)

  const Q4Nodes: seq<Node> :=
    [Fence("start", 50, 150, true, false), Fence("middle", 300, 150, false, false),
     Fence("end", 550, 150, false, true)]
  const Q4Edges: seq<Edge> :=
    [Arrow("e1", "start", "middle", "sheep-3"), Arrow("e2", "middle", "end", "sheep-8")]
  const Q4Pattern: seq<string> := ["sheep-3"]
  const Q4: AcceptRejectQuestion :=
    AcceptRejectQuestion(4, [], Q4Nodes, Q4Edges, Q4Pattern, Reject, Some(IncompleteTag))

  const Q5Nodes: seq<Node> :=
    [Fence("start", 50, 175, true, false), Fence("top", 300, 75, false, false),
     Fence("bottom", 300, 275, false, false), Fence("end", 550, 175, false, true)]
  const Q5Edges: seq<Edge> :=
    [Arrow("e1", "start", "top", "sheep-3"), Arrow("e2", "start", "bottom", "sheep-8"),
     Arrow("e3", "top", "end", "sheep-7"), Arrow("e4", "bottom", "end", "sheep-13")]
  const Q5Pattern: seq<string> := ["sheep-8", "sheep-13"]
  const Q5: AcceptRejectQuestion :=
    AcceptRejectQuestion(5, ["branching"], Q5Nodes, Q5Edges, Q5Pattern, Accept, None)

  const Q6Nodes: seq<Node> :=
    [Fence("start", 50, 200, true, false), Fence("top", 300, 50, false, false),
     Fence("bottom", 300, 350, false, false), Fence("end", 550, 200, false, true)]
  const Q6Edges: seq<Edge> :=
    [Arrow("e1", "start", "top", "sheep-3"), Arrow("e2", "start", "bottom", "sheep-8"),
     Arrow("e3", "top", "end", "sheep-7"), Arrow("e4", "bottom", "end", "sheep-13")]
  const Q6Pattern: seq<string> := ["sheep-3", "sheep-13"]
  const Q6: AcceptRejectQuestion :=
    AcceptRejectQuestion(6, [], Q6Nodes, Q6Edges, Q6Pattern, Reject, Some(NoPathTag))

  const Q7Nodes: seq<Node> :=
    [Fence("start", 50, 150, true, false), Fence("middle", 300, 150, false, false),
     Fence("end", 550, 150, false, true)]
  const Q7Edges: seq<Edge> :=
    [Arrow("e1", "start", "middle", "sheep-3"), Arrow("e2", "middle", "middle", "sheep-8"),
     Arrow("e3", "middle", "end", "sheep-7")]
  const Q7Pattern: seq<string> := ["sheep-3", "sheep-8", "sheep-8", "sheep-7"]
  const Q7: AcceptRejectQuestion :=
    AcceptRejectQuestion(7, ["loop"], Q7Nodes, Q7Edges, Q7Pattern, Accept, None)

  const Q8Nodes: seq<Node> :=
    [Fence("start", 50, 200, true, false), Fence("good", 300, 80, false, false),
     Fence("trap", 300, 320, false, false), Fence("end", 550, 200, false, true)]
  const Q8Edges: seq<Edge> :=
    [Arrow("e1", "start", "good", "sheep-3"), Arrow("e2", "start", "trap", "sheep-8"),
     Arrow("e3", "good", "end", "sheep-7")]
  const Q8Pattern: seq<string> := ["sheep-8", "sheep-7"]
  const Q8: AcceptRejectQuestion :=
    AcceptRejectQuestion(8, ["dead-state"], Q8Nodes, Q8Edges, Q8Pattern, Reject, Some(DeadEndTag))

  const Q9Nodes: seq<Node> :=
    [Fence("start", 50, 200, true, false), Fence("middle", 300, 200, false, false),
     Fence("end1", 550, 80, false, true), Fence("end2", 550, 320, false, true)]
  const Q9Edges: seq<Edge> :=
    [Arrow("e1", "start", "middle", "sheep-3"), Arrow("e2", "middle", "end1", "sheep-7"),
     Arrow("e3", "middle", "end2", "sheep-8")]
  const Q9Pattern: seq<string> := ["sheep-3", "sheep-8"]
  const Q9: AcceptRejectQuestion :=
    AcceptRejectQuestion(9, ["multiple-accepting"], Q9Nodes, Q9Edges, Q9Pattern, Accept, None)

  const Q10Nodes: seq<Node> :=
    [Fence("start", 50, 200, true, false), Fence("path", 300, 100, false, false),
     Fence("trap", 300, 300, false, false), Fence("end", 550, 100, false, true)]
  const Q10Edges: seq<Edge> :=
    [Arrow("e1", "start", "path", "sheep-3"), Arrow("e2", "start", "trap", "sheep-8"),
     Arrow("e3", "path", "path", "sheep-8"), Arrow("e4", "path", "end", "sheep-7"),
     Arrow("e5", "trap", "trap", "sheep-8")]
  const Q10Pattern: seq<string> := ["sheep-3", "sheep-8", "sheep-8", "sheep-7"]
  const Q10: AcceptRejectQuestion :=
    AcceptRejectQuestion(10, [], Q10Nodes, Q10Edges, Q10Pattern, Accept, None)

  /** The question's `explanation`, shown after an answer, with `[sheep-N]` marking sheep pictures. */
  function QuestionExplanation(q: AcceptRejectQuestion): string {
    match q.id
    case 1 =>
      "The [sheep-3] follows the path straight to the bed. The farmer falls asleep."
    case 2 =>
      "The path needs a [sheep-3], but we have a [sheep-8]. They don't match, so the farmer stays awake."
    case 3 =>
      "The [sheep-3] takes us to the middle, then the [sheep-8] takes us to the bed. Sweet dreams."
    case 4 =>
      "The [sheep-3] gets us to the middle fence, but the path does not end there. We need one more sheep to reach the bed."
    case 5 =>
      "The [sheep-8] takes the bottom path, then the [sheep-13] jumps to the bed. Zzzzz..."
    case 6 =>
      "The [sheep-3] takes us to the top, but there's no [sheep-13] path from there. We need the [sheep-7] instead."
    case 7 =>
      "First, [sheep-3] gets us to the loop fence. Then [sheep-8] can go round and round as many times as needed! "
      + "After looping twice, [sheep-7] finally reaches the bed."
    case 8 =>
      "The [sheep-8] takes us to a dead end - there are no arrows leading out. "
      + "The [sheep-7] has nowhere to go, so the farmer stays awake."
    case 9 =>
      "There are two beds. The [sheep-3] then [sheep-8] path leads to the bottom bed. Sweet dreams."
    case _ =>
      "Starting with a [sheep-3] puts us on the right path. We can count any number of [sheep-8], "
      + "then a [sheep-7] takes us to bed. The bottom path is a trap - once you go there with a [sheep-8], you're stuck."
  }

  /** ACCEPT_REJECT_QUESTIONS, in play order. */
  const Questions: seq<AcceptRejectQuestion> := [Q1, Q2, Q3, Q4, Q5, Q6, Q7, Q8, Q9, Q10]

  /** ACCEPT_REJECT_QUESTION_COUNT, the length of the question list (`QuestionIds`). */
  const AcceptRejectQuestionCount: nat := 10

  /** `ACCEPT_REJECT_QUESTIONS.find(q => q.id === questionId)` */
  function FindQuestion(questions: seq<AcceptRejectQuestion>, questionId: int): (r: Option<AcceptRejectQuestion>)
    ensures r.Some? ==> r.value in questions && r.value.id == questionId
    ensures r.None? <==> forall k :: 0 <= k < |questions| ==> questions[k].id != questionId
  {
    if questions == [] then None
    else if questions[0].id == questionId then Some(questions[0])
    else FindQuestion(questions[1..], questionId)
  }

  /** getAcceptRejectQuestion */
  function GetAcceptRejectQuestion(questionId: int): (r: Option<AcceptRejectQuestion>) {
    FindQuestion(Questions, questionId)
  }

  /** The list holds ten questions whose ids are their positions from 1. */
  lemma QuestionIds()
    ensures |Questions| == AcceptRejectQuestionCount
    ensures forall k :: 0 <= k < |Questions| ==> Questions[k].id == k + 1
  {
  }

  /** With ids in increasing order the lookup finds the question at the id's position. */
  lemma {:induction false} FindQuestionAt(questions: seq<AcceptRejectQuestion>, k: nat)
    requires k < |questions| && forall i, j :: 0 <= i < j < |questions| ==> questions[i].id < questions[j].id
    ensures FindQuestion(questions, questions[k].id) == Some(questions[k])
  {
    if k > 0 {
      assert questions[0].id < questions[k].id;
      FindQuestionAt(questions[1..], k - 1);
    }
  }

  /** The lookup succeeds exactly for 1..ACCEPT_REJECT_QUESTION_COUNT and returns the question at that position. */
  lemma GetAcceptRejectQuestionSpec(questionId: int)
    ensures GetAcceptRejectQuestion(questionId).Some? <==> 1 <= questionId <= AcceptRejectQuestionCount
    ensures 1 <= questionId <= AcceptRejectQuestionCount ==>
              GetAcceptRejectQuestion(questionId) == Some(Questions[questionId - 1])
  {
    QuestionIds();
    if 1 <= questionId <= AcceptRejectQuestionCount {
      FindQuestionAt(Questions, questionId - 1);
    }
  }

  // ----- The shape of a question -----

  /** Exactly one start fence, at least one bed, and a sheep on every arrow. */
  predicate Shaped(nodes: seq<Node>, edges: seq<Edge>) {
    CountStarts(nodes) == 1 && HasAccepting(nodes) && AllLabelled(edges)
  }

  /**
   * A question is shaped, its rejection reason is given exactly when its
   * answer is 'reject', and the path animator's walk of its pattern reaches
   * that answer.
   */
  predicate WellFormed(q: AcceptRejectQuestion) {
    Shaped(q.nodes, q.edges)
    && (q.rejectionReason.Some? <==> q.correctAnswer == Reject)
    && (Evaluate(q.nodes, q.edges, q.testPattern).success <==> q.correctAnswer == Accept)
  }

  // Per question: its shape, then the animator's walk of its pattern, fence by fence.

  lemma Question1Shaped()
    ensures Shaped(Q1Nodes, Q1Edges)
  {
    assert Q1Nodes[1].isAccepting;
  }

  /** The arrows the walk of question 1 takes: the first match for each fence and sheep. */
  lemma Question1Arrows()
    ensures FirstEdge(Q1Edges, "start", "sheep-3") == Some(0)
  {
    var e := Q1Edges;
    assert Matches(e[0], "start", "sheep-3");
  }

  lemma Question1Walk()
    ensures Evaluate(Q1Nodes, Q1Edges, Q1Pattern).success
  {
    var n := Q1Nodes;
    Question1Arrows();
    assert FindStart(n) == Some(n[0]);
    assert FindNode(n, "start") == Some(n[0]);
    assert FindNode(n, "end") == Some(n[1]);
  }

  lemma Question2Shaped()
    ensures Shaped(Q2Nodes, Q2Edges)
  {
    assert Q2Nodes[1].isAccepting;
  }

  /** The arrows the walk of question 2 takes: the first match for each fence and sheep. */
  lemma Question2Arrows()
    ensures FirstEdge(Q2Edges, "start", "sheep-8") == None
  {
    var e := Q2Edges;
    assert !Matches(e[0], "start", "sheep-8");
  }

  lemma Question2Walk()
    ensures var r := Evaluate(Q2Nodes, Q2Edges, Q2Pattern);
            !r.success && r.stuckAtStep == Some(0) && r.stuckReason == Some(NoPath)
  {
    var n := Q2Nodes;
    Question2Arrows();
    assert FindStart(n) == Some(n[0]);
    assert FindNode(n, "start") == Some(n[0]);
  }

  lemma Question3Shaped()
    ensures Shaped(Q3Nodes, Q3Edges)
  {
    assert Q3Nodes[2].isAccepting;
  }

  /** The arrows the walk of question 3 takes: the first match for each fence and sheep. */
  lemma Question3Arrows()
    ensures FirstEdge(Q3Edges, "start", "sheep-3") == Some(0)
            && FirstEdge(Q3Edges, "middle", "sheep-8") == Some(1)
  {
    var e := Q3Edges;
    assert Matches(e[0], "start", "sheep-3");
    assert !Matches(e[0], "middle", "sheep-8");
    assert Matches(e[1], "middle", "sheep-8");
  }

  lemma Question3Walk()
    ensures Evaluate(Q3Nodes, Q3Edges, Q3Pattern).success
  {
    var n := Q3Nodes;
    Question3Arrows();
    assert FindStart(n) == Some(n[0]);
    assert FindNode(n, "start") == Some(n[0]);
    assert FindNode(n, "middle") == Some(n[1]);
    assert FindNode(n, "end") == Some(n[2]);
  }

  lemma Question4Shaped()
    ensures Shaped(Q4Nodes, Q4Edges)
  {
    assert Q4Nodes[2].isAccepting;
  }

  /** The arrows the walk of question 4 takes: the first match for each fence and sheep. */
  lemma Question4Arrows()
    ensures FirstEdge(Q4Edges, "start", "sheep-3") == Some(0)
  {
    var e := Q4Edges;
    assert Matches(e[0], "start", "sheep-3");
  }

  lemma Question4Walk()
    ensures var r := Evaluate(Q4Nodes, Q4Edges, Q4Pattern);
            !r.success && r.stuckAtStep == None && r.stuckReason == Some(WrongState)
  {
    var n := Q4Nodes;
    Question4Arrows();
    assert FindStart(n) == Some(n[0]);
    assert FindNode(n, "start") == Some(n[0]);
    assert FindNode(n, "middle") == Some(n[1]);
  }

  lemma Question5Shaped()
    ensures Shaped(Q5Nodes, Q5Edges)
  {
    assert Q5Nodes[3].isAccepting;
  }

  /** The arrows the walk of question 5 takes: the first match for each fence and sheep. */
  lemma Question5Arrows()
    ensures FirstEdge(Q5Edges, "start", "sheep-8") == Some(1)
            && FirstEdge(Q5Edges, "bottom", "sheep-13") == Some(3)
  {
    var e := Q5Edges;
    assert !Matches(e[0], "start", "sheep-8");
    assert Matches(e[1], "start", "sheep-8");
    assert !Matches(e[0], "bottom", "sheep-13");
    assert !Matches(e[1], "bottom", "sheep-13");
    assert !Matches(e[2], "bottom", "sheep-13");
    assert Matches(e[3], "bottom", "sheep-13");
  }

  lemma Question5Walk()
    ensures Evaluate(Q5Nodes, Q5Edges, Q5Pattern).success
  {
    var n := Q5Nodes;
    Question5Arrows();
    assert FindStart(n) == Some(n[0]);
    assert FindNode(n, "start") == Some(n[0]);
    assert FindNode(n, "bottom") == Some(n[2]);
    assert FindNode(n, "end") == Some(n[3]);
  }

  lemma Question6Shaped()
    ensures Shaped(Q6Nodes, Q6Edges)
  {
    assert Q6Nodes[3].isAccepting;
  }

  /** The arrows the walk of question 6 takes: the first match for each fence and sheep. */
  lemma Question6Arrows()
    ensures FirstEdge(Q6Edges, "start", "sheep-3") == Some(0)
            && FirstEdge(Q6Edges, "top", "sheep-13") == None
  {
    var e := Q6Edges;
    assert Matches(e[0], "start", "sheep-3");
    assert !Matches(e[0], "top", "sheep-13");
    assert !Matches(e[1], "top", "sheep-13");
    assert !Matches(e[2], "top", "sheep-13");
    assert !Matches(e[3], "top", "sheep-13");
  }

  lemma Question6Walk()
    ensures var r := Evaluate(Q6Nodes, Q6Edges, Q6Pattern);
            !r.success && r.stuckAtStep == Some(1) && r.stuckReason == Some(NoPath)
  {
    var n := Q6Nodes;
    Question6Arrows();
    assert FindStart(n) == Some(n[0]);
    assert FindNode(n, "start") == Some(n[0]);
    assert FindNode(n, "top") == Some(n[1]);
  }

  lemma Question7Shaped()
    ensures Shaped(Q7Nodes, Q7Edges)
  {
    assert Q7Nodes[2].isAccepting;
  }

  /** The arrows the walk of question 7 takes: the first match for each fence and sheep. */
  lemma Question7Arrows()
    ensures FirstEdge(Q7Edges, "start", "sheep-3") == Some(0)
            && FirstEdge(Q7Edges, "middle", "sheep-8") == Some(1)
            && FirstEdge(Q7Edges, "middle", "sheep-7") == Some(2)
  {
    var e := Q7Edges;
    assert Matches(e[0], "start", "sheep-3");
    assert !Matches(e[0], "middle", "sheep-8");
    assert Matches(e[1], "middle", "sheep-8");
    assert !Matches(e[0], "middle", "sheep-7");
    assert !Matches(e[1], "middle", "sheep-7");
    assert Matches(e[2], "middle", "sheep-7");
  }

  lemma Question7Walk()
    ensures Evaluate(Q7Nodes, Q7Edges, Q7Pattern).success
  {
    var n := Q7Nodes;
    Question7Arrows();
    assert FindStart(n) == Some(n[0]);
    assert FindNode(n, "start") == Some(n[0]);
    assert FindNode(n, "middle") == Some(n[1]);
    assert FindNode(n, "end") == Some(n[2]);
  }

  lemma Question8Shaped()
    ensures Shaped(Q8Nodes, Q8Edges)
  {
    assert Q8Nodes[3].isAccepting;
  }

  /** The arrows the walk of question 8 takes: the first match for each fence and sheep. */
  lemma Question8Arrows()
    ensures FirstEdge(Q8Edges, "start", "sheep-8") == Some(1)
            && FirstEdge(Q8Edges, "trap", "sheep-7") == None
  {
    var e := Q8Edges;
    assert !Matches(e[0], "start", "sheep-8");
    assert Matches(e[1], "start", "sheep-8");
    assert !Matches(e[0], "trap", "sheep-7");
    assert !Matches(e[1], "trap", "sheep-7");
    assert !Matches(e[2], "trap", "sheep-7");
  }

  lemma Question8Walk()
    ensures var r := Evaluate(Q8Nodes, Q8Edges, Q8Pattern);
            !r.success && r.stuckAtStep == Some(1) && r.stuckReason == Some(NoPath)
  {
    var n := Q8Nodes;
    Question8Arrows();
    assert FindStart(n) == Some(n[0]);
    assert FindNode(n, "start") == Some(n[0]);
    assert FindNode(n, "trap") == Some(n[2]);
  }

  lemma Question9Shaped()
    ensures Shaped(Q9Nodes, Q9Edges)
  {
    assert Q9Nodes[2].isAccepting;
  }

  /** The arrows the walk of question 9 takes: the first match for each fence and sheep. */
  lemma Question9Arrows()
    ensures FirstEdge(Q9Edges, "start", "sheep-3") == Some(0)
            && FirstEdge(Q9Edges, "middle", "sheep-8") == Some(2)
  {
    var e := Q9Edges;
    assert Matches(e[0], "start", "sheep-3");
    assert !Matches(e[0], "middle", "sheep-8");
    assert !Matches(e[1], "middle", "sheep-8");
    assert Matches(e[2], "middle", "sheep-8");
  }

  lemma Question9Walk()
    ensures Evaluate(Q9Nodes, Q9Edges, Q9Pattern).success
  {
    var n := Q9Nodes;
    Question9Arrows();
    assert FindStart(n) == Some(n[0]);
    assert FindNode(n, "start") == Some(n[0]);
    assert FindNode(n, "middle") == Some(n[1]);
    assert FindNode(n, "end2") == Some(n[3]);
  }

  lemma Question10Shaped()
    ensures Shaped(Q10Nodes, Q10Edges)
  {
    assert Q10Nodes[3].isAccepting;
  }

  /** The arrows the walk of question 10 takes: the first match for each fence and sheep. */
  lemma Question10Arrows()
    ensures FirstEdge(Q10Edges, "start", "sheep-3") == Some(0)
            && FirstEdge(Q10Edges, "path", "sheep-8") == Some(2)
            && FirstEdge(Q10Edges, "path", "sheep-7") == Some(3)
  {
    var e := Q10Edges;
    assert Matches(e[0], "start", "sheep-3");
    assert !Matches(e[0], "path", "sheep-8");
    assert !Matches(e[1], "path", "sheep-8");
    assert Matches(e[2], "path", "sheep-8");
    assert !Matches(e[0], "path", "sheep-7");
    assert !Matches(e[1], "path", "sheep-7");
    assert !Matches(e[2], "path", "sheep-7");
    assert Matches(e[3], "path", "sheep-7");
  }

  lemma Question10Walk()
    ensures Evaluate(Q10Nodes, Q10Edges, Q10Pattern).success
  {
    var n := Q10Nodes;
    Question10Arrows();
    assert FindStart(n) == Some(n[0]);
    assert FindNode(n, "start") == Some(n[0]);
    assert FindNode(n, "path") == Some(n[1]);
    assert FindNode(n, "end") == Some(n[3]);
  }

  lemma Question1WellFormed()
    ensures WellFormed(Q1)
  {
    Question1Shaped();
    Question1Walk();
  }

  lemma Question2WellFormed()
    ensures WellFormed(Q2)
  {
    Question2Shaped();
    Question2Walk();
  }

  lemma Question3WellFormed()
    ensures WellFormed(Q3)
  {
    Question3Shaped();
    Question3Walk();
  }

  lemma Question4WellFormed()
    ensures WellFormed(Q4)
  {
    Question4Shaped();
    Question4Walk();
  }

  lemma Question5WellFormed()
    ensures WellFormed(Q5)
  {
    Question5Shaped();
    Question5Walk();
  }

  lemma Question6WellFormed()
    ensures WellFormed(Q6)
  {
    Question6Shaped();
    Question6Walk();
  }

  lemma Question7WellFormed()
    ensures WellFormed(Q7)
  {
    Question7Shaped();
    Question7Walk();
  }

  lemma Question8WellFormed()
    ensures WellFormed(Q8)
  {
    Question8Shaped();
    Question8Walk();
  }

  lemma Question9WellFormed()
    ensures WellFormed(Q9)
  {
    Question9Shaped();
    Question9Walk();
  }

  lemma Question10WellFormed()
    ensures WellFormed(Q10)
  {
    Question10Shaped();
    Question10Walk();
  }

  /** The list, entry by entry. */
  lemma QuestionList()
    ensures |Questions| == 10
    ensures Questions[0] == Q1 && Questions[1] == Q2 && Questions[2] == Q3 && Questions[3] == Q4
            && Questions[4] == Q5 && Questions[5] == Q6 && Questions[6] == Q7 && Questions[7] == Q8
            && Questions[8] == Q9 && Questions[9] == Q10
  {
  }

  /** Every question is well formed. */
  lemma AllQuestionsWellFormed()
    ensures forall k :: 0 <= k < |Questions| ==> WellFormed(Questions[k])
  {
    QuestionList();
    forall k | 0 <= k < |Questions| ensures WellFormed(Questions[k]) {
      if k == 0 { Question1WellFormed(); }
      else if k == 1 { Question2WellFormed(); }
      else if k == 2 { Question3WellFormed(); }
      else if k == 3 { Question4WellFormed(); }
      else if k == 4 { Question5WellFormed(); }
      else if k == 5 { Question6WellFormed(); }
      else if k == 6 { Question7WellFormed(); }
      else if k == 7 { Question8WellFormed(); }
      else if k == 8 { Question9WellFormed(); }
      else { Question10WellFormed(); }
    }
  }

  /**
   * The rejection reasons are authored, not computed: question 4's
   * 'incomplete' is the animator's 'wrong-state' (the pattern ends on a
   * fence that is not a bed), and question 8's 'dead-end' is its 'no-path'
   * at the second sheep.
   */
  lemma AuthoredReasons()
    ensures Q4.rejectionReason == Some(IncompleteTag)
            && Evaluate(Q4.nodes, Q4.edges, Q4.testPattern).stuckReason == Some(WrongState)
    ensures Q8.rejectionReason == Some(DeadEndTag)
            && Evaluate(Q8.nodes, Q8.edges, Q8.testPattern).stuckReason == Some(NoPath)
            && Evaluate(Q8.nodes, Q8.edges, Q8.testPattern).stuckAtStep == Some(1)
  {
    Question4Walk();
    Question8Walk();
  }
}
