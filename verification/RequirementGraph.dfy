/** The requirement conversation: extract, merge, and ask again until nothing blocks planning. */
module RequirementGraph {
  import opened Wrappers
  import opened Sequences
  import opened RequirementData
  import opened RequirementMerge
  import opened RequirementRules

  datatype Message = Message(id: string, text: string)

  datatype GraphState = GraphState(
    message: Message, requirements: Requirements, patch: Option<Patch>, decision: Option<MergeResult>,
    processed: seq<string>, failed: bool)

  /** The model's answer to a text, given the snapshot so far; none when the extraction fails. */
  type Extractor = (string, Requirements) -> Option<Patch>

  ghost predicate ValidExtractor(extract: Extractor) {
    forall text, r {:trigger extract(text, r)} :: extract(text, r).Some? ==> ValidPatch(extract(text, r).value)
  }

  // ---- the nodes ------------------------------------------------------------------------------

  function InitialState(message: Message, requirements: Requirements): GraphState {
    GraphState(message, requirements, None, None, [], false)
  }

  /** `extract_patch`: a message already processed yields an empty patch. */
  function ExtractPatch(state: GraphState, extract: Extractor): GraphState {
    if state.message.id in state.processed then state.(patch := Some(EMPTY_PATCH))
    else
      match extract(state.message.text, state.requirements)
      case Some(patch) => state.(patch := Some(patch), failed := false)
      case None => state.(patch := Some(EMPTY_PATCH), failed := true)
  }

  /** `merge_requirements`. */
  function MergeRequirements(state: GraphState, today: int): GraphState {
    var decision := Apply(state.requirements, state.patch.GetOr(EMPTY_PATCH), today, state.failed);
    state.(requirements := decision.snapshot, decision := Some(decision),
           processed := if state.message.id in state.processed then state.processed
                        else state.processed + [state.message.id])
  }

  /** `ask_clarification`, resumed with the user's answer. */
  function Resumed(state: GraphState, answer: Message): GraphState {
    state.(message := answer, patch := None, decision := None, failed := false)
  }

  function Turn(state: GraphState, extract: Extractor, today: int): GraphState {
    MergeRequirements(ExtractPatch(state, extract), today)
  }

  /** The state after the last of the messages. */
  function Play(r: Requirements, messages: seq<Message>, extract: Extractor, today: int): GraphState
    requires messages != []
    decreases |messages|, 0
  {
    Turn(Awaiting(r, messages[..|messages| - 1], messages[|messages| - 1], extract, today), extract, today)
  }

  /** The state in which the next message is extracted. */
  function Awaiting(r: Requirements, front: seq<Message>, next: Message, extract: Extractor, today: int): GraphState
    decreases |front|, 1
  {
    if front == [] then InitialState(next, r) else Resumed(Play(r, front, extract, today), next)
  }

  // ---- a conversation as a fold ---------------------------------------------------------------

  predicate Mentioned(messages: seq<Message>, id: string) {
    exists i :: 0 <= i < |messages| && messages[i].id == id
  }

  /** The messages whose id has not occurred before. */
  function FirstOccurrences(messages: seq<Message>): seq<Message> {
    if messages == [] then []
    else
      var front, last := messages[..|messages| - 1], messages[|messages| - 1];
      FirstOccurrences(front) + (if Mentioned(front, last.id) then [] else [last])
  }

  function PatchFor(r: Requirements, message: Message, extract: Extractor): Patch {
    extract(message.text, r).GetOr(EMPTY_PATCH)
  }

  /** One merge per message. */
  function FoldMerges(r: Requirements, messages: seq<Message>, extract: Extractor): Requirements {
    if messages == [] then r
    else
      var before := FoldMerges(r, messages[..|messages| - 1], extract);
      Applied(before, PatchFor(before, messages[|messages| - 1], extract))
  }

  const MESSAGE_ID: Message -> string := (m: Message) => m.id

  lemma {:induction false} OccurrenceIds(messages: seq<Message>, id: string)
    ensures id in Map(FirstOccurrences(messages), MESSAGE_ID) <==> Mentioned(messages, id)
  {
    if messages != [] {
      var front, last := messages[..|messages| - 1], messages[|messages| - 1];
      OccurrenceIds(front, id);
      OccurrenceIds(front, last.id);
      MentionedOneMore(front, last, id);
      assert messages == front + [last];
      if !Mentioned(front, last.id) {
        MapConcat(FirstOccurrences(front), [last], MESSAGE_ID);
        InConcat(Map(FirstOccurrences(front), MESSAGE_ID), [last.id], id);
      } else {
        assert FirstOccurrences(messages) == FirstOccurrences(front);
      }
    }
  }

  lemma OccurrencesOneMore(front: seq<Message>, last: Message)
    ensures Mentioned(front, last.id) ==> FirstOccurrences(front + [last]) == FirstOccurrences(front)
    ensures !Mentioned(front, last.id) ==> FirstOccurrences(front + [last]) == FirstOccurrences(front) + [last]
  {
    assert (front + [last])[..|front|] == front;
  }

  lemma MentionedOneMore(front: seq<Message>, last: Message, id: string)
    ensures Mentioned(front + [last], id) <==> Mentioned(front, id) || last.id == id
  {
    var all := front + [last];
    assert all[|front|] == last;
    assert forall i :: 0 <= i < |front| ==> all[i] == front[i];
  }

  /** What a conversation has come to. */
  ghost predicate PlaysAs(state: GraphState, r: Requirements, messages: seq<Message>, extract: Extractor) {
    && state.requirements == FoldMerges(r, FirstOccurrences(messages), extract)
    && state.processed == Map(FirstOccurrences(messages), MESSAGE_ID)
  }

  lemma FoldIsFixpoint(r: Requirements, messages: seq<Message>, extract: Extractor)
    requires messages != []
    ensures Applied(FoldMerges(r, messages, extract), EMPTY_PATCH) == FoldMerges(r, messages, extract)
  {
    var before := FoldMerges(r, messages[..|messages| - 1], extract);
    MergeIsFixpoint(before, PatchFor(before, messages[|messages| - 1], extract));
  }

  lemma FoldOneMore(r: Requirements, front: seq<Message>, last: Message, extract: Extractor)
    ensures var before := FoldMerges(r, front, extract);
      FoldMerges(r, front + [last], extract) == Applied(before, PatchFor(before, last, extract))
  {
    hide Applied, PatchFor;
    assert (front + [last])[..|front|] == front;
  }

  /** The patch a turn merges. */
  function TurnPatch(state: GraphState, extract: Extractor): Patch {
    if state.message.id in state.processed then EMPTY_PATCH else PatchFor(state.requirements, state.message, extract)
  }

  /** The turn reads a message that the model cannot make sense of. */
  predicate Fails(state: GraphState, extract: Extractor) {
    state.message.id !in state.processed && extract(state.message.text, state.requirements).None?
  }

  lemma ExtractedPatch(state: GraphState, extract: Extractor)
    ensures var after := ExtractPatch(state, extract);
      && after.patch == Some(TurnPatch(state, extract))
      && after.requirements == state.requirements && after.processed == state.processed
         && after.message == state.message
      && (!state.failed ==> after.failed == Fails(state, extract))
  {
    if state.message.id !in state.processed {
      match extract(state.message.text, state.requirements) {
        case Some(patch) =>
        case None =>
      }
    }
  }

  lemma MergedState(state: GraphState, patch: Patch, today: int)
    requires state.patch == Some(patch)
    ensures var after := MergeRequirements(state, today);
      && after.requirements == Applied(state.requirements, patch)
      && after.decision == Some(Apply(state.requirements, patch, today, state.failed))
      && after.processed
         == if state.message.id in state.processed then state.processed else state.processed + [state.message.id]
  {
  }

  /** What one turn makes of a state. */
  ghost predicate Turned(state: GraphState, after: GraphState, patch: Patch, failed: bool, today: int) {
    && after.requirements == Applied(state.requirements, patch)
    && after.decision == Some(Apply(state.requirements, patch, today, failed))
    && after.processed
       == if state.message.id in state.processed then state.processed else state.processed + [state.message.id]
  }

  lemma TurnMerges(state: GraphState, extract: Extractor, today: int)
    requires !state.failed
    ensures Turned(state, Turn(state, extract, today), TurnPatch(state, extract), Fails(state, extract), today)
  {
    ExtractedPatch(state, extract);
    MergedState(ExtractPatch(state, extract), TurnPatch(state, extract), today);
  }

  /** A repeated message changes neither the snapshot nor the processed ids. */
  lemma RepeatedTurn(
    r: Requirements, front: seq<Message>, last: Message, state: GraphState, after: GraphState, extract: Extractor,
    failed: bool, today: int)
    requires state.message == last && PlaysAs(state, r, front, extract) && Mentioned(front, last.id)
    requires Turned(state, after, EMPTY_PATCH, failed, today)
    ensures after.requirements == state.requirements && after.processed == state.processed
    ensures PlaysAs(after, r, front + [last], extract)
  {
    OccurrenceIds(front, last.id);
    assert FirstOccurrences(front) != [];
    FoldIsFixpoint(r, FirstOccurrences(front), extract);
    OccurrencesOneMore(front, last);
  }

  lemma NewTurn(
    r: Requirements, front: seq<Message>, last: Message, state: GraphState, after: GraphState, extract: Extractor,
    failed: bool, today: int)
    requires state.message == last && PlaysAs(state, r, front, extract) && !Mentioned(front, last.id)
    requires Turned(state, after, PatchFor(state.requirements, last, extract), failed, today)
    ensures PlaysAs(after, r, front + [last], extract)
  {
    OccurrenceIds(front, last.id);
    OccurrencesOneMore(front, last);
    var known := FirstOccurrences(front);
    FoldOneMore(r, known, last, extract);
    MapConcat(known, [last], MESSAGE_ID);
    assert Map([last], MESSAGE_ID) == [last.id];
  }

  lemma OneMoreTurn(
    r: Requirements, front: seq<Message>, last: Message, state: GraphState, extract: Extractor, today: int)
    requires state.message == last && PlaysAs(state, r, front, extract) && !state.failed
    ensures PlaysAs(Turn(state, extract, today), r, front + [last], extract)
  {
    TurnMerges(state, extract, today);
    OccurrenceIds(front, last.id);
    var after := Turn(state, extract, today);
    if Mentioned(front, last.id) {
      RepeatedTurn(r, front, last, state, after, extract, Fails(state, extract), today);
    } else {
      NewTurn(r, front, last, state, after, extract, Fails(state, extract), today);
    }
  }

  /**
   * Main result: whatever messages arrive, repeated or not, the snapshot is the fold of the merges of the first
   * occurrence of each message id.
   */
  lemma {:induction false} ConversationIsFold(r: Requirements, messages: seq<Message>, extract: Extractor, today: int)
    requires messages != []
    ensures PlaysAs(Play(r, messages, extract, today), r, messages, extract)
  {
    hide Turn, Applied;
    var front, last := messages[..|messages| - 1], messages[|messages| - 1];
    assert messages == front + [last];
    if |messages| == 1 {
      OneMoreTurn(r, front, last, InitialState(last, r), extract, today);
    } else {
      ConversationIsFold(r, front, extract, today);
      OneMoreTurn(r, front, last, Resumed(Play(r, front, extract, today), last), extract, today);
    }
  }

  /** The snapshot before the next message. */
  function Before(r: Requirements, front: seq<Message>, extract: Extractor, today: int): Requirements {
    if front == [] then r else Play(r, front, extract, today).requirements
  }

  lemma AwaitingPlays(r: Requirements, front: seq<Message>, next: Message, extract: Extractor, today: int)
    ensures var state := Awaiting(r, front, next, extract, today);
      && PlaysAs(state, r, front, extract) && !state.failed && state.message == next
      && state.requirements == Before(r, front, extract, today)
  {
    if front != [] {
      ConversationIsFold(r, front, extract, today);
    } else {
      assert FirstOccurrences(front) == [];
    }
  }

  lemma PlayIsTurn(r: Requirements, front: seq<Message>, next: Message, extract: Extractor, today: int)
    ensures Play(r, front + [next], extract, today) == Turn(Awaiting(r, front, next, extract, today), extract, today)
  {
    hide Turn;
    assert (front + [next])[..|front|] == front;
  }

  /** The last turn of a conversation, seen from the state before it. */
  lemma LastTurn(r: Requirements, front: seq<Message>, last: Message, extract: Extractor, today: int)
    ensures var state := Awaiting(r, front, last, extract, today);
      && Turned(state, Play(r, front + [last], extract, today), TurnPatch(state, extract), Fails(state, extract), today)
      && PlaysAs(state, r, front, extract)
      && state.requirements == Before(r, front, extract, today) && state.message == last
      && (last.id in state.processed <==> Mentioned(front, last.id))
  {
    hide Awaiting, Before, Turn, Turned, Play, TurnPatch, Fails, FoldMerges;
    AwaitingPlays(r, front, last, extract, today);
    PlayIsTurn(r, front, last, extract, today);
    OccurrenceIds(front, last.id);
    TurnMerges(Awaiting(r, front, last, extract, today), extract, today);
  }

  // ---- what holds along a conversation --------------------------------------------------------

  ghost predicate Kept(r: Requirements) {
    Typed(r) && NoInferredPlaces(r) && TidyLists(r)
  }

  lemma MergeKeeps(r: Requirements, patch: Patch)
    requires Kept(r) && ValidPatch(patch)
    ensures Kept(Applied(r, patch))
  {
    MergeIsTyped(r, patch);
    PlacesAreNeverInferred(r, patch);
    ListsStayTidy(r, patch);
  }

  lemma PatchForIsValid(r: Requirements, message: Message, extract: Extractor)
    requires ValidExtractor(extract)
    ensures ValidPatch(PatchFor(r, message, extract))
  {
  }

  lemma {:induction false} FoldKeeps(r: Requirements, messages: seq<Message>, extract: Extractor)
    requires Kept(r) && ValidExtractor(extract)
    ensures Kept(FoldMerges(r, messages, extract))
  {
    if messages != [] {
      var front, last := messages[..|messages| - 1], messages[|messages| - 1];
      var before := FoldMerges(r, front, extract);
      FoldKeeps(r, front, extract);
      PatchForIsValid(before, last, extract);
      MergeKeeps(before, PatchFor(before, last, extract));
    }
  }

  /** Along every conversation place texts are never inferred, lists stay tidy, and the snapshot validates. */
  lemma ConversationKeeps(r: Requirements, messages: seq<Message>, extract: Extractor, today: int)
    requires messages != [] && Kept(r) && ValidExtractor(extract)
    ensures Kept(Play(r, messages, extract, today).requirements)
  {
    ConversationIsFold(r, messages, extract, today);
    FoldKeeps(r, FirstOccurrences(messages), extract);
  }

  /** The user said something new about the field in this message. */
  ghost predicate Restates(before: Requirements, front: seq<Message>, message: Message, extract: Extractor, f: Field) {
    && !Mentioned(front, message.id)
    && extract(message.text, before).Some?
    && ExplicitlyPatched(extract(message.text, before).value, f)
  }

  /**
   * Main result: along a conversation, from its first message on, an explicit value changes only in a new message that
   * restates it explicitly.
   */
  lemma ExplicitChangesOnlyExplicitly(
    r: Requirements, front: seq<Message>, last: Message, extract: Extractor, today: int, f: Field)
    requires ValidExtractor(extract)
    requires var before := Before(r, front, extract, today);
      before[f].source == Explicit && !Restates(before, front, last, extract, f)
    ensures SameStatement(Play(r, front + [last], extract, today).requirements[f], Before(r, front, extract, today)[f])
  {
    LastTurn(r, front, last, extract, today);
    var state := Awaiting(r, front, last, extract, today);
    TurnRestates(state, extract, f);
    StatementKept(state, Play(r, front + [last], extract, today),
                  TurnPatch(state, extract), Fails(state, extract), today, f);
  }

  lemma TurnRestates(state: GraphState, extract: Extractor, f: Field)
    requires ValidExtractor(extract)
    ensures ValidPatch(TurnPatch(state, extract))
    ensures ExplicitlyPatched(TurnPatch(state, extract), f) ==>
              && state.message.id !in state.processed
              && extract(state.message.text, state.requirements).Some?
              && ExplicitlyPatched(extract(state.message.text, state.requirements).value, f)
  {
    PatchForIsValid(state.requirements, state.message, extract);
  }

  lemma StatementKept(state: GraphState, after: GraphState, patch: Patch, failed: bool, today: int, f: Field)
    requires Turned(state, after, patch, failed, today) && ValidPatch(patch)
    requires state.requirements[f].source == Explicit && !ExplicitlyPatched(patch, f)
    ensures SameStatement(after.requirements[f], state.requirements[f])
  {
    ExplicitStays(state.requirements, patch, f);
  }

  // ---- readiness ------------------------------------------------------------------------------

  lemma TurnReady(state: GraphState, after: GraphState, patch: Patch, failed: bool, today: int)
    requires Turned(state, after, patch, failed, today)
    ensures after.decision.Some?
    ensures after.decision.value.ready <==> Complete(after.requirements, today) && !failed && patch.ambiguities == []
  {
    ReadyIff(state.requirements, patch, today, failed);
  }

  /** The message is new, and the model makes unambiguous sense of it. */
  ghost predicate Clear(before: Requirements, message: Message, extract: Extractor) {
    extract(message.text, before).Some? && extract(message.text, before).value.ambiguities == []
  }

  lemma TurnIsClear(state: GraphState, extract: Extractor)
    ensures !Fails(state, extract) && TurnPatch(state, extract).ambiguities == [] <==>
            state.message.id in state.processed || Clear(state.requirements, state.message, extract)
  {
    if state.message.id !in state.processed {
      match extract(state.message.text, state.requirements) {
        case Some(patch) =>
        case None =>
      }
    }
  }

  /**
   * A conversation ends when the snapshot is complete and, for a new message, understood and unambiguous.  Repeating an
   * answer is judged on the snapshot alone.
   */
  lemma ReadyAfter(r: Requirements, front: seq<Message>, last: Message, extract: Extractor, today: int)
    ensures Play(r, front + [last], extract, today).decision.Some?
    ensures Play(r, front + [last], extract, today).decision.value.ready <==>
              Complete(Play(r, front + [last], extract, today).requirements, today)
              && (Mentioned(front, last.id) || Clear(Before(r, front, extract, today), last, extract))
  {
    LastTurn(r, front, last, extract, today);
    var state := Awaiting(r, front, last, extract, today);
    hide *;
    TurnIsClear(state, extract);
    TurnReady(state, Play(r, front + [last], extract, today), TurnPatch(state, extract), Fails(state, extract), today);
  }

  /**
   * A repeated answer leaves the snapshot alone but not the verdict: an ambiguity that blocked planning is forgotten
   * when the same message arrives again.
   */
  lemma RepetitionForgetsAmbiguity(r: Requirements, front: seq<Message>, last: Message, extract: Extractor, today: int)
    requires Mentioned(front, last.id)
    ensures Play(r, front + [last], extract, today).requirements == Play(r, front, extract, today).requirements
    ensures Play(r, front + [last], extract, today).decision.Some?
    ensures Play(r, front + [last], extract, today).decision.value.ready
       <==> Complete(Play(r, front, extract, today).requirements, today)
  {
    RepetitionKeepsSnapshot(r, front, last, extract, today);
    ReadyAfter(r, front, last, extract, today);
  }

  lemma RepetitionKeepsSnapshot(r: Requirements, front: seq<Message>, last: Message, extract: Extractor, today: int)
    requires Mentioned(front, last.id)
    ensures Play(r, front + [last], extract, today).requirements == Before(r, front, extract, today)
  {
    LastTurn(r, front, last, extract, today);
    var state := Awaiting(r, front, last, extract, today);
    RepeatedTurn(r, front, last, state, Play(r, front + [last], extract, today), extract, Fails(state, extract), today);
  }

  /**
   * A message that was understood and completed the snapshot, but was ambiguous, blocks; sent again it no longer does.
   */
  lemma AmbiguityIsForgotten(r: Requirements, front: seq<Message>, last: Message, extract: Extractor, today: int)
    requires !Mentioned(front, last.id)
    requires extract(last.text, Before(r, front, extract, today)).Some?
    requires extract(last.text, Before(r, front, extract, today)).value.ambiguities != []
    requires Complete(Play(r, front + [last], extract, today).requirements, today)
    ensures Play(r, front + [last], extract, today).decision.Some?
    ensures Play(r, front + [last] + [last], extract, today).decision.Some?
    ensures !Play(r, front + [last], extract, today).decision.value.ready
    ensures Play(r, front + [last] + [last], extract, today).decision.value.ready
  {
    ReadyAfter(r, front, last, extract, today);
    assert (front + [last])[|front|] == last;
    RepetitionForgetsAmbiguity(r, front + [last], last, extract, today);
  }

  function Said(d: Datum): Value {
    Value(Some(d), Explicit, 1.0, true, Confirmed, None)
  }

  function CompleteValue(f: Field): Value {
    match f
    case TripScope => Said(Text("destination_only"))
    case DatePrecision => Said(Text("flexible"))
    case Days => Said(Number(3))
    case TransportMode => Said(Text("walking"))
    case Destination => Said(Text("Hangzhou"))
    case _ => BLANK
  }

  const UNSURE := Patch(map[], [Ambiguity(Themes, ["gardens", "museums"])])

  /** The value was stated, or it is a start date that was left open. */
  ghost predicate Fixed(f: Field, v: Value) {
    v.source == Explicit || (f == StartDate && v.value == None && v.source == Missing)
  }

  lemma UnsureKeepsValue(f: Field, v: Value, origin: Value, start: Value)
    requires f != Themes && Fixed(f, v)
    ensures Finished(f, MergedValue(f, v, UNSURE), origin, start).value == v.value
    ensures Fixed(f, Finished(f, MergedValue(f, v, UNSURE), origin, start))
  {
  }

  const STATED := {TripScope, DatePrecision, Days, TransportMode, Destination, StartDate}

  /** A trip whose necessary values the user has stated, with an open date. */
  ghost predicate StatedTrip(r: Requirements) {
    && r[TripScope].value == Some(Text("destination_only")) && r[DatePrecision].value == Some(Text("flexible"))
    && r[Days].value == Some(Number(3)) && r[TransportMode].value == Some(Text("walking"))
    && r[Destination].value == Some(Text("Hangzhou")) && r[StartDate].value == None
    && forall f :: f in STATED ==> Fixed(f, r[f])
  }

  lemma UnsureKeeps(r: Requirements, f: Field)
    requires f != Themes && Fixed(f, r[f])
    ensures Applied(r, UNSURE)[f].value == r[f].value && Fixed(f, Applied(r, UNSURE)[f])
  {
    AppliedAt(r, UNSURE, f);
    UnsureKeepsValue(f, r[f], BeforeDerivation(r, UNSURE, Origin), BeforeDerivation(r, UNSURE, StartDate));
  }

  lemma StatedByValues(r: Requirements, s: Requirements)
    requires StatedTrip(r) && forall f :: f in STATED ==> s[f].value == r[f].value && Fixed(f, s[f])
    ensures StatedTrip(s)
  {
  }

  lemma UnsureKeepsStated(r: Requirements)
    requires StatedTrip(r)
    ensures StatedTrip(Applied(r, UNSURE))
  {
    hide Applied, Fixed;
    forall f | f in STATED ensures Applied(r, UNSURE)[f].value == r[f].value && Fixed(f, Applied(r, UNSURE)[f]) {
      UnsureKeeps(r, f);
    }
    StatedByValues(r, Applied(r, UNSURE));
  }

  lemma StatedIsComplete(r: Requirements)
    requires StatedTrip(r)
    ensures Complete(r, 0)
  {
    assert "destination_only" != "door_to_door" by {
      assert |"destination_only"| == 16 && |"door_to_door"| == 12;
    }
  }

  /** An extractor that only ever finds an open theme. */
  ghost predicate AlwaysUnsure(extract: Extractor) {
    forall text, r {:trigger extract(text, r)} :: extract(text, r) == Some(UNSURE)
  }

  /** New messages that only leave a theme open keep a stated trip stated. */
  lemma UnsureTurn(r: Requirements, front: seq<Message>, message: Message, extract: Extractor)
    requires AlwaysUnsure(extract) && !Mentioned(front, message.id) && StatedTrip(Before(r, front, extract, 0))
    ensures StatedTrip(Play(r, front + [message], extract, 0).requirements)
    ensures Complete(Play(r, front + [message], extract, 0).requirements, 0)
    ensures Play(r, front + [message], extract, 0).decision.Some?
    ensures !Play(r, front + [message], extract, 0).decision.value.ready
  {
    hide Play, Before, Awaiting, StatedTrip, Applied, Complete, Mentioned, PlaysAs;
    LastTurn(r, front, message, extract, 0);
    UnsureKeepsStated(Before(r, front, extract, 0));
    StatedIsComplete(Play(r, front + [message], extract, 0).requirements);
    ReadyAfter(r, front, message, extract, 0);
  }

  /** The conversation so far has been judged, and goes on, or not. */
  ghost predicate Goes(r: Requirements, messages: seq<Message>, extract: Extractor, on: bool)
    requires messages != []
  {
    Play(r, messages, extract, 0).decision.Some? && Play(r, messages, extract, 0).decision.value.ready == !on
  }

  lemma FirstTurnLeavesOpen(r: Requirements, front: seq<Message>, extract: Extractor)
    requires StatedTrip(r) && AlwaysUnsure(extract) && |front| == 1
    ensures StatedTrip(Before(r, front, extract, 0)) && Goes(r, front, extract, true)
  {
    assert [] + [front[0]] == front;
    UnsureTurn(r, [], front[0], extract);
  }

  lemma AnswerLeavesOpen(r: Requirements, front: seq<Message>, answer: Message, extract: Extractor)
    requires AlwaysUnsure(extract) && !Mentioned(front, answer.id) && StatedTrip(Before(r, front, extract, 0))
    ensures Goes(r, front + [answer], extract, true) && Goes(r, front + [answer] + [answer], extract, false)
  {
    UnsureTurn(r, front, answer, extract);
    AmbiguityIsForgotten(r, front, answer, extract, 0);
  }

  lemma UnsureExtractor() returns (extract: Extractor)
    ensures AlwaysUnsure(extract)
  {
    extract := (text: string, r: Requirements) => Some(UNSURE);
  }

  lemma StatedTripsExist() returns (r: Requirements)
    ensures StatedTrip(r)
  {
    r := Table(CompleteValue);
    CompleteIsStated(r);
  }

  lemma CompleteIsStated(r: Requirements)
    requires forall f: Field :: r[f] == CompleteValue(f)
    ensures StatedTrip(r)
  {
    forall f | f in STATED ensures Fixed(f, r[f]) {
      CompleteIsFixed(f);
    }
  }

  lemma CompleteIsFixed(f: Field)
    requires f in STATED
    ensures Fixed(f, CompleteValue(f))
  {
  }

  lemma SomeMessages() returns (front: seq<Message>, answer: Message)
    ensures |front| == 1 && !Mentioned(front, answer.id)
  {
    front, answer := [Message("question", "")], Message("answer", "");
    assert |front[0].id| != |answer.id|;
  }

  /**
   * There is such a conversation: a first message and an answer to it leave a theme
   * open, so the conversation goes on after each; the answer delivered again ends it.
   */
  lemma ForgottenAmbiguityExists()
    returns (r: Requirements, front: seq<Message>, answer: Message, extract: Extractor)
    ensures |front| == 1 && !Mentioned(front, answer.id)
    ensures Goes(r, front, extract, true) && Goes(r, front + [answer], extract, true)
    ensures Goes(r, front + [answer] + [answer], extract, false)
  {
    r := StatedTripsExist();
    front, answer := SomeMessages();
    extract := UnsureExtractor();
    FirstTurnLeavesOpen(r, front, extract);
    AnswerLeavesOpen(r, front, answer, extract);
  }
}
