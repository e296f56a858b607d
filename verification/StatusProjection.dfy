/** How an AIJob's public status is derived from the JobSet it owns and from the presence of its
    LocalQueue. */
module StatusProjection {
  import opened Conditions

  const QUEUE_READY := "QueueReady"

  function TruthOf(ready: bool): Truth {
    if ready then True else False
  }

  function Stamped(cs: seq<Condition>, generation: int): (rs: seq<Condition>) {
    seq(|cs|, i requires 0 <= i < |cs| => cs[i].(generation := generation))
  }

  function Projected(generation: int, reported: seq<Condition>): Status {
    Status(generation, Stamped(reported, generation))
  }

  function QueueCondition(generation: int, queue: string, ready: bool): Condition {
    if ready then
      Condition(QUEUE_READY, True, generation, "QueueFound", "LocalQueue \"" + queue + "\" is available", 0)
    else
      Condition(QUEUE_READY, False, generation, "QueueNotFound", "LocalQueue \"" + queue + "\" does not exist", 0)
  }

  /** The conditions a QueueReady entry is set in: the previous one is carried over when the list
      has none. */
  function WithCarriedOver(cs: seq<Condition>, previous: seq<Condition>): seq<Condition> {
    if Has(previous, QUEUE_READY) && !Has(cs, QUEUE_READY) then
      cs + [previous[IndexOf(previous, QUEUE_READY)]]
    else
      cs
  }

  function WithQueue(generation: int, cs: seq<Condition>, previous: seq<Condition>,
                     queue: string, ready: bool, now: int): Status {
    Status(generation, SetCondition(WithCarriedOver(cs, previous), QueueCondition(generation, queue, ready), now))
  }

  /** The QueueReady entry of a list that has one. */
  function QueueReady(cs: seq<Condition>): Condition
    requires Has(cs, QUEUE_READY)
  {
    cs[IndexOf(cs, QUEUE_READY)]
  }

  /** The transition time a flip-only clock would show. */
  function CarriedTime(previous: seq<Condition>, ready: bool, now: int): int {
    if Has(previous, QUEUE_READY) && QueueReady(previous).truth == TruthOf(ready)
    then QueueReady(previous).changed else now
  }

  method StatusFromJobSet(generation: int, reported: seq<Condition>) returns (status: Status)
    ensures status == Projected(generation, reported)
  {
    status := Status(generation, []);
    if |reported| == 0 {
      return;
    }
    var conditions := reported;
    for index := 0 to |conditions|
      invariant |conditions| == |reported|
      invariant forall k :: 0 <= k < index ==> conditions[k] == reported[k].(generation := generation)
      invariant forall k :: index <= k < |reported| ==> conditions[k] == reported[k]
    {
      conditions := conditions[index := conditions[index].(generation := generation)];
    }
    status := status.(conditions := conditions);
  }

  /** `conditions` are those of the status passed in, whose own observed generation is replaced. */
  method StatusWithQueue(generation: int, conditions: seq<Condition>, previous: seq<Condition>,
                         queue: string, ready: bool, now: int) returns (status: Status)
    ensures status == WithQueue(generation, conditions, previous, queue, ready, now)
  {
    var cs := conditions;
    var existing := IndexOf(previous, QUEUE_READY);
    var current := IndexOf(cs, QUEUE_READY);
    if existing < |previous| && current == |cs| {
      cs := cs + [previous[existing]];
    }
    var condition := Condition(QUEUE_READY, False, generation, "QueueNotFound",
                               "LocalQueue \"" + queue + "\" does not exist", 0);
    if ready {
      condition := condition.(truth := True, reason := "QueueFound",
                              message := "LocalQueue \"" + queue + "\" is available");
    }
    status := Status(generation, SetCondition(cs, condition, now));
  }

  lemma StampedKeepsKinds(cs: seq<Condition>, generation: int)
    ensures IndexOf(Stamped(cs, generation), QUEUE_READY) == IndexOf(cs, QUEUE_READY)
    ensures NoDuplicates(cs) ==> NoDuplicates(Stamped(cs, generation))
  {
    var rs := Stamped(cs, generation);
    var i := IndexOf(cs, QUEUE_READY);
    if i < |cs| {
      IndexUnique(rs, QUEUE_READY, i);
    } else {
      assert forall k :: 0 <= k < |cs| ==> rs[k].kind == cs[k].kind;
    }
  }

  /** The same entries, QueueReady apart. */
  ghost predicate SameOthers(rs: seq<Condition>, cs: seq<Condition>) {
    forall c: Condition :: c.kind != QUEUE_READY ==> (c in rs <==> c in cs)
  }

  lemma CarryingOver(cs: seq<Condition>, previous: seq<Condition>)
    ensures var base := WithCarriedOver(cs, previous);
      && (NoDuplicates(cs) ==> NoDuplicates(base))
      && (Has(base, QUEUE_READY) <==> Has(cs, QUEUE_READY) || Has(previous, QUEUE_READY))
      && (Has(cs, QUEUE_READY) ==> base == cs)
      && (Has(previous, QUEUE_READY) && !Has(cs, QUEUE_READY) ==>
            && IndexOf(base, QUEUE_READY) == |cs|
            && base == cs + [QueueReady(previous)])
  {
    if Has(previous, QUEUE_READY) && !Has(cs, QUEUE_READY) {
      IndexAppend(cs, QueueReady(previous));
      assert forall k :: 0 <= k < |cs| ==> cs[k].kind != QUEUE_READY;
    }
  }

  /** Projecting the queue state keeps kinds distinct, frames every other condition, and leaves a
      QueueReady entry that says whether the queue is there, under the given generation. */
  lemma WithQueueFrames(generation: int, cs: seq<Condition>, previous: seq<Condition>,
                        queue: string, ready: bool, now: int)
    ensures var s := WithQueue(generation, cs, previous, queue, ready, now); var rs := s.conditions;
      && s.observedGeneration == generation
      && (NoDuplicates(cs) ==> NoDuplicates(rs))
      && SameOthers(rs, cs)
      && Has(rs, QUEUE_READY)
      && QueueReady(rs) == QueueCondition(generation, queue, ready).(changed := QueueReady(rs).changed)
  {
    var base := WithCarriedOver(cs, previous);
    var c := QueueCondition(generation, queue, ready);
    CarryingOver(cs, previous);
    SetConditionFrames(base, c, now);
    var rs := SetCondition(base, c, now);
    forall d: Condition | d.kind != QUEUE_READY
      ensures d in rs <==> d in cs
    {
      SetConditionMembers(base, c, now, d);
    }
  }

  /** What the projected QueueReady entry says of a queue. */
  predicate Announces(rs: seq<Condition>, generation: int, queue: string, ready: bool) {
    && Has(rs, "QueueReady") && QueueReady(rs).generation == generation
    && if ready then
         QueueReady(rs).truth == True && QueueReady(rs).reason == "QueueFound"
         && QueueReady(rs).message == "LocalQueue \"" + queue + "\" is available"
       else
         QueueReady(rs).truth == False && QueueReady(rs).reason == "QueueNotFound"
         && QueueReady(rs).message == "LocalQueue \"" + queue + "\" does not exist"
  }

  lemma QueueReadySays(generation: int, cs: seq<Condition>, previous: seq<Condition>, queue: string, ready: bool, now: int)
    ensures Announces(WithQueue(generation, cs, previous, queue, ready, now).conditions, generation, queue, ready)
  {
    WithQueueFrames(generation, cs, previous, queue, ready, now);
  }

  /** Every other entry stays where it was. */
  lemma OthersStayInPlace(generation: int, cs: seq<Condition>, previous: seq<Condition>, queue: string, ready: bool, now: int)
    ensures var rs := WithQueue(generation, cs, previous, queue, ready, now).conditions;
      && |cs| <= |rs| <= |cs| + 1
      && (forall k :: 0 <= k < |cs| && cs[k].kind != "QueueReady" ==> rs[k] == cs[k])
      && (|rs| > |cs| ==> rs[|cs|].kind == "QueueReady")
  {
    CarryingOver(cs, previous);
    var base, c := WithCarriedOver(cs, previous), QueueCondition(generation, queue, ready);
    SetConditionFrames(base, c, now);
    if Has(cs, QUEUE_READY) {
      assert base == cs;
    } else {
      SetOnAbsent(cs, previous, c, now);
    }
  }

  /** The transition time of the projected QueueReady entry, in every case. */
  lemma WithQueueTime(generation: int, cs: seq<Condition>, previous: seq<Condition>,
                      queue: string, ready: bool, now: int)
    ensures var rs := WithQueue(generation, cs, previous, queue, ready, now).conditions;
      && Has(rs, QUEUE_READY)
      && (!Has(cs, QUEUE_READY) ==> QueueReady(rs).changed == CarriedTime(previous, ready, now))
      && (Has(cs, QUEUE_READY) ==> QueueReady(rs).changed == CarriedTime(cs, ready, now))
  {
    var base := WithCarriedOver(cs, previous);
    CarryingOver(cs, previous);
    SetConditionFrames(base, QueueCondition(generation, queue, ready), now);
  }

  ghost predicate KeepsTransitionTime(generation: int, cs: seq<Condition>, queue: string) {
    forall previous, ready, now ::
      QueueReadyTime(WithQueue(generation, cs, previous, queue, ready, now)) == CarriedTime(previous, ready, now)
  }

  function QueueReadyTime(s: Status): int {
    if Has(s.conditions, QUEUE_READY) then QueueReady(s.conditions).changed else 0
  }

  /** A status projection keeps the previous QueueReady transition time across everything but a
      flip exactly when the JobSet reports no QueueReady condition of its own. */
  lemma TransitionTimeIsCarriedIff(generation: int, cs: seq<Condition>, queue: string)
    ensures KeepsTransitionTime(generation, cs, queue) <==> !Has(cs, QUEUE_READY)
  {
    if Has(cs, QUEUE_READY) {
      var own := QueueReady(cs);
      var now := own.changed + 1;
      var ready := own.truth == True;
      var previous := if own.truth == Unknown then [QueueCondition(0, queue, false).(changed := now + 1)] else [];
      WithQueueTime(generation, cs, previous, queue, ready, now);
      assert QueueReadyTime(WithQueue(generation, cs, previous, queue, ready, now)) != CarriedTime(previous, ready, now);
    } else {
      forall previous, ready, now
        ensures QueueReadyTime(WithQueue(generation, cs, previous, queue, ready, now)) == CarriedTime(previous, ready, now)
      {
        WithQueueTime(generation, cs, previous, queue, ready, now);
      }
    }
  }

  /** Whether projecting again, at any later time, changes nothing. */
  predicate Settled(cs: seq<Condition>, ready: bool) {
    Has(cs, QUEUE_READY) ==> QueueReady(cs).truth == TruthOf(ready)
  }

  lemma WithQueueAgain(generation: int, cs: seq<Condition>, previous: seq<Condition>,
                       queue: string, ready: bool, now: int, later: int)
    ensures var s := WithQueue(generation, cs, previous, queue, ready, now);
      var again := WithQueue(generation, cs, s.conditions, queue, ready, later);
      && (Settled(cs, ready) ==> again == s)
      && (!Settled(cs, ready) && later != now ==> again != s)
  {
    var s := WithQueue(generation, cs, previous, queue, ready, now);
    var c := QueueCondition(generation, queue, ready);
    if Has(cs, QUEUE_READY) {
      SetConditionFrames(cs, c, now);
      SetConditionFrames(cs, c, later);
    } else {
      SetOnAbsent(cs, previous, c, now);
      CarryingOver(cs, s.conditions);
      SetOnAbsent(cs, s.conditions, c, later);
    }
  }

  /** With no QueueReady of its own, the list gets one at its end. */
  lemma SetOnAbsent(cs: seq<Condition>, previous: seq<Condition>, c: Condition, now: int)
    requires !Has(cs, QUEUE_READY) && c.kind == QUEUE_READY
    ensures var rs := SetCondition(WithCarriedOver(cs, previous), c, now);
      && IndexOf(rs, QUEUE_READY) == |cs| && |rs| == |cs| + 1
      && rs == cs + [c.(changed := if Has(previous, QUEUE_READY) && QueueReady(previous).truth == c.truth
                                   then QueueReady(previous).changed else now)]
  {
    CarryingOver(cs, previous);
    var base := WithCarriedOver(cs, previous);
    SetConditionFrames(base, c, now);
  }

  /** The projection as it would be if no previous entry were carried over. */
  function WithoutCarryingOver(generation: int, cs: seq<Condition>, queue: string, ready: bool, now: int): Status {
    Status(generation, SetCondition(cs, QueueCondition(generation, queue, ready), now))
  }

  /** Carrying the previous entry over is what makes the projection a fixed point: without it, and
      with nothing changed, the status is the same again only at the same instant, so that every
      later pass would write. */
  lemma CarryingOverIsEssential(generation: int, cs: seq<Condition>, previous: seq<Condition>,
                                queue: string, ready: bool, now: int, later: int)
    requires !Has(cs, QUEUE_READY)
    ensures WithoutCarryingOver(generation, cs, queue, ready, later) == WithoutCarryingOver(generation, cs, queue, ready, now)
      <==> later == now
    ensures var s := WithQueue(generation, cs, previous, queue, ready, now);
      WithQueue(generation, cs, s.conditions, queue, ready, later) == s
    ensures !Has(previous, QUEUE_READY) ==>
      WithQueue(generation, cs, previous, queue, ready, now) == WithoutCarryingOver(generation, cs, queue, ready, now)
  {
    var c := QueueCondition(generation, queue, ready);
    SetOnAbsent(cs, [], c, now);
    SetOnAbsent(cs, [], c, later);
    WithQueueAgain(generation, cs, previous, queue, ready, now, later);
  }

  /** Without its queue an AIJob keeps the conditions it had; reporting that again changes nothing. */
  lemma WaitingAgain(generation: int, previous: seq<Condition>, queue: string, now: int, later: int)
    ensures var s := WithQueue(generation, previous, previous, queue, false, now);
      WithQueue(generation, s.conditions, s.conditions, queue, false, later) == s
  {
    var s := WithQueue(generation, previous, previous, queue, false, now);
    WithQueueFrames(generation, previous, previous, queue, false, now);
    SetConditionFrames(s.conditions, QueueCondition(generation, queue, false), later);
    assert WithQueue(generation, s.conditions, s.conditions, queue, false, later).conditions == s.conditions;
  }

  predicate AllStamped(cs: seq<Condition>, generation: int) {
    forall c :: c in cs ==> c.generation == generation
  }

  predicate OthersStamped(cs: seq<Condition>, generation: int) {
    forall k :: 0 <= k < |cs| && cs[k].kind != QUEUE_READY ==> cs[k].generation == generation
  }

  /** While the queue is missing, all conditions carry the current generation exactly when all the
      ones carried over already did. */
  lemma WaitingStampsIff(generation: int, previous: seq<Condition>, queue: string, now: int)
    requires NoDuplicates(previous)
    ensures AllStamped(WithQueue(generation, previous, previous, queue, false, now).conditions, generation)
            <==> OthersStamped(previous, generation)
  {
    var rs := WithQueue(generation, previous, previous, queue, false, now).conditions;
    SetConditionFrames(previous, QueueCondition(generation, queue, false), now);
    assert forall k :: 0 <= k < |previous| && previous[k].kind != QUEUE_READY ==> rs[k] == previous[k];
    if OthersStamped(previous, generation) {
      forall k | 0 <= k < |rs|
        ensures rs[k].generation == generation
      {
        if k != IndexOf(previous, QUEUE_READY) {
          assert rs[k] == previous[k] && rs[k].kind != QUEUE_READY;
        }
      }
    }
  }

  /** A condition carried over from generation 1 still says so in a status for generation 2. */
  lemma WaitingKeepsOldStamps(queue: string, now: int)
    ensures var carried := [Condition("Completed", False, 1, "Running", "", 0)];
      !AllStamped(WithQueue(2, carried, carried, queue, false, now).conditions, 2)
  {
  }

  /** With the queue present, they all do. */
  lemma ProjectionStampsAll(generation: int, cs: seq<Condition>, previous: seq<Condition>, queue: string, now: int)
    requires NoDuplicates(cs)
    ensures AllStamped(WithQueue(generation, Projected(generation, cs).conditions, previous, queue, true, now).conditions,
                       generation)
  {
  }
}
