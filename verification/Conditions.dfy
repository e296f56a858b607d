/** Status conditions as the Kubernetes API machinery keeps them: a list with at most one entry
    per kind, looked up and replaced by kind. */
module Conditions {

  datatype Truth = True | False | Unknown

  /** `changed` is the last transition time, in whole seconds. */
  datatype Condition = Condition(
    kind: string, truth: Truth, generation: int, reason: string, message: string, changed: int)

  datatype Status = Status(observedGeneration: int, conditions: seq<Condition>)

  /** The position of the first condition of a kind, or the length when there is none. */
  function IndexOf(cs: seq<Condition>, kind: string): (i: nat)
    ensures i <= |cs|
    ensures i < |cs| ==> cs[i].kind == kind
    ensures forall k :: 0 <= k < i ==> cs[k].kind != kind
  {
    if cs == [] || cs[0].kind == kind then 0 else 1 + IndexOf(cs[1..], kind)
  }

  predicate Has(cs: seq<Condition>, kind: string) {
    IndexOf(cs, kind) < |cs|
  }

  predicate NoDuplicates(cs: seq<Condition>) {
    forall i, j :: 0 <= i < j < |cs| ==> cs[i].kind != cs[j].kind
  }

  /** SetStatusCondition for a condition that carries no transition time of its own: replace by
      kind in place, or append; the transition time moves only when the truth value does. */
  function SetCondition(cs: seq<Condition>, c: Condition, now: int): seq<Condition> {
    var i := IndexOf(cs, c.kind);
    if i == |cs| then
      cs + [c.(changed := now)]
    else
      cs[i := c.(changed := if cs[i].truth == c.truth then cs[i].changed else now)]
  }

  lemma IndexUnique(cs: seq<Condition>, kind: string, i: nat)
    requires i < |cs| && cs[i].kind == kind
    requires forall k :: 0 <= k < i ==> cs[k].kind != kind
    ensures IndexOf(cs, kind) == i
  {
  }

  lemma IndexAppend(cs: seq<Condition>, c: Condition)
    requires !Has(cs, c.kind)
    ensures IndexOf(cs + [c], c.kind) == |cs|
  {
    IndexUnique(cs + [c], c.kind, |cs|);
  }

  /** Setting a condition keeps kinds distinct, leaves exactly one entry of that kind, and frames
      every other entry. */
  lemma SetConditionFrames(cs: seq<Condition>, c: Condition, now: int)
    ensures var rs := SetCondition(cs, c, now); var i := IndexOf(cs, c.kind);
      && i < |rs| && IndexOf(rs, c.kind) == i
      && rs[i] == c.(changed := rs[i].changed)
      && |rs| == (if i < |cs| then |cs| else |cs| + 1)
      && (forall k :: 0 <= k < |cs| && k != i ==> rs[k] == cs[k])
      && (NoDuplicates(cs) ==> NoDuplicates(rs))
  {
    var rs := SetCondition(cs, c, now);
    var i := IndexOf(cs, c.kind);
    IndexUnique(rs, c.kind, i);
    if i == |cs| {
      assert forall k :: 0 <= k < |cs| ==> cs[k].kind != c.kind;
    }
  }

  lemma SetConditionMembers(cs: seq<Condition>, c: Condition, now: int, d: Condition)
    requires d.kind != c.kind
    ensures d in SetCondition(cs, c, now) <==> d in cs
  {
    SetConditionFrames(cs, c, now);
    var rs := SetCondition(cs, c, now);
    if d in cs {
      var k :| 0 <= k < |cs| && cs[k] == d;
      assert rs[k] == d;
    }
    if d in rs {
      var k :| 0 <= k < |rs| && rs[k] == d;
      assert k != IndexOf(cs, c.kind);
      assert cs[k] == d;
    }
  }
}
