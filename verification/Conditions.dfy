/** Condition lists, as apimeta.SetStatusCondition maintains them. */
module Conditions {
  import opened Options
  import opened NodeImages

  /** What a caller asks a condition to say. */
  datatype Mark = Mark(status: ConditionStatus, reason: string, message: string)

  /** The position of the first condition of the given type, or the length if there is none. */
  function Position(cs: seq<Condition>, kind: string): (i: nat)
    ensures i <= |cs|
    ensures i < |cs| ==> cs[i].kind == kind
    ensures forall j :: 0 <= j < i ==> cs[j].kind != kind
  {
    if cs == [] || cs[0].kind == kind then 0 else 1 + Position(cs[1..], kind)
  }

  /** The condition list once `kind` says `m`: the transition time moves only when the status does. */
  function Upsert(cs: seq<Condition>, kind: string, m: Mark, generation: int, now: nat): seq<Condition> {
    var i := Position(cs, kind);
    if i == |cs| then
      cs + [Condition(kind, m.status, m.reason, m.message, generation, now)]
    else
      var since := if cs[i].status == m.status then cs[i].lastTransition else now;
      cs[i := Condition(kind, m.status, m.reason, m.message, generation, since)]
  }

  predicate UniqueKinds(cs: seq<Condition>) {
    forall i, j :: 0 <= i < j < |cs| ==> cs[i].kind != cs[j].kind
  }

  /** Asking again, at any time, changes nothing; nor does it ever add a second entry of a type
      or touch an entry of another type. */
  lemma UpsertLaws(cs: seq<Condition>, kind: string, m: Mark, generation: int, now: nat, later: nat)
    requires UniqueKinds(cs)
    ensures var r := Upsert(cs, kind, m, generation, now);
            && UniqueKinds(r)
            && Upsert(r, kind, m, generation, later) == r
            && Position(r, kind) < |r|
            && (forall i :: 0 <= i < |cs| && cs[i].kind != kind ==> i < |r| && r[i] == cs[i])
            && (forall i :: 0 <= i < |r| && r[i].kind != kind ==> i < |cs| && r[i] == cs[i])
            && exists i :: 0 <= i < |r| && r[i].kind == kind && r[i].status == m.status && r[i].reason == m.reason
                 && r[i].message == m.message && r[i].observedGeneration == generation
                 && r[i].lastTransition == if i < |cs| && cs[i].status == m.status then cs[i].lastTransition else now
  {
    var r := Upsert(cs, kind, m, generation, now);
    var i, j := Position(cs, kind), Position(r, kind);
    assert r[i].kind == kind;
    assert i == j;
  }

  lemma PositionUnique(cs: seq<Condition>, i: nat)
    requires i < |cs| && forall j :: 0 <= j < i ==> cs[j].kind != cs[i].kind
    ensures Position(cs, cs[i].kind) == i
  {
  }
}
