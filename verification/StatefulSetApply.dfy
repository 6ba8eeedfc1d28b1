/**
 applyStatefulSet: the live object is rewritten only when the hash stored on it differs
 from the desired one. The StatefulSet controller writes the same object meanwhile, and
 hibernation changes its size without touching the hash.
 */
module StatefulSetApply {
  import opened Common

  /** retry.DefaultRetry. */
  const ATTEMPTS: nat := 5

  /** The fields the operator reconciles. */
  datatype Fields = Fields(replicas: nat, template: string, strategy: string, labels: map<string, string>)

  /** A StatefulSet; `rest` is everything else on it: immutable fields and status. */
  datatype Object = Object(fields: Fields, annotation: Option<string>, rest: string)

  /** Reading a missing annotation gives the empty string. */
  function Annotation(o: Object): string { if o.annotation.None? then "" else o.annotation.value }

  function Stamped(o: Object, hash: Fields -> string): Object { o.(annotation := Some(hash(o.fields))) }

  /** appliedSpecHash, taken as collision-free; it is empty only for what cannot be marshalled. */
  ghost predicate IsHash(hash: Fields -> string) {
    && (forall a: Fields, b: Fields :: hash(a) == hash(b) ==> a == b)
    && (forall a: Fields :: hash(a) != "")
  }

  function Last(conflicts: seq<string>, rest: string): string {
    if conflicts == [] then rest else conflicts[|conflicts| - 1]
  }

  /**
   What one pass does to the stored object (None: NotFound) and whether it succeeds.
   Each element of `conflicts` is a foreign write of `rest` that defeats one attempt.
   */
  function Pass(live: Option<Object>, desired: Object, hash: Fields -> string,
                conflicts: seq<string>): (Option<Object>, bool) {
    match live
    case None => (Some(Stamped(desired, hash)), true)
    case Some(cur) =>
      if Annotation(cur) == hash(desired.fields) then (live, true)
      else if |conflicts| >= ATTEMPTS then (Some(cur.(rest := conflicts[ATTEMPTS - 1])), false)
      else (Some(Object(desired.fields, Some(hash(desired.fields)), Last(conflicts, cur.rest))), true)
  }

  /** The API server's copy, and how often the operator wrote it. */
  class Store {
    var live: Option<Object>
    var writes: nat

    constructor (live: Option<Object>)
      ensures this.live == live && writes == 0
    {
      this.live, writes := live, 0;
    }

    /** Get, create if missing; otherwise get, compare, overwrite and update until no one else wrote in between. */
    method ApplyStatefulSet(desired: Object, hash: Fields -> string, conflicts: seq<string>) returns (ok: bool)
      modifies this
      ensures (live, ok) == Pass(old(live), desired, hash, conflicts)
      ensures writes == old(writes) +
              if ok && (old(live).None? || Annotation(old(live).value) != hash(desired.fields)) then 1 else 0
    {
      var desiredHash := hash(desired.fields);
      if live.None? {
        live, writes := Some(desired.(annotation := Some(desiredHash))), writes + 1;
        return true;
      }
      for attempt := 0 to ATTEMPTS
        invariant attempt <= |conflicts| && writes == old(writes)
        invariant live == Some(old(live).value.(rest := Last(conflicts[..attempt], old(live).value.rest)))
        invariant attempt > 0 ==> Annotation(old(live).value) != desiredHash
      {
        var cur := live.value;
        if Annotation(cur) == desiredHash { return true; }
        cur := cur.(fields := desired.fields, annotation := Some(desiredHash));
        if attempt == |conflicts| {
          assert conflicts[..attempt] == conflicts;
          live, writes := Some(cur), writes + 1;
          return true;
        }
        live := Some(live.value.(rest := conflicts[attempt]));
      }
      ok := false;
    }
  }

  // ---------------------------------------------------------------------- runs

  datatype Event =
    | Apply(desired: Object, conflicts: seq<string>)
    | Status(rest: string)  // the StatefulSet controller
    | Hibernate

  function Step(live: Option<Object>, hash: Fields -> string, e: Event): Option<Object> {
    match e
    case Apply(desired, conflicts) => Pass(live, desired, hash, conflicts).0
    case Status(rest) => if live.None? then None else Some(live.value.(rest := rest))
    case Hibernate => if live.None? then None else Some(live.value.(fields := live.value.fields.(replicas := 0)))
  }

  function Run(live: Option<Object>, hash: Fields -> string, events: seq<Event>): Option<Object> {
    if events == [] then live else Step(Run(live, hash, events[..|events| - 1]), hash, events[|events| - 1])
  }

  /** The reference: every pass overwrites the fields, unless it keeps being defeated. */
  function Overwritten(fields: Option<Fields>, events: seq<Event>): Option<Fields> {
    if events == [] then fields
    else
      var before := Overwritten(fields, events[..|events| - 1]);
      match events[|events| - 1]
      case Apply(desired, conflicts) =>
        if before.Some? && |conflicts| >= ATTEMPTS then before else Some(desired.fields)
      case Status(_) => before
      case Hibernate => if before.None? then None else Some(before.value.(replicas := 0))
  }

  function FieldsOf(live: Option<Object>): Option<Fields> { if live.None? then None else Some(live.value.fields) }

  /** The annotation, if there is one, is the hash of the fields beside it. */
  ghost predicate Honest(live: Option<Object>, hash: Fields -> string) {
    live.Some? && live.value.annotation.Some? ==> live.value.annotation.value == hash(live.value.fields)
  }

  /**
   The gated apply refines the unconditional one: in every run where nobody else writes
   the reconciled fields, the two leave the same fields after every step.
   */
  lemma {:induction false} GatedRefinesUnconditional(live: Option<Object>, hash: Fields -> string, events: seq<Event>)
    requires IsHash(hash) && Honest(live, hash) && Hibernate !in events
    ensures Honest(Run(live, hash, events), hash)
    ensures FieldsOf(Run(live, hash, events)) == Overwritten(FieldsOf(live), events)
  {
    if events != [] {
      GatedRefinesUnconditional(live, hash, events[..|events| - 1]);
      assert events[|events| - 1] in events;
    }
  }

  /** After a pass that succeeds the live fields are the desired ones, and nothing written by others is lost. */
  lemma LiveIsDesired(live: Option<Object>, hash: Fields -> string, events: seq<Event>, desired: Object,
                      conflicts: seq<string>)
    requires IsHash(hash) && Honest(live, hash) && Hibernate !in events
    requires Pass(Run(live, hash, events), desired, hash, conflicts).1
    ensures var before := Run(live, hash, events); var after := Pass(before, desired, hash, conflicts).0;
            && FieldsOf(after) == Some(desired.fields)
            && (before.Some? ==> after.value.rest == before.value.rest || after.value.rest in conflicts)
  {
    GatedRefinesUnconditional(live, hash, events);
  }

  lemma {:induction false} StatusKeeps(live: Option<Object>, hash: Fields -> string, events: seq<Event>)
    requires live.Some? && forall e :: e in events ==> e.Status?
    ensures Run(live, hash, events).Some?
    ensures Run(live, hash, events).value.fields == live.value.fields
    ensures Run(live, hash, events).value.annotation == live.value.annotation
  {
    if events != [] {
      StatusKeeps(live, hash, events[..|events| - 1]);
      assert events[|events| - 1] in events;
    }
  }

  /** Asking again for the fields a pass has just applied writes nothing, whatever else changed since. */
  lemma SameDesiredNoWrite(live: Option<Object>, hash: Fields -> string, desired: Object, again: Object,
                           conflicts: seq<string>, more: seq<string>, between: seq<Event>)
    requires Pass(live, desired, hash, conflicts).1 && again.fields == desired.fields
    requires forall e :: e in between ==> e.Status?
    ensures var before := Run(Pass(live, desired, hash, conflicts).0, hash, between);
            Pass(before, again, hash, more) == (before, true)
  {
    StatusKeeps(Pass(live, desired, hash, conflicts).0, hash, between);
  }

  /** `applied` is what the annotation of the object stands for: its fields, or what hibernation left of them. */
  ghost predicate StandsFor(o: Object, hash: Fields -> string, applied: Fields) {
    Annotation(o) == hash(applied) && (o.fields == applied || o.fields == applied.(replicas := 0))
  }

  /** In every run, hibernations included, a stamped object stands for the fields some pass applied. */
  lemma {:induction false} SomeApplied(live: Option<Object>, hash: Fields -> string, events: seq<Event>)
    returns (applied: Fields)
    requires IsHash(hash) && Honest(live, hash)
    requires var o := Run(live, hash, events); o.Some? && o.value.annotation.Some?
    ensures StandsFor(Run(live, hash, events).value, hash, applied)
  {
    if events == [] {
      applied := live.value.fields;
    } else {
      var before, e := Run(live, hash, events[..|events| - 1]), events[|events| - 1];
      if e.Apply? && (before.None? || Annotation(before.value) != hash(e.desired.fields))
            && Pass(before, e.desired, hash, e.conflicts).1 {
        applied := e.desired.fields;
      } else {
        applied := SomeApplied(live, hash, events[..|events| - 1]);
      }
    }
  }

  /**
   One pass over such an object leaves the desired fields exactly when they are not the applied
   ones, or those are in place.
   */
  lemma PassRestoresIff(cur: Object, hash: Fields -> string, applied: Fields, desired: Object, conflicts: seq<string>)
    requires IsHash(hash) && StandsFor(cur, hash, applied) && |conflicts| < ATTEMPTS
    ensures var woken := Pass(Some(cur), desired, hash, conflicts);
            woken.1 && (FieldsOf(woken.0) == Some(desired.fields) <==>
                  desired.fields != applied || cur.fields == applied)
  {
  }

  /**
   Hibernation is a foreign writer. Waking up is an ordinary pass. In every run, however
   often hibernated before, a pass after hibernating brings the desired fields back exactly
   when they are not the ones the annotation stands for, or those had no replicas anyway:
   an unchanged spec stays at zero replicas.
   */
  lemma WakesIff(live: Option<Object>, hash: Fields -> string, events: seq<Event>, desired: Object,
                 conflicts: seq<string>)
    returns (applied: Fields)
    requires IsHash(hash) && Honest(live, hash) && |conflicts| < ATTEMPTS
    requires var before := Run(live, hash, events); before.Some? && before.value.annotation.Some?
    ensures var before := Run(live, hash, events).value;
            var woken := Pass(Step(Some(before), hash, Hibernate), desired, hash, conflicts);
            && StandsFor(before, hash, applied) && woken.1
            && (FieldsOf(woken.0) == Some(desired.fields) <==> desired.fields != applied || applied.replicas == 0)
            && (desired.fields == applied ==> FieldsOf(woken.0).value.replicas == 0)
  {
    applied := SomeApplied(live, hash, events);
    PassRestoresIff(Step(Run(live, hash, events), hash, Hibernate).value, hash, applied, desired, conflicts);
  }

  /** Without an earlier hibernation the annotation stands for the live fields. */
  lemma StandsForLive(live: Option<Object>, hash: Fields -> string, events: seq<Event>, applied: Fields)
    requires IsHash(hash) && Honest(live, hash) && Hibernate !in events
    requires var o := Run(live, hash, events); o.Some? && o.value.annotation.Some? && StandsFor(o.value, hash, applied)
    ensures Run(live, hash, events).value.fields == applied
  {
    GatedRefinesUnconditional(live, hash, events);
  }

  /**
   The empty hash of a value that cannot be marshalled is no sure mismatch: differing
   fields are applied exactly when the live object carries a non-empty annotation. One
   without an annotation, or written by such a pass before, is skipped.
   */
  lemma UnhashableAppliedIff(cur: Object, desired: Object, hash: Fields -> string, conflicts: seq<string>)
    requires hash(desired.fields) == "" && cur.fields != desired.fields && |conflicts| < ATTEMPTS
    ensures FieldsOf(Pass(Some(cur), desired, hash, conflicts).0) == Some(desired.fields) <==> Annotation(cur) != ""
  {
  }
}
