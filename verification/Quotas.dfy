/**
 The two-level slots of `resource_quotas`: a background task takes a background permit and then
 a total permit, a foreground task only the latter. A reset makes the next task start from fresh
 semaphores, while tasks already inside give back to the ones they took from. A permit is taken
 without waiting when one is free; one kind of slot (I/O or provider) is modelled.
 */
module Quotas {
  import opened Common

  type Task = nat

  /** The free permits of one pair of semaphores. */
  datatype Quota = Quota(limit: nat, total: nat, background: nat)

  /** Where a task stands, and in which generation of semaphores. */
  datatype Place = WantsBackground(g: nat) | WantsTotal(g: nat, lane: bool) | Inside(g: nat, lane: bool)

  function BackgroundLimit(limit: nat): nat {
    if limit <= 1 then 1 else limit - 1
  }

  /** The tasks that hold a total permit of generation `g`. */
  function Holders(tasks: map<Task, Place>, g: nat): set<Task> {
    set t | t in tasks && tasks[t].Inside? && tasks[t].g == g
  }

  /** The tasks that hold a background permit of generation `g`. */
  function Reservers(tasks: map<Task, Place>, g: nat): set<Task> {
    set t | t in tasks && !tasks[t].WantsBackground? && tasks[t].lane && tasks[t].g == g
  }

  /** Every permit is free or held, in every generation. */
  ghost predicate Balanced(quotas: seq<Quota>, tasks: map<Task, Place>) {
    && (forall t :: t in tasks ==> tasks[t].g < |quotas|)
    && (forall g :: 0 <= g < |quotas| ==>
          && quotas[g].limit >= 1
          && quotas[g].total + |Holders(tasks, g)| == quotas[g].limit
          && quotas[g].background + |Reservers(tasks, g)| == BackgroundLimit(quotas[g].limit))
  }

  class Lanes {
    var quotas: seq<Quota>
    var registered: bool              // the last generation is the registered one
    var tasks: map<Task, Place>

    ghost predicate Valid()
      reads this
    {
      Balanced(quotas, tasks) && (registered ==> quotas != [])
    }

    constructor ()
      ensures Valid() && quotas == [] && tasks == map[] && !registered
    {
      quotas, registered, tasks := [], false, map[];
    }

    /** `_loop_quotas`: the registered semaphores, made with the configured limit if there are none. */
    method Current(limit: nat) returns (g: nat)
      requires Valid() && limit >= 1
      modifies this`quotas, this`registered
      ensures Valid() && registered && g + 1 == |quotas|
      ensures quotas == if old(registered) then old(quotas)
              else old(quotas) + [Quota(limit, limit, BackgroundLimit(limit))]
      ensures !old(registered) ==> quotas[g] == Quota(limit, limit, if limit == 1 then 1 else limit - 1)
    {
      if !registered {
        FreshGeneration(quotas, tasks, limit);
        quotas := quotas + [Quota(limit, limit, BackgroundLimit(limit))];
        registered := true;
      }
      return |quotas| - 1;
    }

    method Reset()
      requires Valid()
      modifies this`registered
      ensures Valid() && !registered
    {
      registered := false;
    }

    /** A task comes to a slot. */
    method Arrive(t: Task, background: bool, limit: nat)
      requires Valid() && t !in tasks && limit >= 1
      modifies this
      ensures Valid() && registered && |quotas| > 0
      ensures quotas == if old(registered) then old(quotas)
              else old(quotas) + [Quota(limit, limit, BackgroundLimit(limit))]
      ensures tasks ==
                old(tasks)[t := if background then WantsBackground(|quotas| - 1) else WantsTotal(|quotas| - 1, false)]
      ensures !old(registered) ==> quotas[|quotas| - 1] == Quota(limit, limit, if limit == 1 then 1 else limit - 1)
    {
      hide Balanced;
      var g := Current(limit);
      var place := if background then WantsBackground(g) else WantsTotal(g, false);
      Arrives(quotas, tasks, t, place);
      tasks := tasks[t := place];
    }

    method TakeBackground(t: Task) returns (taken: bool)
      requires Valid() && t in tasks && tasks[t].WantsBackground?
      modifies this`quotas, this`tasks
      ensures Valid() && |quotas| == |old(quotas)| && old(tasks)[t].g < |quotas|
      ensures taken == (old(quotas)[old(tasks)[t].g].background > 0)
      ensures tasks == if taken then old(tasks)[t := WantsTotal(old(tasks)[t].g, true)] else old(tasks)
      ensures var g := old(tasks)[t].g; var q := old(quotas)[g];
        quotas == if taken then old(quotas)[g := q.(background := q.background - 1)] else old(quotas)
    {
      hide Balanced;
      var g := tasks[t].g;
      Placed(quotas, tasks, t);
      if quotas[g].background == 0 {
        return false;
      }
      TakesBackground(quotas, tasks, t);
      quotas := quotas[g := quotas[g].(background := quotas[g].background - 1)];
      tasks := tasks[t := WantsTotal(g, true)];
      return true;
    }

    method TakeTotal(t: Task) returns (taken: bool)
      requires Valid() && t in tasks && tasks[t].WantsTotal?
      modifies this`quotas, this`tasks
      ensures Valid() && |quotas| == |old(quotas)| && old(tasks)[t].g < |quotas|
      ensures taken == (old(quotas)[old(tasks)[t].g].total > 0)
      ensures tasks == if taken then old(tasks)[t := Inside(old(tasks)[t].g, old(tasks)[t].lane)] else old(tasks)
      ensures var g := old(tasks)[t].g; var q := old(quotas)[g];
        quotas == if taken then old(quotas)[g := q.(total := q.total - 1)] else old(quotas)
    {
      hide Balanced;
      var g := tasks[t].g;
      Placed(quotas, tasks, t);
      if quotas[g].total == 0 {
        return false;
      }
      TakesTotal(quotas, tasks, t);
      quotas := quotas[g := quotas[g].(total := quotas[g].total - 1)];
      tasks := tasks[t := Inside(g, tasks[t].lane)];
      return true;
    }

    /** A task leaves, from inside or (cancelled) while it waits: it gives back what it holds, total first. */
    method Leave(t: Task)
      requires Valid() && t in tasks
      modifies this`quotas, this`tasks
      ensures Valid() && tasks == old(tasks) - {t} && |quotas| == |old(quotas)| && old(tasks)[t].g < |quotas|
      ensures var p := old(tasks)[t]; var q := old(quotas)[p.g];
        quotas == old(quotas)[p.g := match p
                                     case WantsBackground(_) => q
                                     case WantsTotal(_, lane) => if lane then q.(background := q.background + 1) else q
                                     case Inside(_, lane) =>
                                       if lane then q.(total := q.total + 1, background := q.background + 1)
                                       else q.(total := q.total + 1)]
    {
      hide Balanced;
      var place := tasks[t];
      var g := place.g;
      Placed(quotas, tasks, t);
      Leaves(quotas, tasks, t);
      var q := quotas[g];
      if place.Inside? {
        q := q.(total := q.total + 1);
      }
      if !place.WantsBackground? && place.lane {
        q := q.(background := q.background + 1);
      }
      quotas := quotas[g := q];
      tasks := tasks - {t};
    }
  }

  // ----- Keeping the balance -----

  lemma Placed(quotas: seq<Quota>, tasks: map<Task, Place>, t: Task)
    requires Balanced(quotas, tasks) && t in tasks
    ensures tasks[t].g < |quotas|
  {
  }

  lemma FreshGeneration(quotas: seq<Quota>, tasks: map<Task, Place>, limit: nat)
    requires Balanced(quotas, tasks) && limit >= 1
    ensures Balanced(quotas + [Quota(limit, limit, BackgroundLimit(limit))], tasks)
  {
    assert Holders(tasks, |quotas|) == {} && Reservers(tasks, |quotas|) == {};
  }

  lemma Arrives(quotas: seq<Quota>, tasks: map<Task, Place>, t: Task, place: Place)
    requires Balanced(quotas, tasks) && t !in tasks && place.g < |quotas|
    requires place.WantsBackground? || (place.WantsTotal? && !place.lane)
    ensures Balanced(quotas, tasks[t := place])
  {
    forall g: nat
      ensures Holders(tasks[t := place], g) == Holders(tasks, g)
              && Reservers(tasks[t := place], g) == Reservers(tasks, g)
    {
    }
  }

  lemma TakesBackground(quotas: seq<Quota>, tasks: map<Task, Place>, t: Task)
    requires Balanced(quotas, tasks) && t in tasks && tasks[t].WantsBackground? && tasks[t].g < |quotas|
    requires quotas[tasks[t].g].background > 0
    ensures var g := tasks[t].g;
      Balanced(quotas[g := quotas[g].(background := quotas[g].background - 1)], tasks[t := WantsTotal(g, true)])
  {
    var after := tasks[t := WantsTotal(tasks[t].g, true)];
    forall g: nat
      ensures Holders(after, g) == Holders(tasks, g)
      ensures Reservers(after, g) == if g == tasks[t].g then Reservers(tasks, g) + {t} else Reservers(tasks, g)
    {
    }
  }

  lemma TakesTotal(quotas: seq<Quota>, tasks: map<Task, Place>, t: Task)
    requires Balanced(quotas, tasks) && t in tasks && tasks[t].WantsTotal? && tasks[t].g < |quotas|
    requires quotas[tasks[t].g].total > 0
    ensures var g := tasks[t].g;
      Balanced(quotas[g := quotas[g].(total := quotas[g].total - 1)], tasks[t := Inside(g, tasks[t].lane)])
  {
    var after := tasks[t := Inside(tasks[t].g, tasks[t].lane)];
    forall g: nat
      ensures Holders(after, g) == if g == tasks[t].g then Holders(tasks, g) + {t} else Holders(tasks, g)
      ensures Reservers(after, g) == Reservers(tasks, g)
    {
    }
  }

  lemma Leaves(quotas: seq<Quota>, tasks: map<Task, Place>, t: Task)
    requires Balanced(quotas, tasks) && t in tasks && tasks[t].g < |quotas|
    ensures var p := tasks[t]; var q := quotas[p.g];
      Balanced(quotas[p.g := q.(total := if p.Inside? then q.total + 1 else q.total,
                                background := if !p.WantsBackground? && p.lane then q.background + 1
                                  else q.background)],
               tasks - {t})
  {
    var after := tasks - {t};
    forall g: nat
      ensures Holders(after, g) == Holders(tasks, g) - {t}
      ensures Reservers(after, g) == Reservers(tasks, g) - {t}
    {
    }
  }

  // ----- What the balance means -----

  /**
   With a limit of at least two background tasks hold at most `limit - 1` total permits. While only
   background tasks hold some, one is free for the foreground if and only if the limit is at least two.
   */
  lemma BackgroundLeavesRoom(quotas: seq<Quota>, tasks: map<Task, Place>, g: nat)
    requires Balanced(quotas, tasks) && g < |quotas|
    ensures quotas[g].limit >= 2 ==> |Holders(tasks, g) * Reservers(tasks, g)| <= quotas[g].limit - 1
    ensures Holders(tasks, g) != {} && Holders(tasks, g) <= Reservers(tasks, g) ==>
              (quotas[g].total > 0 <==> quotas[g].limit >= 2)
    ensures Holders(tasks, g) == {} ==> quotas[g].total > 0
  {
    Within(Holders(tasks, g) * Reservers(tasks, g), Reservers(tasks, g));
    if Holders(tasks, g) <= Reservers(tasks, g) {
      Within(Holders(tasks, g), Reservers(tasks, g));
    }
  }

  lemma {:induction false} Within(a: set<Task>, b: set<Task>)
    requires a <= b
    ensures |a| <= |b|
  {
    assert b == a + (b - a);
  }

  /** With a limit of one, a single background task shuts the foreground out. */
  method LimitOneBlocks() returns (l: Lanes)
    ensures fresh(l) && l.Valid() && l.quotas == [Quota(1, 0, 0)]
    ensures 1 in l.tasks && l.tasks[1] == Inside(0, true) && 2 in l.tasks && l.tasks[2] == WantsTotal(0, false)
  {
    l := new Lanes();
    l.Arrive(1, true, 1);
    var a := l.TakeBackground(1);
    var b := l.TakeTotal(1);
    l.Arrive(2, false, 1);
  }

  /** A task can go on now: the permit it wants is free, or it is inside and may leave. */
  predicate CanMove(quotas: seq<Quota>, tasks: map<Task, Place>, t: Task) {
    && t in tasks && tasks[t].g < |quotas|
    && match tasks[t]
       case WantsBackground(g) => quotas[g].background > 0
       case WantsTotal(g, _) => quotas[g].total > 0
       case Inside(_, _) => true
  }

  /** No deadlock: if a task is at the slots of a generation, some task of that generation can go on. */
  lemma SomeoneCanMove(quotas: seq<Quota>, tasks: map<Task, Place>, t: Task) returns (mover: Task)
    requires Balanced(quotas, tasks) && t in tasks
    ensures CanMove(quotas, tasks, mover) && tasks[mover].g == tasks[t].g && tasks[t].g < |quotas|
    ensures var q := quotas[tasks[t].g];
      || tasks[mover].Inside? || (tasks[mover].WantsTotal? && q.total > 0)
      || (tasks[mover].WantsBackground? && q.background > 0)
  {
    var g := tasks[t].g;
    if CanMove(quotas, tasks, t) {
      return t;
    }
    mover := t;
    if tasks[t].WantsBackground? {
      assert |Reservers(tasks, g)| >= 1;
      mover :| mover in Reservers(tasks, g);
    }
    if !CanMove(quotas, tasks, mover) {
      assert |Holders(tasks, g)| >= 1;
      mover :| mover in Holders(tasks, g);
    }
  }

  /** Once every task of a generation has left, all its permits are back. */
  lemma AllPermitsReturn(quotas: seq<Quota>, tasks: map<Task, Place>, g: nat)
    requires Balanced(quotas, tasks) && g < |quotas| && forall t :: t in tasks ==> tasks[t].g != g
    ensures quotas[g] == Quota(quotas[g].limit, quotas[g].limit, BackgroundLimit(quotas[g].limit))
  {
    assert Holders(tasks, g) == {} && Reservers(tasks, g) == {};
  }
}
