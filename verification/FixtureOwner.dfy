/**
 * Ownership of fixture containers: the awaits of create, remove and dispose as the steps of a state
 * machine, in any interleaving with each other and with the container daemon.
 */
module FixtureOwner {
  import opened Text

  // ---------------------------------------------------------------- state

  /** What never changes about a container: its name and whether it carries this owner's label. */
  datatype Box = Box(name: string, mine: bool)

  /** Every container there ever was, under its immutable ID, and those that still exist. */
  datatype Daemon = Daemon(boxes: map<int, Box>, live: set<int>)

  /** The fields of the owner; an admitted name without an ID maps to `None`. */
  datatype Owner = Owner(containers: map<string, Option<int>>, admissions: set<nat>, revoked: bool)

  datatype CreatePhase = Issued | Effective(id: int) | Created | Refused

  /** Where a `remove` stands: a command is out, or it is answered and the code after its await runs next. */
  datatype RemovePhase =
    | Lookup
    | LookedUp(found: Option<int>)
    | Check(id: int)
    | Checked(id: int, present: bool)
    | Inspect(id: int)
    | Inspected(id: int, mine: bool)
    | Remove(id: int)
    | Removed(id: int)
    | Recheck(id: int)
    | Rechecked(id: int, present: bool)
    | Done
    | Rejected

  datatype DisposePhase = Waiting | Removing(tasks: set<nat>) | Resolved | Failed

  datatype Create = Create(name: string, phase: CreatePhase)
  datatype Removal = Removal(name: string, phase: RemovePhase)
  datatype Disposal = Disposal(waits: set<nat>, phase: DisposePhase)

  datatype State = State(
    daemon: Daemon, owner: Owner,
    creates: map<nat, Create>, removes: map<nat, Removal>, disposes: map<nat, Disposal>)

  datatype Event =
    | CreateCall(op: nat, name: string)
    | CreateEffect(op: nat, id: int)
    | CreateSettle(op: nat, ok: bool)
    | RemoveCall(t: nat, name: string)
    | LookupAnswer(t: nat, found: Option<int>)
    | Answer(t: nat)
    | CommandFails(t: nat)
    | Continue(t: nat)
    | DisposeCall(d: nat)
    | DisposeSpawn(d: nat, tasks: map<string, nat>)
    | DisposeSettle(d: nat)
    | Foreign(id: int, name: string)
    | Vanish(id: int)

  const INITIAL := State(Daemon(map[], {}), Owner(map[], {}, false), map[], map[], map[])

  // ---------------------------------------------------------------- the owner's own code

  function Admit(o: Owner, name: string, op: nat): Owner {
    o.(containers := o.containers[name := None], admissions := o.admissions + {op})
  }

  /** The end of a create command: the ID is recorded only when it was returned. */
  function Settle(o: Owner, name: string, op: nat, id: Option<int>): Owner {
    o.(containers := if id.Some? then o.containers[name := id] else o.containers, admissions := o.admissions - {op})
  }

  /** The first phase of a removal; a name that is not tracked is already removed. */
  function FirstPhase(o: Owner, name: string): RemovePhase {
    if name !in o.containers then Done
    else if o.containers[name].None? then Lookup
    else Check(o.containers[name].value)
  }

  /** The code after an await in `remove`: what it stores and what it waits for next. */
  function AfterAwait(o: Owner, name: string, phase: RemovePhase): (Owner, RemovePhase) {
    match phase
    case LookedUp(None) => (o.(containers := o.containers - {name}), Done)
    case LookedUp(Some(id)) => (o.(containers := o.containers[name := Some(id)]), Check(id))
    case Checked(id, present) => if present then (o, Inspect(id)) else (o.(containers := o.containers - {name}), Done)
    case Inspected(id, mine) => (o, if mine then Remove(id) else Rejected)
    case Removed(id) => (o, Recheck(id))
    case Rechecked(id, present) => if present then (o, Rejected) else (o.(containers := o.containers - {name}), Done)
    case _ => (o, phase)
  }

  /** The class itself: each method is the code between two awaits. */
  class FixtureContainerOwner {
    var containers: map<string, Option<int>>
    var admissions: set<nat>
    var revoked: bool

    function Model(): Owner
      reads this
    {
      Owner(containers, admissions, revoked)
    }

    constructor ()
      ensures Model() == INITIAL.owner
    {
      containers, admissions, revoked := map[], {}, false;
    }

    /** create, up to its command; the name is admitted before the command is sent. */
    method BeginCreate(name: string, op: nat) returns (r: Result<()>)
      modifies this
      ensures r.Ok? <==> !old(revoked) && name !in old(containers)
      ensures Model() == if r.Ok? then Admit(old(Model()), name, op) else old(Model())
    {
      if revoked || name in containers {
        return Error;
      }
      containers := containers[name := None];
      admissions := admissions + {op};
      r := Ok(());
    }

    method EndCreate(name: string, op: nat, id: Option<int>)
      modifies this
      ensures Model() == Settle(old(Model()), name, op, id)
    {
      if id.Some? {
        containers := containers[name := id];
      }
      admissions := admissions - {op};
    }

    /** start: only an ID that is tracked, and only before revocation. */
    method Start(id: int) returns (r: Result<()>)
      ensures r.Ok? <==> !revoked && exists name :: name in containers && containers[name] == Some(id)
    {
      if !revoked && Some(id) in containers.Values {
        r := Ok(());
      } else {
        r := Error;
      }
    }

    method BeginRemove(name: string) returns (phase: RemovePhase)
      ensures phase == FirstPhase(Model(), name)
    {
      if name !in containers {
        return Done;
      }
      var id := containers[name];
      phase := if id.None? then Lookup else Check(id.value);
    }

    method ResumeRemove(name: string, phase: RemovePhase) returns (next: RemovePhase)
      modifies this
      ensures (Model(), next) == AfterAwait(old(Model()), name, phase)
    {
      next := phase;
      match phase {
        case LookedUp(None) => containers, next := containers - {name}, Done;
        case LookedUp(Some(id)) => containers, next := containers[name := Some(id)], Check(id);
        case Inspected(id, mine) => next := if mine then Remove(id) else Rejected;
        case Removed(id) => next := Recheck(id);
        case Checked(id, true) => next := Inspect(id);
        case Rechecked(_, true) => next := Rejected;
        case Checked(_, false) => containers, next := containers - {name}, Done;
        case Rechecked(_, false) => containers, next := containers - {name}, Done;
        case _ =>
      }
    }

    /** dispose, up to its first await. */
    method BeginDispose() returns (waits: set<nat>)
      modifies this
      ensures Model() == old(Model()).(revoked := true) && waits == old(admissions)
    {
      revoked := true;
      waits := admissions;
    }
  }

  // ---------------------------------------------------------------- steps

  predicate Pending(c: Create) { c.phase.Issued? || c.phase.Effective? }

  predicate Active(r: Removal) { !r.phase.Done? && !r.phase.Rejected? }

  ghost predicate LiveMine(s: State, id: int, name: string) {
    id in s.daemon.live && id in s.daemon.boxes && s.daemon.boxes[id] == Box(name, true)
  }

  ghost predicate NameFree(s: State, name: string) {
    forall id :: id in s.daemon.live && id in s.daemon.boxes ==> s.daemon.boxes[id].name != name
  }

  /** What a `ps` or `inspect` answers, and what `rm` does when it is carried out. */
  function Answered(d: Daemon, phase: RemovePhase): (Daemon, RemovePhase) {
    match phase
    case Check(id) => (d, Checked(id, id in d.live))
    case Inspect(id) => (d, if id in d.live && id in d.boxes then Inspected(id, d.boxes[id].mine) else Rejected)
    case Remove(id) => (d.(live := d.live - {id}), Removed(id))
    case Recheck(id) => (d, Rechecked(id, id in d.live))
    case _ => (d, phase)
  }

  ghost predicate Enabled(s: State, e: Event) {
    match e
    case CreateCall(op, name) => !s.owner.revoked && name !in s.owner.containers && op !in s.creates
    case CreateEffect(op, id) => op in s.creates && s.creates[op].phase.Issued? && id !in s.daemon.boxes
                                 && NameFree(s, s.creates[op].name)
    case CreateSettle(op, ok) => op in s.creates && Pending(s.creates[op]) && (ok ==> s.creates[op].phase.Effective?)
    case RemoveCall(t, name) => t !in s.removes
    case LookupAnswer(t, found) =>
      && t in s.removes && s.removes[t].phase.Lookup?
      && (found.Some? ==> LiveMine(s, found.value, s.removes[t].name))
      && (found.None? ==> forall id :: !LiveMine(s, id, s.removes[t].name))
    case Answer(t) => t in s.removes && s.removes[t].phase != Answered(s.daemon, s.removes[t].phase).1
    case CommandFails(t) =>
      t in s.removes && var p := s.removes[t].phase;
      p.Lookup? || p.Check? || p.Inspect? || p.Remove? || p.Removed? || p.Recheck?
    case Continue(t) => t in s.removes
                        && s.removes[t].phase != AfterAwait(s.owner, s.removes[t].name, s.removes[t].phase).1
    case DisposeCall(d) => d !in s.disposes
    case DisposeSpawn(d, tasks) =>
      && d in s.disposes && s.disposes[d].phase.Waiting? && s.disposes[d].waits !! s.owner.admissions
      && tasks.Keys == s.owner.containers.Keys
      && (forall n :: n in tasks ==> tasks[n] !in s.removes)
      && (forall m, n :: m in tasks && n in tasks && m != n ==> tasks[m] != tasks[n])
    case DisposeSettle(d) =>
      && d in s.disposes && s.disposes[d].phase.Removing?
      && forall t :: t in s.disposes[d].phase.tasks ==> t in s.removes && !Active(s.removes[t])
    case Foreign(id, name) => id !in s.daemon.boxes && NameFree(s, name)
    case Vanish(id) => id in s.daemon.live
  }

  /** The removals that `dispose` starts, one for each tracked name. */
  ghost function Spawned(s: State, tasks: map<string, nat>): map<nat, Removal> {
    map t | t in tasks.Values :: var n :| n in tasks && tasks[n] == t; Removal(n, FirstPhase(s.owner, n))
  }

  ghost function Next(s: State, e: Event): State
    requires Enabled(s, e)
  {
    match e
    case CreateCall(op, name) =>
      s.(owner := Admit(s.owner, name, op), creates := s.creates[op := Create(name, Issued)])
    case CreateEffect(op, id) =>
      s.(daemon := Daemon(s.daemon.boxes[id := Box(s.creates[op].name, true)], s.daemon.live + {id}),
         creates := s.creates[op := s.creates[op].(phase := Effective(id))])
    case CreateSettle(op, ok) =>
      var c := s.creates[op];
      s.(owner := Settle(s.owner, c.name, op, if ok then Some(c.phase.id) else None),
         creates := s.creates[op := c.(phase := if ok then Created else Refused)])
    case RemoveCall(t, name) => s.(removes := s.removes[t := Removal(name, FirstPhase(s.owner, name))])
    case LookupAnswer(t, found) => s.(removes := s.removes[t := s.removes[t].(phase := LookedUp(found))])
    case Answer(t) =>
      var (daemon, phase) := Answered(s.daemon, s.removes[t].phase);
      s.(daemon := daemon, removes := s.removes[t := s.removes[t].(phase := phase)])
    case CommandFails(t) => s.(removes := s.removes[t := s.removes[t].(phase := Rejected)])
    case Continue(t) =>
      var (owner, phase) := AfterAwait(s.owner, s.removes[t].name, s.removes[t].phase);
      s.(owner := owner, removes := s.removes[t := s.removes[t].(phase := phase)])
    case DisposeCall(d) =>
      s.(owner := s.owner.(revoked := true), disposes := s.disposes[d := Disposal(s.owner.admissions, Waiting)])
    case DisposeSpawn(d, tasks) =>
      s.(removes := s.removes + Spawned(s, tasks),
         disposes := s.disposes[d := s.disposes[d].(phase := Removing(tasks.Values))])
    case DisposeSettle(d) =>
      var failed := exists t :: t in s.disposes[d].phase.tasks && s.removes[t].phase.Rejected?;
      s.(disposes := s.disposes[d := s.disposes[d].(phase := if failed then Failed else Resolved)])
    case Foreign(id, name) =>
      s.(daemon := Daemon(s.daemon.boxes[id := Box(name, false)], s.daemon.live + {id}))
    case Vanish(id) => s.(daemon := s.daemon.(live := s.daemon.live - {id}))
  }

  /**
   * Two rules that a caller can follow by awaiting its own calls: `removeWaits` never removes a name
   * whose creation has not settled, `createWaits` never creates a name whose removal has not settled.
   */
  datatype Policy = Policy(removeWaits: bool, createWaits: bool)

  const DISCIPLINE := Policy(true, true)

  ghost predicate Allowed(p: Policy, s: State, e: Event) {
    && (p.createWaits && e.CreateCall? ==>
          forall t :: t in s.removes && Active(s.removes[t]) ==> s.removes[t].name != e.name)
    && (p.removeWaits && e.RemoveCall? ==>
          forall op :: op in s.creates && Pending(s.creates[op]) ==> s.creates[op].name != e.name)
  }

  /** The two rules by phases: a removal that is done or rejected, and a creation that has settled, are over. */
  lemma DisciplineIs(s: State, op: nat, t: nat, name: string)
    ensures Allowed(DISCIPLINE, s, CreateCall(op, name)) <==>
            forall u :: u in s.removes && s.removes[u].name == name ==> s.removes[u].phase in {Done, Rejected}
    ensures Allowed(DISCIPLINE, s, RemoveCall(t, name)) <==>
            forall u :: u in s.creates && s.creates[u].name == name ==> s.creates[u].phase in {Created, Refused}
  {
  }

  /** A disposal ends when all its removals are over, and resolves exactly when all of them are done. */
  lemma DisposalEnds(s: State, d: nat)
    requires d in s.disposes && s.disposes[d].phase.Removing?
    ensures var tasks := s.disposes[d].phase.tasks;
            && (Enabled(s, DisposeSettle(d)) <==>
                  forall t :: t in tasks ==> t in s.removes && s.removes[t].phase in {Done, Rejected})
            && (Enabled(s, DisposeSettle(d)) ==>
                  Next(s, DisposeSettle(d)) == s.(disposes := s.disposes[d := s.disposes[d].(phase :=
                    if forall t :: t in tasks ==> s.removes[t].phase == Done then Resolved else Failed)]))
  {
  }

  /** `s'` is reached from `s` by the events `es`, with the caller following the rules of `p`. */
  ghost predicate Run(p: Policy, s: State, es: seq<Event>, s': State)
    decreases es
  {
    if es == [] then s == s'
    else Enabled(s, es[0]) && Allowed(p, s, es[0]) && Run(p, Next(s, es[0]), es[1..], s')
  }

  lemma RunCons(p: Policy, s: State, e: Event, es: seq<Event>, s': State)
    requires Enabled(s, e) && Allowed(p, s, e) && Run(p, Next(s, e), es, s')
    ensures Run(p, s, [e] + es, s')
  {
    assert ([e] + es)[1..] == es;
  }

  lemma {:induction false} RunConcat(p: Policy, s: State, a: seq<Event>, m: State, b: seq<Event>, s': State)
    requires Run(p, s, a, m) && Run(p, m, b, s')
    ensures Run(p, s, a + b, s')
    decreases a
  {
    if a == [] {
      assert a + b == b;
    } else {
      RunConcat(p, Next(s, a[0]), a[1..], m, b, s');
      RunCons(p, s, a[0], a[1..] + b, s');
      assert a + b == [a[0]] + (a[1..] + b);
    }
  }

  // ---------------------------------------------------------------- under every interleaving

  ghost predicate Own(s: State, id: int, name: string) {
    id in s.daemon.boxes && s.daemon.boxes[id] == Box(name, true)
  }

  /** The ID a removal is working on. */
  function Target(p: RemovePhase): Option<int> {
    if p.LookedUp? then p.found
    else if p.Lookup? || p.Done? || p.Rejected? then None
    else Some(p.id)
  }

  ghost predicate CreateOwns(s: State, op: nat) {
    && op in s.creates
    && (op in s.owner.admissions <==> Pending(s.creates[op]))
    && (s.creates[op].phase.Effective? ==> Own(s, s.creates[op].phase.id, s.creates[op].name))
  }

  ghost predicate RemoveOwns(s: State, t: nat) {
    t in s.removes && (Target(s.removes[t].phase).Some? ==> Own(s, Target(s.removes[t].phase).value, s.removes[t].name))
  }

  ghost predicate NameOwns(s: State, n: string) {
    n in s.owner.containers && (s.owner.containers[n].Some? ==> Own(s, s.owner.containers[n].value, n))
  }

  /** Revocation is final, and a disposal never waits for less than what is still pending. */
  ghost predicate DisposalCovers(s: State, d: nat) {
    && d in s.disposes && s.owner.revoked
    && s.owner.admissions <= s.disposes[d].waits
    && (!s.disposes[d].phase.Waiting? ==> s.owner.admissions == {})
  }

  /** No ID is ever held, awaited or removed that does not carry this owner's label and that name. */
  ghost predicate Owned(s: State) {
    && s.owner.admissions <= s.creates.Keys
    && (forall op {:trigger CreateOwns(s, op)} :: op in s.creates ==> CreateOwns(s, op))
    && (forall t {:trigger RemoveOwns(s, t)} :: t in s.removes ==> RemoveOwns(s, t))
    && (forall n {:trigger NameOwns(s, n)} :: n in s.owner.containers ==> NameOwns(s, n))
    && (forall d {:trigger DisposalCovers(s, d)} :: d in s.disposes ==> DisposalCovers(s, d))
  }

  lemma CreateOwnsStep(s: State, e: Event, op: nat)
    requires Owned(s) && Enabled(s, e) && op in Next(s, e).creates
    ensures CreateOwns(Next(s, e), op)
  {
    hide RemoveOwns, NameOwns, DisposalCovers;
    assert op in s.creates ==> CreateOwns(s, op);
  }

  lemma NameOwnsStep(s: State, e: Event, n: string)
    requires Owned(s) && Enabled(s, e) && n in Next(s, e).owner.containers
    ensures NameOwns(Next(s, e), n)
  {
    hide DisposalCovers;
    assert n in s.owner.containers ==> NameOwns(s, n);
    match e
    case CreateSettle(op, _) => assert CreateOwns(s, op);
    case Continue(t) => assert RemoveOwns(s, t);
    case _ =>
  }

  lemma RemoveOwnsStep(s: State, e: Event, t: nat)
    requires Owned(s) && Enabled(s, e) && t in Next(s, e).removes
    ensures RemoveOwns(Next(s, e), t)
  {
    hide CreateOwns, DisposalCovers;
    var name := Next(s, e).removes[t].name;
    assert t in s.removes ==> RemoveOwns(s, t);
    assert name in s.owner.containers ==> NameOwns(s, name);
  }

  lemma DisposalCoversStep(s: State, e: Event, d: nat)
    requires Owned(s) && Enabled(s, e) && d in Next(s, e).disposes
    ensures DisposalCovers(Next(s, e), d)
  {
    hide CreateOwns, RemoveOwns, NameOwns;
    assert d in s.disposes ==> DisposalCovers(s, d);
  }

  lemma OwnedStep(s: State, e: Event)
    requires Owned(s) && Enabled(s, e)
    ensures Owned(Next(s, e))
  {
    var s' := Next(s, e);
    assert s'.owner.admissions <= s'.creates.Keys;
    hide Enabled, Next, CreateOwns, RemoveOwns, NameOwns, DisposalCovers;
    forall op | op in s'.creates ensures CreateOwns(s', op) { CreateOwnsStep(s, e, op); }
    forall n | n in s'.owner.containers ensures NameOwns(s', n) { NameOwnsStep(s, e, n); }
    forall t | t in s'.removes ensures RemoveOwns(s', t) { RemoveOwnsStep(s, e, t); }
    forall d | d in s'.disposes ensures DisposalCovers(s', d) { DisposalCoversStep(s, e, d); }
  }

  lemma {:induction false} OwnedRun(p: Policy, s: State, es: seq<Event>, s': State)
    requires Owned(s) && Run(p, s, es, s')
    ensures Owned(s')
    decreases es
  {
    if es != [] {
      OwnedStep(s, es[0]);
      OwnedRun(p, Next(s, es[0]), es[1..], s');
    }
  }

  /** In every run, an `rm` goes to an immutable ID that carries this owner's label. */
  lemma OnlyOwnedRemoved(p: Policy, es: seq<Event>, s: State, t: nat)
    requires Run(p, INITIAL, es, s) && t in s.removes && s.removes[t].phase.Remove?
    ensures Own(s, s.removes[t].phase.id, s.removes[t].name)
  {
    OwnedRun(p, INITIAL, es, s);
    assert RemoveOwns(s, t);
  }

  /** In every run, a disposal that resolved, or even failed, leaves no admission pending and admits none. */
  lemma DisposeDrains(p: Policy, es: seq<Event>, s: State, d: nat, e: Event)
    requires Run(p, INITIAL, es, s) && d in s.disposes
    requires s.disposes[d].phase.Resolved? || s.disposes[d].phase.Failed?
    ensures s.owner.revoked && s.owner.admissions == {}
    ensures forall op :: op in s.creates ==> !Pending(s.creates[op])
    ensures Enabled(s, e) ==> !e.CreateCall? && !e.CreateEffect? && !e.CreateSettle?
  {
    OwnedRun(p, INITIAL, es, s);
    assert DisposalCovers(s, d);
    forall op | op in s.creates ensures !Pending(s.creates[op]) { assert CreateOwns(s, op); }
  }

  // ---------------------------------------------------------------- under the caller's discipline

  /** The daemon gives a name to one existing container at a time. */
  ghost predicate NamesUnique(s: State) {
    && s.daemon.live <= s.daemon.boxes.Keys
    && forall a, b | a in s.daemon.live && b in s.daemon.live ::
         s.daemon.boxes[a].name == s.daemon.boxes[b].name ==> a == b
  }

  /** A pending creation holds its name, alone. */
  ghost predicate HoldsName(s: State, op: nat) {
    op in s.creates && (Pending(s.creates[op]) ==>
      && s.creates[op].name in s.owner.containers && s.owner.containers[s.creates[op].name].None?
      && (forall other :: other in s.creates && other != op && Pending(s.creates[other]) ==>
            s.creates[other].name != s.creates[op].name)
      && (forall t :: t in s.removes && Active(s.removes[t]) ==> s.removes[t].name != s.creates[op].name)
      && (forall x :: LiveMine(s, x, s.creates[op].name) ==> s.creates[op].phase == Effective(x)))
  }

  ghost predicate AwaitsSettle(s: State, id: int) {
    exists op :: op in s.creates && s.creates[op].phase == Effective(id)
  }

  /** A container of this owner is still in its create command, or the owner has its name and not another ID. */
  ghost predicate LiveTracked(s: State, id: int) {
    id in s.daemon.live && id in s.daemon.boxes && s.daemon.boxes[id].mine ==>
      || AwaitsSettle(s, id)
      || (&& s.daemon.boxes[id].name in s.owner.containers
          && (s.owner.containers[s.daemon.boxes[id].name] == None
              || s.owner.containers[s.daemon.boxes[id].name] == Some(id)))
  }

  /** The phases that are about to forget the name. */
  predicate SawNothing(p: RemovePhase) {
    p == LookedUp(None) || (p.Checked? && !p.present) || (p.Rechecked? && !p.present)
  }

  /** A removal at work knows every container there is under its name. */
  ghost predicate RemoveSees(s: State, t: nat) {
    t in s.removes && var r := s.removes[t];
    && (SawNothing(r.phase) ==> forall x :: !LiveMine(s, x, r.name))
    && (Target(r.phase).Some? ==> forall x :: LiveMine(s, x, r.name) ==> x == Target(r.phase).value)
  }

  /** A disposal in its removals has one at work, or rejected, for every container that still exists. */
  ghost predicate DisposalSees(s: State, d: nat) {
    d in s.disposes && match s.disposes[d].phase
      case Removing(tasks) =>
        tasks <= s.removes.Keys &&
        forall x, n :: LiveMine(s, x, n) ==>
          exists t :: t in tasks && t in s.removes && s.removes[t].name == n && !s.removes[t].phase.Done?
      case Resolved => forall x, n :: !LiveMine(s, x, n)
      case _ => true
  }

  ghost predicate Tracked(s: State) {
    && NamesUnique(s)
    && (forall op {:trigger HoldsName(s, op)} :: op in s.creates ==> HoldsName(s, op))
    && (forall id {:trigger LiveTracked(s, id)} :: LiveTracked(s, id))
    && (forall t {:trigger RemoveSees(s, t)} :: t in s.removes ==> RemoveSees(s, t))
    && (forall d {:trigger DisposalSees(s, d)} :: d in s.disposes ==> DisposalSees(s, d))
  }

  /** With no creation pending under its name, a container is one the owner tracks. */
  lemma TrackedWhenQuiet(s: State, x: int, name: string)
    requires Owned(s) && Tracked(s) && LiveMine(s, x, name)
    requires forall op :: op in s.creates && Pending(s.creates[op]) ==> s.creates[op].name != name
    ensures name in s.owner.containers
    ensures s.owner.containers[name] == None || s.owner.containers[name] == Some(x)
  {
    assert LiveTracked(s, x);
    forall op | op in s.creates ensures CreateOwns(s, op) {}
  }

  lemma NamesUniqueStep(s: State, e: Event)
    requires NamesUnique(s) && Enabled(s, e)
    ensures NamesUnique(Next(s, e))
  {
  }

  /** A container of this owner after the step was one before it, unless the step created it. */
  lemma NoOtherLive(s: State, e: Event, x: int, n: string)
    requires Enabled(s, e) && LiveMine(Next(s, e), x, n)
    ensures LiveMine(s, x, n) || (e.CreateEffect? && x == e.id && n == s.creates[e.op].name)
  {
  }

  /** What `op` is promised before the step, when it was pending then. */
  lemma HeldName(s: State, op: nat)
    requires Tracked(s) && op in s.creates
    ensures HoldsName(s, op)
  {
    hide HoldsName, NamesUnique;
  }

  lemma PendingIsAdmitted(s: State, op: nat)
    requires Owned(s) && op in s.creates
    ensures op in s.owner.admissions <==> Pending(s.creates[op])
  {
    assert CreateOwns(s, op);
  }

  lemma NothingAdmitted(s: State, d: nat)
    requires Owned(s) && d in s.disposes && !s.disposes[d].phase.Waiting?
    ensures s.owner.admissions == {}
  {
    assert DisposalCovers(s, d);
  }

  lemma SpawnDrained(s: State, e: Event)
    requires Owned(s) && Enabled(s, e) && e.DisposeSpawn?
    ensures s.owner.admissions == {}
  {
    hide CreateOwns, RemoveOwns, NameOwns;
    assert DisposalCovers(s, e.d);
  }

  lemma NameStaysHeld(s: State, e: Event, op: nat)
    requires Owned(s) && Tracked(s) && Enabled(s, e) && Allowed(DISCIPLINE, s, e)
    requires op in Next(s, e).creates && Pending(Next(s, e).creates[op])
    ensures var name := Next(s, e).creates[op].name;
            name in Next(s, e).owner.containers && Next(s, e).owner.containers[name].None?
  {
    hide NamesUnique, LiveTracked, RemoveSees, DisposalSees, RemoveOwns, NameOwns, DisposalCovers;
    if op in s.creates { HeldName(s, op); }
    if e.CreateSettle? { HeldName(s, e.op); }
  }

  lemma NoOtherCreate(s: State, e: Event, op: nat, other: nat)
    requires Tracked(s) && Enabled(s, e)
    requires op in Next(s, e).creates && Pending(Next(s, e).creates[op])
    requires other in Next(s, e).creates && Pending(Next(s, e).creates[other]) && other != op
    ensures Next(s, e).creates[other].name != Next(s, e).creates[op].name
  {
    hide NamesUnique, LiveTracked, RemoveSees, DisposalSees;
    if op in s.creates { HeldName(s, op); }
    if other in s.creates { HeldName(s, other); }
  }

  lemma NoActiveRemoval(s: State, e: Event, op: nat, t: nat)
    requires Owned(s) && Tracked(s) && Enabled(s, e) && Allowed(DISCIPLINE, s, e)
    requires op in Next(s, e).creates && Pending(Next(s, e).creates[op])
    requires t in Next(s, e).removes && Active(Next(s, e).removes[t])
    ensures Next(s, e).removes[t].name != Next(s, e).creates[op].name
  {
    hide NamesUnique, LiveTracked, RemoveSees, DisposalSees, RemoveOwns, NameOwns;
    if op in s.creates { HeldName(s, op); }
    if e.DisposeSpawn? {
      PendingIsAdmitted(s, op);
      SpawnDrained(s, e);
    }
  }

  lemma LiveIsEffective(s: State, e: Event, op: nat, x: int)
    requires Owned(s) && Tracked(s) && Enabled(s, e) && Allowed(DISCIPLINE, s, e)
    requires op in Next(s, e).creates && Pending(Next(s, e).creates[op])
             && LiveMine(Next(s, e), x, Next(s, e).creates[op].name)
    ensures Next(s, e).creates[op].phase == Effective(x)
  {
    hide NamesUnique, LiveTracked, RemoveSees, DisposalSees, RemoveOwns, NameOwns, DisposalCovers;
    var name := Next(s, e).creates[op].name;
    NoOtherLive(s, e, x, name);
    if op in s.creates { HeldName(s, op); }
    if e.CreateEffect? { HeldName(s, e.op); }
    if e.CreateCall? && e.op == op {
      forall o | o in s.creates && Pending(s.creates[o]) ensures s.creates[o].name != name { HeldName(s, o); }
      TrackedWhenQuiet(s, x, name);
    }
  }

  lemma HoldsNameStep(s: State, e: Event, op: nat)
    requires Owned(s) && Tracked(s) && Enabled(s, e) && Allowed(DISCIPLINE, s, e) && op in Next(s, e).creates
    ensures HoldsName(Next(s, e), op)
  {
    hide Owned, Tracked, Enabled, Allowed, Next, LiveMine;
    var s' := Next(s, e);
    if Pending(s'.creates[op]) {
      NameStaysHeld(s, e, op);
      forall o | o in s'.creates && o != op && Pending(s'.creates[o])
        ensures s'.creates[o].name != s'.creates[op].name
      {
        NoOtherCreate(s, e, op, o);
      }
      forall t | t in s'.removes && Active(s'.removes[t]) ensures s'.removes[t].name != s'.creates[op].name {
        NoActiveRemoval(s, e, op, t);
      }
      forall x | LiveMine(s', x, s'.creates[op].name) ensures s'.creates[op].phase == Effective(x) {
        LiveIsEffective(s, e, op, x);
      }
    }
  }

  lemma LiveTrackedStep(s: State, e: Event, id: int)
    requires Owned(s) && Tracked(s) && Enabled(s, e) && Allowed(DISCIPLINE, s, e)
    ensures LiveTracked(Next(s, e), id)
  {
    var s' := Next(s, e);
    assert LiveTracked(s, id);
    if AwaitsSettle(s, id) {
      var op :| op in s.creates && s.creates[op].phase == Effective(id);
      assert CreateOwns(s, op) && HoldsName(s, op);
      assert s'.creates[op] == s.creates[op] || e == CreateSettle(op, true) || e == CreateSettle(op, false);
    }
    match e
    case CreateEffect(op, created) => assert s'.creates[op].phase == Effective(created);
    case CreateSettle(op, _) => assert CreateOwns(s, op) && HoldsName(s, op);
    case Continue(t) => assert RemoveSees(s, t); var held := LiveMine(s, id, s.removes[t].name);
    case _ =>
  }

  lemma StillSees(s: State, e: Event, t: nat)
    requires Tracked(s) && Enabled(s, e) && t in s.removes
    ensures t in Next(s, e).removes && RemoveSees(Next(s, e), t)
  {
    hide LiveTracked, DisposalSees;
    var s' := Next(s, e);
    forall x | LiveMine(s', x, s.removes[t].name)
      ensures LiveMine(s, x, s.removes[t].name) || (e.CreateEffect? && s.removes[t].name == s.creates[e.op].name)
    {
      NoOtherLive(s, e, x, s.removes[t].name);
    }
    assert RemoveSees(s, t);
    if e.CreateEffect? { HeldName(s, e.op); }
  }

  lemma NewSees(s: State, e: Event, t: nat)
    requires Owned(s) && Tracked(s) && Enabled(s, e) && Allowed(DISCIPLINE, s, e)
    requires t !in s.removes && t in Next(s, e).removes
    ensures RemoveSees(Next(s, e), t)
  {
    hide NamesUnique, LiveTracked, RemoveSees, DisposalSees, HoldsName, RemoveOwns, NameOwns;
    var name := Next(s, e).removes[t].name;
    if e.DisposeSpawn? {
      assert DisposalCovers(s, e.d);
      forall op | op in s.creates ensures !Pending(s.creates[op]) { assert CreateOwns(s, op); }
    }
    var first := FirstPhase(s.owner, name);
    forall x | LiveMine(s, x, name) ensures first != Done && (first.Check? ==> first.id == x) {
      TrackedWhenQuiet(s, x, name);
    }
    forall x | LiveMine(Next(s, e), x, name) ensures LiveMine(s, x, name) { NoOtherLive(s, e, x, name); }
    assert RemoveSees(Next(s, e), t) by { SeesFirst(Next(s, e), t, s.owner); }
  }

  lemma SeesFirst(s: State, t: nat, o: Owner)
    requires t in s.removes && s.removes[t].phase == FirstPhase(o, s.removes[t].name)
    requires forall x :: LiveMine(s, x, s.removes[t].name) ==>
               s.removes[t].phase != Done && (s.removes[t].phase.Check? ==> s.removes[t].phase.id == x)
    ensures RemoveSees(s, t)
  {
  }

  lemma RemoveSeesStep(s: State, e: Event, t: nat)
    requires Owned(s) && Tracked(s) && Enabled(s, e) && Allowed(DISCIPLINE, s, e) && t in Next(s, e).removes
    ensures RemoveSees(Next(s, e), t)
  {
    hide *;
    if t in s.removes { StillSees(s, e, t); } else { NewSees(s, e, t); }
  }

  /** Once a disposal is past its first wait, no container of this owner appears. */
  lemma NoneAppears(s: State, e: Event, d: nat, x: int, n: string)
    requires Owned(s) && Enabled(s, e) && d in s.disposes && !s.disposes[d].phase.Waiting? && LiveMine(Next(s, e), x, n)
    ensures LiveMine(s, x, n)
  {
    hide Owned, NameFree;
    NoOtherLive(s, e, x, n);
    if e.CreateEffect? {
      PendingIsAdmitted(s, e.op);
      NothingAdmitted(s, d);
    }
  }

  lemma SpawnSees(s: State, e: Event, x: int, n: string)
    requires Owned(s) && Tracked(s) && Enabled(s, e) && e.DisposeSpawn? && LiveMine(Next(s, e), x, n)
    ensures n in e.tasks && e.tasks[n] in Next(s, e).removes
    ensures Next(s, e).removes[e.tasks[n]].name == n && !Next(s, e).removes[e.tasks[n]].phase.Done?
  {
    hide NamesUnique, HoldsName, LiveTracked, RemoveSees, DisposalSees, RemoveOwns, NameOwns;
    NoOtherLive(s, e, x, n);
    assert DisposalCovers(s, e.d);
    forall op | op in s.creates ensures !Pending(s.creates[op]) { assert CreateOwns(s, op); }
    TrackedWhenQuiet(s, x, n);
    assert e.tasks[n] in e.tasks.Values && Next(s, e).removes[e.tasks[n]] == Removal(n, FirstPhase(s.owner, n));
  }

  lemma TaskGoesOn(s: State, e: Event, t: nat, x: int)
    requires Tracked(s) && Enabled(s, e) && t in s.removes && !s.removes[t].phase.Done?
    requires LiveMine(Next(s, e), x, s.removes[t].name) && LiveMine(s, x, s.removes[t].name)
    ensures t in Next(s, e).removes && Next(s, e).removes[t].name == s.removes[t].name
            && !Next(s, e).removes[t].phase.Done?
  {
    hide NamesUnique, HoldsName, LiveTracked, DisposalSees;
    assert RemoveSees(s, t);
  }

  lemma DisposalSeesStep(s: State, e: Event, d: nat)
    requires Owned(s) && Tracked(s) && Enabled(s, e) && Allowed(DISCIPLINE, s, e) && d in Next(s, e).disposes
    ensures DisposalSees(Next(s, e), d)
  {
    hide Owned, Allowed, NamesUnique, HoldsName, LiveTracked, RemoveSees, LiveMine, AfterAwait, Answered;
    var s' := Next(s, e);
    if d in s.disposes && !s'.disposes[d].phase.Waiting? {
      assert DisposalSees(s, d);
      forall x, n | LiveMine(s', x, n)
        ensures !s'.disposes[d].phase.Resolved?
        ensures s'.disposes[d].phase.Removing? ==>
          exists t :: t in s'.disposes[d].phase.tasks && t in s'.removes && s'.removes[t].name == n
                      && !s'.removes[t].phase.Done?
      {
        if e.DisposeSpawn? && e.d == d {
          SpawnSees(s, e, x, n);
          assert e.tasks[n] in e.tasks.Values;
        } else {
          NoneAppears(s, e, d, x, n);
          if s.disposes[d].phase.Removing? {
            var t :| t in s.disposes[d].phase.tasks && t in s.removes && s.removes[t].name == n
                     && !s.removes[t].phase.Done?;
            TaskGoesOn(s, e, t, x);
          }
        }
      }
      assert s'.disposes[d].phase.Removing? ==> s'.disposes[d].phase.tasks <= s'.removes.Keys;
    }
  }

  lemma TrackedStep(s: State, e: Event)
    requires Owned(s) && Tracked(s) && Enabled(s, e) && Allowed(DISCIPLINE, s, e)
    ensures Tracked(Next(s, e))
  {
    NamesUniqueStep(s, e);
    var s' := Next(s, e);
    forall op | op in s'.creates ensures HoldsName(s', op) { HoldsNameStep(s, e, op); }
    forall id ensures LiveTracked(s', id) { LiveTrackedStep(s, e, id); }
    forall t | t in s'.removes ensures RemoveSees(s', t) { RemoveSeesStep(s, e, t); }
    forall d | d in s'.disposes ensures DisposalSees(s', d) { DisposalSeesStep(s, e, d); }
  }

  lemma {:induction false} TrackedRun(s: State, es: seq<Event>, s': State)
    requires Owned(s) && Tracked(s) && Run(DISCIPLINE, s, es, s')
    ensures Owned(s') && Tracked(s')
    decreases es
  {
    if es != [] {
      OwnedStep(s, es[0]);
      TrackedStep(s, es[0]);
      TrackedRun(Next(s, es[0]), es[1..], s');
    }
  }

  /** Once a disposal has resolved, first or retried, no container that this owner created exists. */
  lemma DisposedClean(es: seq<Event>, s: State, d: nat)
    requires Run(DISCIPLINE, INITIAL, es, s) && d in s.disposes && s.disposes[d].phase.Resolved?
    ensures forall id :: id in s.daemon.live ==> id in s.daemon.boxes && !s.daemon.boxes[id].mine
  {
    TrackedRun(INITIAL, es, s);
    assert DisposalSees(s, d);
    forall id | id in s.daemon.live ensures !s.daemon.boxes[id].mine {
      assert !LiveMine(s, id, s.daemon.boxes[id].name);
    }
  }

  /** A disposal that failed has lost nothing: what still exists is still tracked, and it can be tried again. */
  lemma FailedDisposeRetries(es: seq<Event>, s: State, d: nat, again: nat)
    requires Run(DISCIPLINE, INITIAL, es, s) && d in s.disposes && s.disposes[d].phase.Failed?
    requires again !in s.disposes
    ensures Enabled(s, DisposeCall(again)) && Allowed(DISCIPLINE, s, DisposeCall(again))
    ensures Next(s, DisposeCall(again)).disposes[again] == Disposal({}, Waiting)
    ensures forall id, n :: LiveMine(s, id, n) ==>
              n in s.owner.containers && (s.owner.containers[n] == None || s.owner.containers[n] == Some(id))
  {
    TrackedRun(INITIAL, es, s);
    DisposeDrains(DISCIPLINE, es, s, d, DisposeCall(again));
    forall id, n | LiveMine(s, id, n)
      ensures n in s.owner.containers && (s.owner.containers[n] == None || s.owner.containers[n] == Some(id))
    {
      TrackedWhenQuiet(s, id, n);
    }
  }

  // ---------------------------------------------------------------- a retry that is answered resolves

  /** Where a removal ends well as long as nothing else happens and its commands are answered. */
  ghost predicate Promising(s: State, t: nat) {
    && t in s.removes
    && match s.removes[t].phase
       case Checked(id, present) => present ==> id in s.daemon.live
       case Inspect(id) => id in s.daemon.live
       case Inspected(id, mine) => mine
       case Removed(id) => id !in s.daemon.live
       case Recheck(id) => id !in s.daemon.live
       case Rechecked(id, present) => !present
       case Rejected => false
       case _ => true
  }

  function StepsLeft(p: RemovePhase): nat {
    match p
    case Lookup => 11 case LookedUp(_) => 10 case Check(_) => 9 case Checked(_, _) => 8 case Inspect(_) => 7
    case Inspected(_, _) => 6 case Remove(_) => 5 case Removed(_) => 4 case Recheck(_) => 3 case Rechecked(_, _) => 2
    case Done => 0 case Rejected => 0
  }

  /** Only removal `t` has gone on. */
  ghost predicate OnlyRemoval(s: State, s': State, t: nat) {
    && s'.creates == s.creates && s'.disposes == s.disposes && s'.removes.Keys == s.removes.Keys
    && s'.owner.admissions == s.owner.admissions
    && forall u :: u in s.removes && u != t ==> s'.removes[u] == s.removes[u]
  }

  /** What happens next to a promising removal. */
  lemma NextEvent(s: State, t: nat) returns (e: Event)
    requires Promising(s, t) && !s.removes[t].phase.Done? && RemoveOwns(s, t)
    ensures Enabled(s, e) && Allowed(DISCIPLINE, s, e) && Promising(Next(s, e), t)
    ensures StepsLeft(Next(s, e).removes[t].phase) < StepsLeft(s.removes[t].phase) && OnlyRemoval(s, Next(s, e), t)
  {
    var name := s.removes[t].name;
    match s.removes[t].phase
    case Lookup =>
      e := LookupAnswer(t, None);
      if id :| LiveMine(s, id, name) { e := LookupAnswer(t, Some(id)); }
    case Check(_) => e := Answer(t);
    case Inspect(_) => e := Answer(t);
    case Remove(_) => e := Answer(t);
    case Recheck(_) => e := Answer(t);
    case _ => e := Continue(t);
  }

  lemma OwnedRemoval(s: State, t: nat)
    requires Owned(s) && t in s.removes
    ensures RemoveOwns(s, t)
  {
    hide RemoveOwns;
  }

  lemma {:induction false} Removes(s: State, t: nat) returns (es: seq<Event>, s': State)
    requires Owned(s) && Promising(s, t)
    ensures Run(DISCIPLINE, s, es, s') && Owned(s') && s'.removes.Keys == s.removes.Keys && OnlyRemoval(s, s', t)
    ensures s'.removes[t].phase.Done?
    decreases StepsLeft(s.removes[t].phase)
  {
    hide Enabled, Next, Allowed, Owned;
    if s.removes[t].phase.Done? {
      es, s' := [], s;
    } else {
      OwnedRemoval(s, t);
      var e := NextEvent(s, t);
      OwnedStep(s, e);
      var rest;
      rest, s' := Removes(Next(s, e), t);
      RunCons(DISCIPLINE, s, e, rest, s');
      es := [e] + rest;
    }
  }

  predicate Unstarted(r: Removal) { r.phase.Lookup? || r.phase.Check? }

  /** One task after another. */
  lemma {:induction false} RemovesAll(s: State, tasks: set<nat>) returns (es: seq<Event>, s': State)
    requires Owned(s) && forall t :: t in tasks ==> t in s.removes && Unstarted(s.removes[t])
    ensures Run(DISCIPLINE, s, es, s') && s'.disposes == s.disposes && s'.removes.Keys == s.removes.Keys
    ensures forall t :: t in tasks ==> s'.removes[t].phase.Done?
    ensures forall t :: t in s.removes && t !in tasks ==> s'.removes[t] == s.removes[t]
    decreases tasks
  {
    hide Owned, Enabled, Next;
    if tasks == {} {
      es, s' := [], s;
    } else {
      var t :| t in tasks;
      var first, m := Removes(s, t);
      var rest;
      rest, s' := RemovesAll(m, tasks - {t});
      RunConcat(DISCIPLINE, s, first, m, rest, s');
      es := first + rest;
    }
  }

  lemma {:induction false} FreshTask(used: set<nat>) returns (t: nat)
    ensures forall u :: u in used ==> u < t
    decreases used
  {
    t := 0;
    if used != {} {
      var u :| u in used;
      var rest := FreshTask(used - {u});
      t := if rest > u then rest else u + 1;
      forall x | x in used ensures x < t { assert x == u || x in used - {u}; }
    }
  }

  lemma {:induction false} FreshTasks(names: set<string>, used: set<nat>) returns (tasks: map<string, nat>)
    ensures tasks.Keys == names && forall n :: n in tasks ==> tasks[n] !in used
    ensures forall m, n :: m in tasks && n in tasks && m != n ==> tasks[m] != tasks[n]
    decreases names
  {
    tasks := map[];
    if names != {} {
      var n :| n in names;
      var t := FreshTask(used);
      var rest := FreshTasks(names - {n}, used + {t});
      tasks := rest[n := t];
    }
  }

  /** The disposal starts over with its own removals, each about to look or to check. */
  lemma RetryBegins(s: State, d: nat) returns (es: seq<Event>, s': State)
    requires Owned(s) && s.owner.admissions == {} && d !in s.disposes
    ensures Run(DISCIPLINE, s, es, s') && Owned(s') && d in s'.disposes && s'.disposes[d].phase.Removing?
    ensures forall t :: t in s'.disposes[d].phase.tasks ==> t in s'.removes && Unstarted(s'.removes[t])
  {
    hide Owned;
    var tasks := FreshTasks(s.owner.containers.Keys, s.removes.Keys);
    var call, spawn := DisposeCall(d), DisposeSpawn(d, tasks);
    var s1 := Next(s, call);
    OwnedStep(s, call);
    s' := Next(s1, spawn);
    OwnedStep(s1, spawn);
    assert Run(DISCIPLINE, s', [], s');
    RunCons(DISCIPLINE, s1, spawn, [], s');
    RunCons(DISCIPLINE, s, call, [spawn], s');
    es := [call] + [spawn];
  }

  lemma RetrySettles(s: State, d: nat) returns (es: seq<Event>, s': State)
    requires d in s.disposes && s.disposes[d].phase.Removing?
    requires forall t :: t in s.disposes[d].phase.tasks ==> t in s.removes && s.removes[t].phase.Done?
    ensures Run(DISCIPLINE, s, es, s') && d in s'.disposes && s'.disposes[d].phase.Resolved?
  {
    es, s' := [DisposeSettle(d)], Next(s, DisposeSettle(d));
    assert Run(DISCIPLINE, s', [], s');
    RunCons(DISCIPLINE, s, DisposeSettle(d), [], s');
  }

  /** After a disposal that failed there is always a retry that resolves, and it leaves nothing behind. */
  lemma RetryResolves(es: seq<Event>, s: State, d: nat, again: nat) returns (retry: seq<Event>, s': State)
    requires Run(DISCIPLINE, INITIAL, es, s) && d in s.disposes && s.disposes[d].phase.Failed? && again !in s.disposes
    ensures Run(DISCIPLINE, s, retry, s') && again in s'.disposes && s'.disposes[again].phase.Resolved?
    ensures forall id :: id in s'.daemon.live ==> id in s'.daemon.boxes && !s'.daemon.boxes[id].mine
  {
    hide Owned, Run, Enabled, Next, Unstarted;
    NothingPending(es, s, d);
    var begin, s1 := RetryBegins(s, again);
    var work, s2 := RemovesAll(s1, s1.disposes[again].phase.tasks);
    var settle;
    settle, s' := RetrySettles(s2, again);
    RunConcat(DISCIPLINE, s1, work, s2, settle, s');
    RunConcat(DISCIPLINE, s, begin, s1, work + settle, s');
    retry := begin + (work + settle);
    RunConcat(DISCIPLINE, INITIAL, es, s, retry, s');
    DisposedClean(es + retry, s', again);
  }

  lemma NothingPending(es: seq<Event>, s: State, d: nat)
    requires Run(DISCIPLINE, INITIAL, es, s) && d in s.disposes && s.disposes[d].phase.Failed?
    ensures s.owner.admissions == {} && Owned(s)
  {
    OwnedRun(DISCIPLINE, INITIAL, es, s);
    assert DisposalCovers(s, d);
  }

  // ---------------------------------------------------------------- without it

  /** Nothing is going on and nothing is left over. */
  ghost predicate Idle(s: State) {
    && s.owner == Owner(map[], {}, false) && s.creates == map[] && s.removes == map[] && s.disposes == map[]
    && s.daemon.live == {}
  }

  ghost predicate Leaked(s: State, d: nat, id: int, name: string) {
    d in s.disposes && s.disposes[d].phase.Resolved? && LiveMine(s, id, name)
  }

  lemma DisposeEmpty(p: Policy, s: State, d: nat) returns (es: seq<Event>, s': State)
    requires s.owner.containers == map[] && s.owner.admissions == {} && d !in s.disposes
    ensures es == [DisposeCall(d), DisposeSpawn(d, map[]), DisposeSettle(d)] && Run(p, s, es, s')
    ensures s'.daemon == s.daemon && d in s'.disposes && s'.disposes[d].phase.Resolved?
  {
    var s1 := Next(s, DisposeCall(d));
    var s2 := Next(s1, DisposeSpawn(d, map[]));
    s' := Next(s2, DisposeSettle(d));
    assert Run(p, s', [], s');
    RunCons(p, s2, DisposeSettle(d), [], s');
    RunCons(p, s1, DisposeSpawn(d, map[]), [DisposeSettle(d)], s');
    RunCons(p, s, DisposeCall(d), [DisposeSpawn(d, map[]), DisposeSettle(d)], s');
    es := [DisposeCall(d), DisposeSpawn(d, map[]), DisposeSettle(d)];
  }

  lemma LookupFails(p: Policy, s: State, name: string, s': State)
    requires s.removes == map[0 := Removal(name, Lookup)] && s.daemon.live == {}
    requires s' == s.(owner := s.owner.(containers := s.owner.containers - {name}),
                      removes := map[0 := Removal(name, Done)])
    ensures Run(p, s, [LookupAnswer(0, None), Continue(0)], s')
  {
    var s1 := Next(s, LookupAnswer(0, None));
    assert Next(s1, Continue(0)) == s';
    assert Run(p, s', [], s');
    RunCons(p, s1, Continue(0), [], s');
    RunCons(p, s, LookupAnswer(0, None), [Continue(0)], s');
  }

  /** The lookup finds nothing yet, and the name is forgotten while its creation is pending. */
  lemma LookupForgets(p: Policy, s: State, name: string) returns (s': State)
    requires Idle(s) && !p.removeWaits
    ensures s' == s.(owner := Owner(map[], {0}, false), creates := map[0 := Create(name, Issued)],
                     removes := map[0 := Removal(name, Done)])
    ensures Run(p, s, [CreateCall(0, name), RemoveCall(0, name), LookupAnswer(0, None), Continue(0)], s')
  {
    var s1 := Next(s, CreateCall(0, name));
    var s2 := Next(s1, RemoveCall(0, name));
    s' := s.(owner := Owner(map[], {0}, false), creates := map[0 := Create(name, Issued)],
             removes := map[0 := Removal(name, Done)]);
    assert s2.owner.containers - {name} == map[];
    LookupFails(p, s2, name, s');
    RunCons(p, s1, RemoveCall(0, name), [LookupAnswer(0, None), Continue(0)], s');
    RunCons(p, s, CreateCall(0, name), [RemoveCall(0, name), LookupAnswer(0, None), Continue(0)], s');
  }

  /** A create command that takes effect and then fails. */
  lemma CreateFailsLate(p: Policy, s: State, op: nat, id: int) returns (s': State)
    requires Enabled(s, CreateEffect(op, id))
    ensures s' == s.(daemon := Daemon(s.daemon.boxes[id := Box(s.creates[op].name, true)], s.daemon.live + {id}),
                     owner := s.owner.(admissions := s.owner.admissions - {op}),
                     creates := s.creates[op := s.creates[op].(phase := Refused)])
    ensures Run(p, s, [CreateEffect(op, id), CreateSettle(op, false)], s')
  {
    var s1 := Next(s, CreateEffect(op, id));
    s' := Next(s1, CreateSettle(op, false));
    assert Run(p, s', [], s');
    RunCons(p, s1, CreateSettle(op, false), [], s');
    RunCons(p, s, CreateEffect(op, id), [CreateSettle(op, false)], s');
  }

  /**
   * Removing a name while its creation is pending can leak the container, under any name: the lookup
   * finds nothing yet and forgets the name, and then the create command fails after taking effect.
   */
  lemma RemoveDuringCreateLeaks(p: Policy, s: State, name: string, id: int) returns (es: seq<Event>, s': State)
    requires Idle(s) && id !in s.daemon.boxes && !p.removeWaits
    ensures Run(p, s, es, s') && Leaked(s', 0, id, name)
    ensures es == [CreateCall(0, name), RemoveCall(0, name), LookupAnswer(0, None), Continue(0)] +
                  ([CreateEffect(0, id), CreateSettle(0, false)] +
                  [DisposeCall(0), DisposeSpawn(0, map[]), DisposeSettle(0)])
  {
    var s1 := LookupForgets(p, s, name);
    var s2 := CreateFailsLate(p, s1, 0, id);
    var tail;
    tail, s' := DisposeEmpty(p, s2, 0);
    var late := [CreateEffect(0, id), CreateSettle(0, false)];
    RunConcat(p, s1, late, s2, tail, s');
    var lost := [CreateCall(0, name), RemoveCall(0, name), LookupAnswer(0, None), Continue(0)];
    RunConcat(p, s, lost, s1, late + tail, s');
    es := lost + (late + tail);
  }

  lemma CreateSucceeds(p: Policy, s: State, op: nat, id: int) returns (s': State)
    requires Enabled(s, CreateEffect(op, id))
    ensures s' == s.(daemon := Daemon(s.daemon.boxes[id := Box(s.creates[op].name, true)], s.daemon.live + {id}),
                     owner := Settle(s.owner, s.creates[op].name, op, Some(id)),
                     creates := s.creates[op := s.creates[op].(phase := Created)])
    ensures Run(p, s, [CreateEffect(op, id), CreateSettle(op, true)], s')
  {
    var s1 := Next(s, CreateEffect(op, id));
    s' := Next(s1, CreateSettle(op, true));
    assert Run(p, s', [], s');
    RunCons(p, s1, CreateSettle(op, true), [], s');
    RunCons(p, s, CreateEffect(op, id), [CreateSettle(op, true)], s');
  }

  lemma OrdinaryCreate(p: Policy, s: State, op: nat, name: string, id: int) returns (es: seq<Event>, s': State)
    requires !s.owner.revoked && name !in s.owner.containers && op !in s.creates && op !in s.owner.admissions
    requires id !in s.daemon.boxes && NameFree(s, name) && Allowed(p, s, CreateCall(op, name))
    ensures es == [CreateCall(op, name), CreateEffect(op, id), CreateSettle(op, true)] && Run(p, s, es, s')
    ensures s' == s.(daemon := Daemon(s.daemon.boxes[id := Box(name, true)], s.daemon.live + {id}),
                     owner := s.owner.(containers := s.owner.containers[name := Some(id)]),
                     creates := s.creates[op := Create(name, Created)])
  {
    hide Run, Allowed;
    es := [CreateCall(op, name), CreateEffect(op, id), CreateSettle(op, true)];
    var s1 := Next(s, CreateCall(op, name));
    s' := CreateSucceeds(p, s1, op, id);
    assert s'.owner.admissions == s.owner.admissions;
    assert es == [CreateCall(op, name)] + [CreateEffect(op, id), CreateSettle(op, true)];
    RunCons(p, s, CreateCall(op, name), [CreateEffect(op, id), CreateSettle(op, true)], s');
  }

  /** The events of a removal whose commands all succeed. */
  function OrdinaryEvents(t: nat): seq<Event> {
    ([Answer(t), Continue(t)] + [Answer(t), Continue(t)]) + ([Answer(t), Continue(t)] + [Answer(t), Continue(t)])
  }

  lemma AnswerAndContinue(p: Policy, s: State, t: nat, s': State)
    requires Enabled(s, Answer(t)) && Enabled(Next(s, Answer(t)), Continue(t))
    requires s' == Next(Next(s, Answer(t)), Continue(t))
    ensures Run(p, s, [Answer(t), Continue(t)], s')
  {
    var s1 := Next(s, Answer(t));
    assert Run(p, s', [], s');
    RunCons(p, s1, Continue(t), [], s');
    RunCons(p, s, Answer(t), [Continue(t)], s');
  }

  function At(s: State, t: nat, phase: RemovePhase): State
    requires t in s.removes
  {
    s.(removes := s.removes[t := s.removes[t].(phase := phase)])
  }

  lemma CheckedAndInspected(p: Policy, s: State, t: nat, id: int)
    requires t in s.removes && s.removes[t].phase == Check(id) && LiveMine(s, id, s.removes[t].name)
    ensures Run(p, s, [Answer(t), Continue(t)] + [Answer(t), Continue(t)], At(s, t, Remove(id)))
  {
    hide Run;
    CheckedOnly(p, s, t, id);
    InspectedOnly(p, At(s, t, Inspect(id)), t, id);
    assert At(At(s, t, Inspect(id)), t, Remove(id)) == At(s, t, Remove(id));
    RunConcat(p, s, [Answer(t), Continue(t)], At(s, t, Inspect(id)), [Answer(t), Continue(t)], At(s, t, Remove(id)));
  }

  lemma CheckedOnly(p: Policy, s: State, t: nat, id: int)
    requires t in s.removes && s.removes[t].phase == Check(id) && LiveMine(s, id, s.removes[t].name)
    ensures Run(p, s, [Answer(t), Continue(t)], At(s, t, Inspect(id)))
  {
    AnswerAndContinue(p, s, t, At(s, t, Inspect(id)));
  }

  lemma InspectedOnly(p: Policy, s: State, t: nat, id: int)
    requires t in s.removes && s.removes[t].phase == Inspect(id) && LiveMine(s, id, s.removes[t].name)
    ensures Run(p, s, [Answer(t), Continue(t)], At(s, t, Remove(id)))
  {
    AnswerAndContinue(p, s, t, At(s, t, Remove(id)));
  }

  function Without(s: State, id: int): State { s.(daemon := s.daemon.(live := s.daemon.live - {id})) }

  function Forgotten(s: State, name: string): State {
    s.(owner := s.owner.(containers := s.owner.containers - {name}))
  }

  lemma RemovedAndConfirmed(p: Policy, s: State, t: nat, id: int)
    requires t in s.removes && s.removes[t].phase == Remove(id)
    ensures Run(p, s, [Answer(t), Continue(t)] + [Answer(t), Continue(t)],
                Forgotten(Without(At(s, t, Done), id), s.removes[t].name))
  {
    var s1 := Without(At(s, t, Recheck(id)), id);
    RemovedOnly(p, s, t, id);
    ConfirmedOnly(p, s1, t, id);
    assert Forgotten(At(s1, t, Done), s1.removes[t].name) == Forgotten(Without(At(s, t, Done), id), s.removes[t].name);
    RunConcat(p, s, [Answer(t), Continue(t)], s1, [Answer(t), Continue(t)],
              Forgotten(At(s1, t, Done), s1.removes[t].name));
  }

  lemma RemovedOnly(p: Policy, s: State, t: nat, id: int)
    requires t in s.removes && s.removes[t].phase == Remove(id)
    ensures Run(p, s, [Answer(t), Continue(t)], Without(At(s, t, Recheck(id)), id))
  {
    AnswerAndContinue(p, s, t, Without(At(s, t, Recheck(id)), id));
  }

  lemma ConfirmedOnly(p: Policy, s: State, t: nat, id: int)
    requires t in s.removes && s.removes[t].phase == Recheck(id) && id !in s.daemon.live
    ensures Run(p, s, [Answer(t), Continue(t)], Forgotten(At(s, t, Done), s.removes[t].name))
  {
    AnswerAndContinue(p, s, t, Forgotten(At(s, t, Done), s.removes[t].name));
  }

  /** Such a removal ends with the container gone and the name forgotten. */
  lemma OrdinaryRemoval(p: Policy, s: State, t: nat, id: int)
    requires t in s.removes && s.removes[t].phase == Check(id) && LiveMine(s, id, s.removes[t].name)
    ensures Run(p, s, OrdinaryEvents(t), Forgotten(Without(At(s, t, Done), id), s.removes[t].name))
  {
    var s1 := At(s, t, Remove(id));
    var s2 := Forgotten(Without(At(s, t, Done), id), s.removes[t].name);
    CheckedAndInspected(p, s, t, id);
    RemovedAndConfirmed(p, s1, t, id);
    assert Forgotten(Without(At(s1, t, Done), id), s1.removes[t].name) == s2;
    RunConcat(p, s, [Answer(t), Continue(t)] + [Answer(t), Continue(t)], s1,
              [Answer(t), Continue(t)] + [Answer(t), Continue(t)], s2);
  }

  ghost predicate Settled(s: State) { forall op :: op in s.creates ==> !Pending(s.creates[op]) }

  lemma BothBegin(p: Policy, s: State, name: string, id: int, s': State, rest: seq<Event>, end: State)
    requires s.removes == map[] && s.owner.containers == map[name := Some(id)] && Settled(s)
    requires s' == s.(removes := map[0 := Removal(name, Check(id)), 1 := Removal(name, Check(id))])
    requires Run(p, s', rest, end)
    ensures Run(p, s, [RemoveCall(0, name), RemoveCall(1, name)] + rest, end)
  {
    var s1 := Next(s, RemoveCall(0, name));
    assert Next(s1, RemoveCall(1, name)) == s';
    RunCons(p, s1, RemoveCall(1, name), rest, end);
    RunCons(p, s, RemoveCall(0, name), [RemoveCall(1, name)] + rest, end);
    assert [RemoveCall(0, name)] + ([RemoveCall(1, name)] + rest) == [RemoveCall(0, name), RemoveCall(1, name)] + rest;
  }

  lemma SecondLearns(p: Policy, s: State, name: string, id: int, s': State)
    requires s.removes == map[0 := Removal(name, Done), 1 := Removal(name, Check(id))] && id !in s.daemon.live
    requires s' == s.(removes := map[0 := Removal(name, Done), 1 := Removal(name, Checked(id, false))])
    ensures Run(p, s, [Answer(1)], s')
  {
    assert Next(s, Answer(1)) == s';
    assert Run(p, s', [], s');
    RunCons(p, s, Answer(1), [], s');
  }

  /** Two removals begin, the first completes, and the second learns that the container is gone. */
  lemma OverlappingRemovals(p: Policy, s: State, name: string, id: int) returns (s': State)
    requires s.removes == map[] && s.owner.containers == map[name := Some(id)] && LiveMine(s, id, name) && Settled(s)
    ensures Run(p, s, [RemoveCall(0, name), RemoveCall(1, name)] + (OrdinaryEvents(0) + [Answer(1)]), s')
    ensures s' == s.(daemon := s.daemon.(live := s.daemon.live - {id}), owner := s.owner.(containers := map[]),
                     removes := map[0 := Removal(name, Done), 1 := Removal(name, Checked(id, false))])
  {
    var s1 := s.(removes := map[0 := Removal(name, Check(id)), 1 := Removal(name, Check(id))]);
    var s2 := Forgotten(Without(At(s1, 0, Done), id), name);
    OrdinaryRemoval(p, s1, 0, id);
    s' := s2.(removes := map[0 := Removal(name, Done), 1 := Removal(name, Checked(id, false))]);
    assert s2.removes == map[0 := Removal(name, Done), 1 := Removal(name, Check(id))];
    assert s2.owner.containers == map[];
    SecondLearns(p, s2, name, id, s');
    RunConcat(p, s1, OrdinaryEvents(0), s2, [Answer(1)], s');
    BothBegin(p, s, name, id, s1, OrdinaryEvents(0) + [Answer(1)], s');
  }

  /** After the overlap: one removal is done, the other is about to forget the name. */
  ghost predicate Overlapped(s: State, name: string, first: int) {
    && s.owner == Owner(map[], {}, false)
    && s.removes == map[0 := Removal(name, Done), 1 := Removal(name, Checked(first, false))]
    && s.creates.Keys == {0} && s.disposes == map[] && s.daemon.live == {}
  }

  lemma CreateAndOverlap(p: Policy, s: State, name: string, first: int) returns (es: seq<Event>, s': State)
    requires Idle(s) && first !in s.daemon.boxes
    ensures Run(p, s, es, s') && Overlapped(s', name, first) && s'.daemon.boxes.Keys == s.daemon.boxes.Keys + {first}
    ensures es == [CreateCall(0, name), CreateEffect(0, first), CreateSettle(0, true)] +
                  ([RemoveCall(0, name), RemoveCall(1, name)] + (OrdinaryEvents(0) + [Answer(1)]))
  {
    var created, s1 := OrdinaryCreate(p, s, 0, name, first);
    s' := OverlappingRemovals(p, s1, name, first);
    var removals := [RemoveCall(0, name), RemoveCall(1, name)] + (OrdinaryEvents(0) + [Answer(1)]);
    RunConcat(p, s, created, s1, removals, s');
    es := created + removals;
  }

  lemma ForgetAgain(p: Policy, s: State, s': State)
    requires 1 in s.removes && SawNothing(s.removes[1].phase)
    requires s' == Forgotten(At(s, 1, Done), s.removes[1].name)
    ensures Run(p, s, [Continue(1)], s')
  {
    assert Enabled(s, Continue(1)) && Next(s, Continue(1)) == s';
    assert Run(p, s', [], s');
    RunCons(p, s, Continue(1), [], s');
  }

  lemma CreateAndForget(p: Policy, s: State, name: string, first: int, second: int) returns (es: seq<Event>, s': State)
    requires Overlapped(s, name, first) && second !in s.daemon.boxes && !p.createWaits
    ensures Run(p, s, es, s') && s'.owner == Owner(map[], {}, false) && s'.disposes == map[]
            && LiveMine(s', second, name)
    ensures es == [CreateCall(1, name), CreateEffect(1, second), CreateSettle(1, true)] + [Continue(1)]
  {
    var again, s1 := OrdinaryCreate(p, s, 1, name, second);
    s' := Forgotten(At(s1, 1, Done), name);
    ForgetAgain(p, s1, s');
    assert s'.owner.containers == map[];
    RunConcat(p, s, again, s1, [Continue(1)], s');
    es := again + [Continue(1)];
  }

  /**
   * Creating a name while a removal of it is still at work can leak too, although every command
   * succeeds: of two overlapping removals, the later one forgets the name that was just admitted again.
   */
  lemma CreateDuringRemoveLeaks(p: Policy, s: State, name: string, first: int, second: int)
    returns (overlap: seq<Event>, again: seq<Event>, dispose: seq<Event>, s': State)
    requires Idle(s) && first !in s.daemon.boxes && second !in s.daemon.boxes && first != second && !p.createWaits
    ensures Run(p, s, overlap + (again + dispose), s') && Leaked(s', 0, second, name)
    ensures overlap == [CreateCall(0, name), CreateEffect(0, first), CreateSettle(0, true)] +
                       ([RemoveCall(0, name), RemoveCall(1, name)] + (OrdinaryEvents(0) + [Answer(1)]))
    ensures again == [CreateCall(1, name), CreateEffect(1, second), CreateSettle(1, true)] + [Continue(1)]
    ensures dispose == [DisposeCall(0), DisposeSpawn(0, map[]), DisposeSettle(0)]
  {
    var s1, s2;
    overlap, s1 := CreateAndOverlap(p, s, name, first);
    again, s2 := CreateAndForget(p, s1, name, first, second);
    dispose, s' := DisposeEmpty(p, s2, 0);
    RunConcat(p, s1, again, s2, dispose, s');
    RunConcat(p, s, overlap, s1, again + dispose, s');
  }

  /** A disposal that resolves leaves none of this owner's containers behind, in any run of these callers. */
  ghost predicate AlwaysClean(p: Policy) {
    forall es, s, d, id, name :: Run(p, INITIAL, es, s) ==> !Leaked(s, d, id, name)
  }

  /** Exactly the callers that follow both rules are always left clean: dropping either one admits a leak. */
  lemma DisciplineExact(p: Policy)
    ensures AlwaysClean(p) <==> p.removeWaits && p.createWaits
  {
    if p == DISCIPLINE {
      forall es, s, d, id, name | Run(p, INITIAL, es, s) ensures !Leaked(s, d, id, name) {
        if d in s.disposes && s.disposes[d].phase.Resolved? { DisposedClean(es, s, d); }
      }
    } else if !p.removeWaits {
      var es, s := RemoveDuringCreateLeaks(p, INITIAL, "fixture", 1);
      assert !AlwaysClean(p);
    } else {
      var a, b, c, s := CreateDuringRemoveLeaks(p, INITIAL, "fixture", 1, 2);
      assert !AlwaysClean(p);
    }
  }
}
