/** The lock of a pull request: acquired under a directory guard, released without it. */
module PrLock {

  datatype Owner = Owner(run: string, host: string, pid: int)

  datatype Maybe = Nobody | Owned(owner: Owner)

  /** What happened to the lock file: written over what was read there, with the liveness answer used, or removed. */
  datatype Entry = Acquired(by_: Owner, over: Maybe, alive: bool) | Removed(owner: Maybe)

  /** Where a process is; the ones between Guarded and Leaving are inside the guard. */
  datatype Place =
    | Outside | Guarded | HasRead(found: Maybe, since: nat) | Leaving(result: bool) | Ended
    | ReleaseRead(seen: Maybe) | DeadInside

  datatype Process = Process(owner: Owner, place: Place)

  datatype World = World(guard: bool, lock: Maybe, processes: seq<Process>, log: seq<Entry>)

  datatype Move =
    | Spawn(owner: Owner)
    | MakeGuard(p: nat)
    | ReadOwner(p: nat)
    | Replace(p: nat, alive: bool)
    | GiveUp(p: nat)
    | RemoveGuard(p: nat)
    | StartRelease(p: nat)
    | Unlink(p: nat)
    | Die(p: nat)

  predicate Inside(p: Place) {
    p.Guarded? || p.HasRead? || p.Leaving? || p.DeadInside?
  }

  /** The three conditions of a takeover: same host, same run, and a first owner judged dead. */
  predicate Reclaimable(found: Maybe, by_: Owner, alive: bool) {
    found.Owned? ==> found.owner.host == by_.host && found.owner.run == by_.run && !alive
  }

  function Put(x: World, p: nat, place: Place): World
    requires p < |x.processes|
  {
    x.(processes := x.processes[p := x.processes[p].(place := place)])
  }

  /** One step of one process; a step that is not possible where the process is does nothing. */
  function Step(x: World, m: Move): World {
    if m.Spawn? then x.(processes := x.processes + [Process(m.owner, Outside)])
    else if m.p >= |x.processes| then x
    else
      var me := x.processes[m.p].owner;
      var place := x.processes[m.p].place;
      match m
      case MakeGuard(p) =>
        if !place.Outside? then x
        else if x.guard then Put(x, p, Ended)
        else Put(x.(guard := true), p, Guarded)
      case ReadOwner(p) => if place.Guarded? then Put(x, p, HasRead(x.lock, |x.log|)) else x
      case Replace(p, alive) =>
        if !place.HasRead? then x
        else if !Reclaimable(place.found, me, alive) then Put(x, p, Leaving(false))
        else Put(x.(lock := Owned(me), log := x.log + [Acquired(me, place.found, alive)]), p, Leaving(true))
      case GiveUp(p) => if place.Guarded? || place.HasRead? then Put(x, p, Leaving(false)) else x
      case RemoveGuard(p) => if place.Leaving? then Put(x.(guard := false), p, Ended) else x
      case StartRelease(p) => if place.Ended? then Put(x, p, ReleaseRead(x.lock)) else x
      case Unlink(p) =>
        if !place.ReleaseRead? then x
        else if place.seen.Owned? && place.seen.owner.run == me.run && place.seen.owner.pid == me.pid then
          Put(x.(lock := Nobody, log := x.log + [Removed(x.lock)]), p, Ended)
        else Put(x, p, Ended)
      case Die(p) => if Inside(place) then Put(x, p, DeadInside) else Put(x, p, Ended)
      case _ => x
  }

  function Play(x: World, moves: seq<Move>): World {
    if moves == [] then x else Step(Play(x, moves[..|moves| - 1]), moves[|moves| - 1])
  }

  const START := World(false, Nobody, [], [])

  // ---- what every interleaving keeps ----

  ghost predicate Exclusive(x: World) {
    && (forall i, j :: 0 <= i < j < |x.processes| ==> !(Inside(x.processes[i].place) && Inside(x.processes[j].place)))
    && (x.guard <==> exists i :: 0 <= i < |x.processes| && Inside(x.processes[i].place))
  }

  /** What the log says the lock file holds. */
  function Current(log: seq<Entry>): Maybe {
    if log == [] then Nobody
    else match log[|log| - 1] case Acquired(by_, _, _) => Owned(by_) case Removed(_) => Nobody
  }

  /**
   * Nothing was acquired since a process inside the guard read the lock; what it read is still there unless removed.
   */
  ghost predicate ReadStands(x: World, place: Place) {
    place.HasRead? ==>
      && place.since <= |x.log|
      && (forall k :: place.since <= k < |x.log| ==> x.log[k].Removed?)
      && place.found == Current(x.log[..place.since])
  }

  /** Each takeover is of the very owner that acquired last, or follows a removal. */
  ghost predicate Justified(log: seq<Entry>, k: nat)
    requires k < |log|
  {
    log[k].Acquired? ==>
      Reclaimable(log[k].over, log[k].by_, log[k].alive)
      && exists since: nat :: since <= k && log[k].over == Current(log[..since])
           && forall j :: since <= j < k ==> log[j].Removed?
  }

  ghost predicate Sound(x: World) {
    && Exclusive(x)
    && x.lock == Current(x.log)
    && (forall i :: 0 <= i < |x.processes| ==> ReadStands(x, x.processes[i].place))
    && (forall k: nat :: k < |x.log| ==> Justified(x.log, k))
  }

  /** A step that changes neither the guard nor the lock. */
  lemma MoveKeeps(x: World, p: nat, place: Place)
    requires Sound(x) && p < |x.processes|
    requires Inside(place) == Inside(x.processes[p].place) && ReadStands(x, place)
    ensures Sound(Put(x, p, place))
  {
    hide Justified;
    var y := Put(x, p, place);
    assert forall i :: 0 <= i < |x.processes| ==> Inside(y.processes[i].place) == Inside(x.processes[i].place);
    forall i | 0 <= i < |y.processes| ensures ReadStands(y, y.processes[i].place) {
      if i != p { assert y.processes[i] == x.processes[i]; }
      assert ReadStands(x, y.processes[i].place);
    }
  }

  lemma SpawnKeeps(x: World, owner: Owner)
    requires Sound(x)
    ensures Sound(Step(x, Spawn(owner)))
  {
    hide Justified;
    hide Current;
    var y := Step(x, Spawn(owner));
    assert forall i :: 0 <= i < |x.processes| ==> y.processes[i] == x.processes[i];
    if i :| 0 <= i < |x.processes| && Inside(x.processes[i].place) { assert Inside(y.processes[i].place); }
    forall i | 0 <= i < |y.processes| ensures ReadStands(y, y.processes[i].place) {
      if i < |x.processes| { assert ReadStands(x, x.processes[i].place); }
    }
  }

  lemma GuardKeeps(x: World, p: nat)
    requires Sound(x) && p < |x.processes| && x.processes[p].place.Outside? && !x.guard
    ensures Sound(Put(x.(guard := true), p, Guarded))
  {
    hide Justified;
    hide Current;
    var y := Put(x.(guard := true), p, Guarded);
    assert forall i :: 0 <= i < |x.processes| ==> !Inside(x.processes[i].place);
    assert Inside(y.processes[p].place);
    forall i | 0 <= i < |y.processes| ensures ReadStands(y, y.processes[i].place) {
      if i != p { assert y.processes[i] == x.processes[i]; }
    }
  }

  lemma LeaveKeeps(x: World, p: nat)
    requires Sound(x) && p < |x.processes| && x.processes[p].place.Leaving?
    ensures Sound(Put(x.(guard := false), p, Ended))
  {
    hide Justified;
    hide Current;
    var y := Put(x.(guard := false), p, Ended);
    forall i | 0 <= i < |y.processes| ensures !Inside(y.processes[i].place) && ReadStands(y, y.processes[i].place) {
      if i != p {
        assert y.processes[i] == x.processes[i];
        assert Inside(x.processes[p].place);
      }
    }
  }

  lemma JustifiedExtends(log: seq<Entry>, e: Entry, k: nat)
    requires k < |log|
    ensures Justified(log, k) ==> Justified(log + [e], k)
  {
    if Justified(log, k) && log[k].Acquired? {
      var since: nat :| since <= k && log[k].over == Current(log[..since])
        && forall j :: since <= j < k ==> log[j].Removed?;
      assert (log + [e])[..since] == log[..since];
    }
  }

  lemma ReplaceKeeps(x: World, p: nat, alive: bool)
    requires Sound(x) && p < |x.processes| && x.processes[p].place.HasRead?
    requires Reclaimable(x.processes[p].place.found, x.processes[p].owner, alive)
    ensures Sound(Step(x, Replace(p, alive)))
  {
    hide Current;
    var y := Step(x, Replace(p, alive));
    var e := Acquired(x.processes[p].owner, x.processes[p].place.found, alive);
    assert y.log == x.log + [e] && y.lock == Current(y.log) by { CurrentLast(x.log, e); }
    forall k: nat | k < |y.log| ensures Justified(y.log, k) {
      if k < |x.log| {
        JustifiedExtends(x.log, e, k);
      } else {
        var since := x.processes[p].place.since;
        assert ReadStands(x, x.processes[p].place);
        assert y.log[..since] == x.log[..since];
      }
    }
    forall i | 0 <= i < |y.processes|
      ensures Inside(y.processes[i].place) == Inside(x.processes[i].place) && !y.processes[i].place.HasRead?
    {
      if i != p { assert y.processes[i] == x.processes[i]; }
    }
    assert Inside(x.processes[p].place);
  }

  lemma CurrentLast(log: seq<Entry>, e: Entry)
    ensures Current(log + [e]) == match e case Acquired(by_, _, _) => Owned(by_) case Removed(_) => Nobody
  {}

  lemma UnlinkKeeps(x: World, p: nat)
    requires Sound(x) && p < |x.processes| && x.processes[p].place.ReleaseRead?
    ensures Sound(Step(x, Unlink(p)))
  {
    hide Current;
    var y := Step(x, Unlink(p));
    if |y.log| > |x.log| {
      var e := Removed(x.lock);
      CurrentLast(x.log, e);
      forall k: nat | k < |y.log| ensures Justified(y.log, k) {
        if k < |x.log| { JustifiedExtends(x.log, e, k); }
      }
      forall i | 0 <= i < |y.processes|
        ensures Inside(y.processes[i].place) == Inside(x.processes[i].place) && ReadStands(y, y.processes[i].place)
      {
        if i != p {
          assert y.processes[i] == x.processes[i];
          assert ReadStands(x, x.processes[i].place);
          if x.processes[i].place.HasRead? {
            assert y.log[..x.processes[i].place.since] == x.log[..x.processes[i].place.since];
          }
        }
      }
      if i :| 0 <= i < |x.processes| && Inside(x.processes[i].place) { assert Inside(y.processes[i].place); }
    } else {
      MoveKeeps(x, p, Ended);
    }
  }

  lemma InsideGuarded(x: World, p: nat)
    requires Sound(x) && p < |x.processes|
    ensures Inside(x.processes[p].place) ==> x.guard
    ensures ReadStands(x, HasRead(x.lock, |x.log|))
  {
    assert x.log[..|x.log|] == x.log;
  }

  lemma StepKeeps(x: World, m: Move)
    requires Sound(x)
    ensures Sound(Step(x, m))
  {
    hide Sound;
    if m.Spawn? {
      SpawnKeeps(x, m.owner);
    } else if m.p < |x.processes| {
      InsideGuarded(x, m.p);
      var place := x.processes[m.p].place;
      match m
      case MakeGuard(p) =>
        if place.Outside? && x.guard { MoveKeeps(x, p, Ended); } else if place.Outside? { GuardKeeps(x, p); }
      case ReadOwner(p) => if place.Guarded? { MoveKeeps(x, p, HasRead(x.lock, |x.log|)); }
      case Replace(p, alive) =>
        if place.HasRead? && Reclaimable(place.found, x.processes[p].owner, alive) {
          ReplaceKeeps(x, p, alive);
        } else if place.HasRead? {
          MoveKeeps(x, p, Leaving(false));
        }
      case GiveUp(p) => if place.Guarded? || place.HasRead? { MoveKeeps(x, p, Leaving(false)); }
      case RemoveGuard(p) => if place.Leaving? { LeaveKeeps(x, p); }
      case StartRelease(p) => if place.Ended? { MoveKeeps(x, p, ReleaseRead(x.lock)); }
      case Unlink(p) => if place.ReleaseRead? { UnlinkKeeps(x, p); }
      case Die(p) => MoveKeeps(x, p, if Inside(place) then DeadInside else Ended);
    }
  }

  lemma {:induction false} PlaySound(moves: seq<Move>)
    ensures Sound(Play(START, moves))
    decreases |moves|
  {
    hide Step;
    if moves != [] {
      PlaySound(moves[..|moves| - 1]);
      StepKeeps(Play(START, moves[..|moves| - 1]), moves[|moves| - 1]);
    }
  }

  /** An acquisition directly after another is a takeover of that owner: same host, same run, and judged dead. */
  lemma NextAcquisition(log: seq<Entry>, k: nat)
    requires k + 1 < |log| && log[k].Acquired? && log[k + 1].Acquired? && Justified(log, k + 1)
    ensures log[k + 1].over == Owned(log[k].by_) && !log[k + 1].alive
    ensures log[k + 1].by_.host == log[k].by_.host && log[k + 1].by_.run == log[k].by_.run
  {
    var since: nat :| since <= k + 1 && log[k + 1].over == Current(log[..since])
      && forall j :: since <= j < k + 1 ==> log[j].Removed?;
    assert since == k + 1;
    assert log[..since][|log[..since]| - 1] == log[k];
  }

  lemma {:induction false} AcquisitionsAgree(log: seq<Entry>, a: nat, b: nat)
    requires a < b < |log| && (forall k :: a <= k <= b ==> log[k].Acquired?)
        && (forall k: nat :: k < |log| ==> Justified(log, k))
    ensures log[b].by_.host == log[a].by_.host && log[b].by_.run == log[a].by_.run
    decreases b
  {
    hide Justified;
    NextAcquisition(log, b - 1);
    if b - 1 > a { AcquisitionsAgree(log, a, b - 1); }
  }

  /**
   * Two processes both acquire the lock with no removal in between only as one run on one host, and only after the
   * first owner was judged dead: under any interleaving of any number of processes, crashes and unguarded releases
   * included.
   */
  lemma TwoSuccesses(moves: seq<Move>, a: nat, b: nat)
    requires var log := Play(START, moves).log; a < b < |log| && forall k :: a <= k <= b ==> log[k].Acquired?
    ensures var log := Play(START, moves).log;
            && log[a].by_.host == log[b].by_.host && log[a].by_.run == log[b].by_.run
            && log[a + 1].over == Owned(log[a].by_) && !log[a + 1].alive
  {
    hide Play;
    hide Justified;
    PlaySound(moves);
    var log := Play(START, moves).log;
    AcquisitionsAgree(log, a, b);
    NextAcquisition(log, a);
  }

  // ---- what one attempt achieves ----

  /**
   * A process that has read the lock under the guard ends as its owner exactly if nobody held it, or an owner of the
   * same host and the same run that is judged dead; in every other case file and log stay as they are.
   */
  lemma ReplaceExactly(x: World, p: nat, alive: bool)
    requires p < |x.processes| && x.processes[p].place.HasRead?
    ensures var y, me, found := Step(x, Replace(p, alive)), x.processes[p].owner, x.processes[p].place.found;
            var taken := found == Nobody || (found.owner.host == me.host && found.owner.run == me.run && !alive);
            && y.guard == x.guard && y.processes == x.processes[p := Process(me, Leaving(taken))]
            && y.lock == (if taken then Owned(me) else x.lock)
            && y.log == (if taken then x.log + [Acquired(me, found, alive)] else x.log)
  {}

  lemma PlayNext(x: World, moves: seq<Move>, m: Move)
    ensures Play(x, moves + [m]) == Step(Play(x, moves), m)
  {
    assert (moves + [m])[..|moves|] == moves;
  }

  function Attempt(p: nat, alive: bool): seq<Move> {
    [MakeGuard(p), ReadOwner(p), Replace(p, alive), RemoveGuard(p)]
  }

  /**
   * An undisturbed attempt: the lock changes hands exactly if the guard was free and the lock is free or may be taken
   * over, and nothing but the end of the attempt is left behind otherwise.
   */
  lemma UndisturbedAttempt(x: World, p: nat, alive: bool)
    requires p < |x.processes| && x.processes[p].place.Outside?
    ensures var y, me := Play(x, Attempt(p, alive)), x.processes[p].owner;
            && y.guard == x.guard && y.processes == x.processes[p := Process(me, Ended)]
            && (if !x.guard && (x.lock == Nobody
                                || (x.lock.owner.host == me.host && x.lock.owner.run == me.run && !alive))
                then y.lock == Owned(me) && y.log == x.log + [Acquired(me, x.lock, alive)]
                else y.lock == x.lock && y.log == x.log)
  {
    AttemptSteps(x, p, alive);
    if !x.guard {
      var read := Put(Put(x.(guard := true), p, Guarded), p, HasRead(x.lock, |x.log|));
      assert Step(Step(x, MakeGuard(p)), ReadOwner(p)) == read;
      ReplaceExactly(read, p, alive);
      hide Reclaimable;
      var y := Step(Step(read, Replace(p, alive)), RemoveGuard(p));
      assert y.processes == x.processes[p := Process(x.processes[p].owner, Ended)];
    }
  }

  lemma AttemptSteps(x: World, p: nat, alive: bool)
    ensures Play(x, Attempt(p, alive)) ==
            Step(Step(Step(Step(x, MakeGuard(p)), ReadOwner(p)), Replace(p, alive)), RemoveGuard(p))
  {
    hide Step;
    var a, b, c, d := MakeGuard(p), ReadOwner(p), Replace(p, alive), RemoveGuard(p);
    PlayNext(x, [], a);
    PlayNext(x, [a], b);
    PlayNext(x, [a, b], c);
    PlayNext(x, [a, b, c], d);
    assert [] + [a] == [a] && [a] + [b] == [a, b] && [a, b] + [c] == [a, b, c] && [a, b, c] + [d] == Attempt(p, alive);
  }

  /** So after any history that left the guard and the lock free, a new process acquires it. */
  lemma FreeLockIsAcquired(moves: seq<Move>, p: nat, alive: bool)
    requires var x := Play(START, moves);
             p < |x.processes| && x.processes[p].place.Outside? && !x.guard && x.lock == Nobody
    ensures Play(START, moves + Attempt(p, alive)).lock == Owned(Play(START, moves).processes[p].owner)
    ensures !Play(START, moves + Attempt(p, alive)).guard
  {
    hide Step;
    UndisturbedAttempt(Play(START, moves), p, alive);
    PlayOn(START, moves, Attempt(p, alive));
  }

  lemma {:induction false} PlayOn(x: World, first: seq<Move>, rest: seq<Move>)
    ensures Play(x, first + rest) == Play(Play(x, first), rest)
    decreases |rest|
  {
    hide Step;
    if rest == [] {
      assert first + rest == first;
    } else {
      var n := |rest| - 1;
      PlayOn(x, first, rest[..n]);
      assert (first + rest)[..|first| + n] == first + rest[..n];
    }
  }

  /** An undisturbed release frees the lock exactly if the file names the run and the process of the caller. */
  lemma UndisturbedRelease(x: World, p: nat)
    requires p < |x.processes| && x.processes[p].place.Ended?
    ensures var y, me := Step(Step(x, StartRelease(p)), Unlink(p)), x.processes[p].owner;
            && y.guard == x.guard && y.processes == x.processes
            && y.lock == (if x.lock.Owned? && x.lock.owner.run == me.run && x.lock.owner.pid == me.pid then Nobody
                          else x.lock)
  {}
}
