/** The ledger of process trees under its directory guard: any number of writers, any interleaving, any crash. */
module GuardedLedger {

  type Tree = string

  datatype Change = Add(tree: Tree) | Remove(tree: Tree)

  function Without(ledger: seq<Tree>, tree: Tree): (rest: seq<Tree>)
    ensures forall t :: t in rest <==> t in ledger && t != tree
  {
    if ledger == [] then [] else
      assert ledger == [ledger[0]] + ledger[1..];
      (if ledger[0] == tree then [] else [ledger[0]]) + Without(ledger[1..], tree)
  }

  /** Adding is idempotent, and so is removing; neither touches another tree. */
  function Changed(ledger: seq<Tree>, c: Change): seq<Tree> {
    match c
    case Add(tree) => if tree in ledger then ledger else ledger + [tree]
    case Remove(tree) => Without(ledger, tree)
  }

  function ChangedBy(ledger: seq<Tree>, cs: seq<Change>): seq<Tree> {
    if cs == [] then ledger else Changed(ChangedBy(ledger, cs[..|cs| - 1]), cs[|cs| - 1])
  }

  // ---- writers ----

  /** Where a writer is; it holds the guard from Entered to Releasing, and still holds it if it dies there. */
  datatype Place =
    | Waiting(left: nat) | Entered | Loaded(copy: seq<Tree>) | Releasing(saved: bool) | Finished(saved: bool)
    | DeadOutside
    | DeadInside(saved: bool)

  datatype Writer = Writer(change: Change, place: Place)

  /** The guard directory, the stored ledger, the writers, and which of them saved, in order. */
  datatype World = World(guard: bool, ledger: seq<Tree>, writers: seq<Writer>, committed: seq<nat>)

  datatype Move =
    | Start(change: Change, attempts: nat)
    | TryGuard(w: nat)
    | Load(w: nat)
    | LoadFails(w: nat)
    | SaveFile(w: nat)
    | Release(w: nat)
    | Die(w: nat)

  function Put(x: World, w: nat, place: Place): World
    requires w < |x.writers|
  {
    x.(writers := x.writers[w := x.writers[w].(place := place)])
  }

  predicate Holds(p: Place) {
    p.Entered? || p.Loaded? || p.Releasing? || p.DeadInside?
  }

  /** One step of one writer; a step that is not possible where the writer is does nothing. */
  function Step(x: World, m: Move): World {
    if m.Start? then x.(writers := x.writers + [Writer(m.change, Waiting(if m.attempts > 1 then m.attempts else 1))])
    else if m.w >= |x.writers| then x
    else
      var place := x.writers[m.w].place;
      match m
      case TryGuard(w) =>
        if !place.Waiting? then x
        else if !x.guard then Put(x.(guard := true), w, Entered)
        else Put(x, w, if place.left <= 1 then Finished(false) else Waiting(place.left - 1))
      case Load(w) => if place.Entered? then Put(x, w, Loaded(x.ledger)) else x
      case LoadFails(w) => if place.Entered? || place.Loaded? then Put(x, w, Releasing(false)) else x
      case SaveFile(w) =>
        if place.Loaded? then
          Put(x.(ledger := Changed(place.copy, x.writers[w].change), committed := x.committed + [w]), w,
              Releasing(true))
        else x
      case Release(w) => if place.Releasing? then Put(x.(guard := false), w, Finished(place.saved)) else x
      case Die(w) =>
        if Holds(place) then Put(x, w, DeadInside(if place.Releasing? || place.DeadInside? then place.saved else false))
        else if place.Waiting? then Put(x, w, DeadOutside)
        else x
      case _ => x
  }

  function Play(x: World, moves: seq<Move>): World {
    if moves == [] then x else Step(Play(x, moves[..|moves| - 1]), moves[|moves| - 1])
  }

  // ---- what every interleaving keeps ----

  ghost predicate Exclusive(x: World) {
    && (forall i, j :: 0 <= i < j < |x.writers| ==> !(Holds(x.writers[i].place) && Holds(x.writers[j].place)))
    && (x.guard <==> exists i :: 0 <= i < |x.writers| && Holds(x.writers[i].place))
  }

  predicate HasSaved(p: Place) {
    (p.Releasing? || p.Finished? || p.DeadInside?) && p.saved
  }

  /** The changes of the writers that saved, in the order in which they did. */
  function Changes(x: World): seq<Change>
    requires forall i :: 0 <= i < |x.committed| ==> x.committed[i] < |x.writers|
  {
    seq(|x.committed|, i requires 0 <= i < |x.committed| => x.writers[x.committed[i]].change)
  }

  ghost predicate Committed(x: World) {
    && (forall i :: 0 <= i < |x.committed| ==> x.committed[i] < |x.writers|)
    && (forall w: nat :: w < |x.writers| ==> (w in x.committed <==> HasSaved(x.writers[w].place)))
    && (forall i, j :: 0 <= i < j < |x.committed| ==> x.committed[i] != x.committed[j])
  }

  ghost predicate Serial(x: World, initial: seq<Tree>) {
    && Exclusive(x) && Committed(x)
    && x.ledger == ChangedBy(initial, Changes(x))
    && (forall w :: 0 <= w < |x.writers| && x.writers[w].place.Loaded? ==> x.writers[w].place.copy == x.ledger)
  }

  lemma StartKeeps(x: World, m: Move, initial: seq<Tree>)
    requires m.Start? && Serial(x, initial)
    ensures Serial(Step(x, m), initial)
  {
    var y := Step(x, m);
    assert forall i :: 0 <= i < |x.writers| ==> y.writers[i] == x.writers[i];
    assert Changes(y) == Changes(x);
    if exists i :: 0 <= i < |x.writers| && Holds(x.writers[i].place) {
      var i :| 0 <= i < |x.writers| && Holds(x.writers[i].place);
      assert Holds(y.writers[i].place);
    }
  }

  /** A step of one writer that neither saves nor takes nor gives back the guard. */
  lemma MoveKeeps(x: World, w: nat, place: Place, initial: seq<Tree>)
    requires Serial(x, initial) && w < |x.writers|
    requires Holds(place) == Holds(x.writers[w].place) && HasSaved(place) == HasSaved(x.writers[w].place)
    requires place.Loaded? ==> place.copy == x.ledger
    ensures Serial(Put(x, w, place), initial)
  {
    var y := Put(x, w, place);
    assert Changes(y) == Changes(x);
    assert forall i :: 0 <= i < |x.writers| ==> Holds(y.writers[i].place) == Holds(x.writers[i].place);
  }

  lemma TakeKeeps(x: World, w: nat, initial: seq<Tree>)
    requires Serial(x, initial) && w < |x.writers| && x.writers[w].place.Waiting? && !x.guard
    ensures Serial(Put(x.(guard := true), w, Entered), initial)
  {
    var y := Put(x.(guard := true), w, Entered);
    assert Changes(y) == Changes(x);
    assert forall i :: 0 <= i < |x.writers| ==> !Holds(x.writers[i].place);
    assert Holds(y.writers[w].place);
  }

  lemma ReleaseKeeps(x: World, w: nat, initial: seq<Tree>)
    requires Serial(x, initial) && w < |x.writers| && x.writers[w].place.Releasing?
    ensures Serial(Put(x.(guard := false), w, Finished(x.writers[w].place.saved)), initial)
  {
    var y := Put(x.(guard := false), w, Finished(x.writers[w].place.saved));
    assert Changes(y) == Changes(x);
    forall i | 0 <= i < |y.writers| ensures !Holds(y.writers[i].place) {
      if i != w {
        assert y.writers[i] == x.writers[i];
        assert Holds(x.writers[w].place);
      }
    }
  }

  lemma SaveKeeps(x: World, w: nat, initial: seq<Tree>)
    requires Serial(x, initial) && w < |x.writers| && x.writers[w].place.Loaded?
    ensures Serial(Step(x, SaveFile(w)), initial)
  {
    var y := Step(x, SaveFile(w));
    assert Changes(y) == Changes(x) + [x.writers[w].change];
    assert Changes(y)[..|Changes(y)| - 1] == Changes(x);
    SavedPlaces(x, w);
    SavedCommits(x, w);
  }

  lemma SavedPlaces(x: World, w: nat)
    requires Exclusive(x) && w < |x.writers| && x.writers[w].place.Loaded?
    ensures Exclusive(Step(x, SaveFile(w)))
    ensures var y := Step(x, SaveFile(w)); forall i :: 0 <= i < |y.writers| ==> !y.writers[i].place.Loaded?
  {
    var y := Step(x, SaveFile(w));
    assert Holds(x.writers[w].place) && Holds(y.writers[w].place);
    forall i | 0 <= i < |y.writers|
      ensures !y.writers[i].place.Loaded? && Holds(y.writers[i].place) == Holds(x.writers[i].place)
    {
      if i != w { assert y.writers[i] == x.writers[i]; }
    }
  }

  lemma SavedCommits(x: World, w: nat)
    requires Committed(x) && w < |x.writers| && x.writers[w].place.Loaded?
    ensures Committed(Step(x, SaveFile(w)))
  {
    var y := Step(x, SaveFile(w));
    assert w !in x.committed;
    assert forall v :: v in y.committed <==> v in x.committed || v == w;
  }

  lemma StepKeeps(x: World, m: Move, initial: seq<Tree>)
    requires Serial(x, initial)
    ensures Serial(Step(x, m), initial)
  {
    hide Serial;
    if m.Start? {
      StartKeeps(x, m, initial);
    } else if m.w < |x.writers| {
      var place := x.writers[m.w].place;
      GuardFree(x, m.w, initial);
      match m
      case TryGuard(w) =>
        if place.Waiting? && !x.guard {
          TakeKeeps(x, w, initial);
        } else if place.Waiting? {
          MoveKeeps(x, w, if place.left <= 1 then Finished(false) else Waiting(place.left - 1), initial);
        }
      case Load(w) => if place.Entered? { MoveKeeps(x, w, Loaded(x.ledger), initial); }
      case LoadFails(w) => if place.Entered? || place.Loaded? { MoveKeeps(x, w, Releasing(false), initial); }
      case SaveFile(w) => if place.Loaded? { SaveKeeps(x, w, initial); }
      case Release(w) => if place.Releasing? { ReleaseKeeps(x, w, initial); }
      case Die(w) =>
        if Holds(place) {
          MoveKeeps(x, w, DeadInside(if place.Releasing? || place.DeadInside? then place.saved else false), initial);
        } else if place.Waiting? {
          MoveKeeps(x, w, DeadOutside, initial);
        }
    }
  }

  /** Only a writer that holds the guard has loaded. */
  lemma GuardFree(x: World, w: nat, initial: seq<Tree>)
    requires Serial(x, initial) && w < |x.writers|
    ensures Holds(x.writers[w].place) ==> x.guard
  {}

  function Begin(initial: seq<Tree>): World {
    World(false, initial, [], [])
  }

  /**
   * No lost update: whatever the interleaving and wherever writers die, at most one is inside the guard and the stored
   * ledger is exactly the saved changes applied one after the other, each once, in the order of their saves.
   */
  lemma {:induction false} NoLostUpdate(initial: seq<Tree>, moves: seq<Move>)
    ensures Serial(Play(Begin(initial), moves), initial)
    decreases |moves|
  {
    hide Step;
    if moves == [] {
      assert ChangedBy(initial, []) == initial;
      assert Changes(Begin(initial)) == [];
    } else {
      NoLostUpdate(initial, moves[..|moves| - 1]);
      StepKeeps(Play(Begin(initial), moves[..|moves| - 1]), moves[|moves| - 1], initial);
    }
  }

  /** The last change about a tree, if there is one. */
  function LastAbout(cs: seq<Change>, tree: Tree): (r: Option)
    ensures r.Last? ==> r.change in cs && r.change.tree == tree
    ensures r.NoChange? ==> forall c :: c in cs ==> c.tree != tree
  {
    if cs == [] then NoChange else
      var n := |cs| - 1;
      assert cs == cs[..n] + [cs[n]];
      if cs[n].tree == tree then Last(cs[n]) else LastAbout(cs[..n], tree)
  }

  datatype Option = NoChange | Last(change: Change)

  /**
   * A tree is in the ledger exactly if the last change about it added it, or none did and it was there from the start.
   */
  lemma {:induction false} LedgerMembers(initial: seq<Tree>, cs: seq<Change>, tree: Tree)
    ensures tree in ChangedBy(initial, cs) <==>
            match LastAbout(cs, tree) case NoChange => tree in initial case Last(change) => change.Add?
    decreases |cs|
  {
    if cs != [] {
      LedgerMembers(initial, cs[..|cs| - 1], tree);
    }
  }

  /** A tree whose addition was saved stays in the ledger until a saved removal of it: nobody's save drops it. */
  lemma SavedAdditionStands(initial: seq<Tree>, moves: seq<Move>, w: nat)
    requires var x := Play(Begin(initial), moves);
             w < |x.writers| && HasSaved(x.writers[w].place) && x.writers[w].change.Add?
    requires var x := Play(Begin(initial), moves);
             forall v: nat :: v < |x.writers| && HasSaved(x.writers[v].place)
                 ==> x.writers[v].change != Remove(x.writers[w].change.tree)
    ensures var x := Play(Begin(initial), moves); x.writers[w].change.tree in x.ledger
  {
    hide Play;
    hide HasSaved;
    var x := Play(Begin(initial), moves);
    NoLostUpdate(initial, moves);
    var tree, cs := x.writers[w].change.tree, Changes(x);
    LedgerMembers(initial, cs, tree);
    var k :| 0 <= k < |x.committed| && x.committed[k] == w;
    assert cs[k] == Add(tree) && cs[k] in cs;
    var last := LastAbout(cs, tree);
    var i :| 0 <= i < |cs| && cs[i] == last.change;
    assert x.committed[i] in x.committed;
  }

  // ---- an undisturbed writer ----

  lemma PlayNext(x: World, moves: seq<Move>, m: Move)
    ensures Play(x, moves + [m]) == Step(Play(x, moves), m)
  {
    assert (moves + [m])[..|moves|] == moves;
  }

  /** A writer that finds the guard free and is left alone makes exactly its change and gives the guard back. */
  lemma UndisturbedWrite(x: World, w: nat)
    requires w < |x.writers| && x.writers[w].place.Waiting? && !x.guard
    ensures var y := Play(x, [TryGuard(w), Load(w), SaveFile(w), Release(w)]);
            var c := x.writers[w].change;
            && !y.guard && y.writers == x.writers[w := Writer(c, Finished(true))] && y.committed == x.committed + [w]
            && forall t :: t in y.ledger <==> if t == c.tree then c.Add? else t in x.ledger
  {
    PlayNext(x, [], TryGuard(w));
    PlayNext(x, [TryGuard(w)], Load(w));
    PlayNext(x, [TryGuard(w), Load(w)], SaveFile(w));
    PlayNext(x, [TryGuard(w), Load(w), SaveFile(w)], Release(w));
    assert [] + [TryGuard(w)] == [TryGuard(w)];
    assert [TryGuard(w)] + [Load(w)] == [TryGuard(w), Load(w)];
    assert [TryGuard(w), Load(w)] + [SaveFile(w)] == [TryGuard(w), Load(w), SaveFile(w)];
    assert [TryGuard(w), Load(w), SaveFile(w)] + [Release(w)] == [TryGuard(w), Load(w), SaveFile(w), Release(w)];
  }

  /** A writer that cannot load gives the guard back and changes nothing. */
  lemma FailedWriteBacksOut(x: World, w: nat)
    requires w < |x.writers| && x.writers[w].place.Waiting? && !x.guard
    ensures Play(x, [TryGuard(w), LoadFails(w), Release(w)]) ==
            x.(writers := x.writers[w := Writer(x.writers[w].change, Finished(false))])
  {
    var inside := Put(x.(guard := true), w, Entered);
    var leaving := Put(inside, w, Releasing(false));
    assert Step(x, TryGuard(w)) == inside && Step(inside, LoadFails(w)) == leaving;
    assert Step(leaving, Release(w)) == Put(leaving.(guard := false), w, Finished(false));
    hide Step;
    PlayNext(x, [], TryGuard(w));
    PlayNext(x, [TryGuard(w)], LoadFails(w));
    PlayNext(x, [TryGuard(w), LoadFails(w)], Release(w));
    assert [] + [TryGuard(w)] == [TryGuard(w)];
    assert [TryGuard(w)] + [LoadFails(w)] == [TryGuard(w), LoadFails(w)];
    assert [TryGuard(w), LoadFails(w)] + [Release(w)] == [TryGuard(w), LoadFails(w), Release(w)];
  }

  // ---- one writer's countdown ----

  /** Whether another writer holds the guard at a try; after the list it is free. */
  predicate Busy(others: seq<bool>, k: nat) {
    k < |others| && others[k]
  }

  /** Tries to create the guard, at least once, until it is free or the attempts are used up. */
  method TakeGuard(attempts: int, others: seq<bool>) returns (taken: bool, tries: nat)
    ensures taken ==> !Busy(others, tries)
    ensures forall k: nat :: k < tries ==> Busy(others, k)
    ensures !taken ==> tries == if attempts > 1 then attempts else 1
  {
    var remaining := if attempts > 1 then attempts else 1;
    tries := 0;
    while true
      invariant remaining >= 1 && remaining + tries == if attempts > 1 then attempts else 1
      invariant forall k: nat :: k < tries ==> Busy(others, k)
      decreases remaining
    {
      if !Busy(others, tries) {
        return true, tries;
      }
      remaining := remaining - 1;
      tries := tries + 1;
      if remaining == 0 {
        return false, tries;
      }
    }
  }
}
