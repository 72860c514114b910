/** Whole checkpoints saved without the guard: what becomes of the tree changes that were saved in between. */
module UnguardedSaves {
  import opened GuardedLedger

  datatype Copy = NoCopy | Copied(ledger: seq<Tree>)

  /** The guarded world, and the checkpoint that an engine step has loaded and will save as it is. */
  datatype Mixed = Mixed(world: World, copy: Copy)

  datatype Act = Guarded(move: Move) | LoadAll | SaveAll

  function Acted(y: Mixed, a: Act): Mixed {
    match a
    case Guarded(move) => y.(world := Step(y.world, move))
    case LoadAll => y.(copy := Copied(y.world.ledger))
    case SaveAll => if y.copy.NoCopy? then y else Mixed(y.world.(ledger := y.copy.ledger), NoCopy)
  }

  function PlayMixed(initial: seq<Tree>, acts: seq<Act>): Mixed {
    if acts == [] then Mixed(Begin(initial), NoCopy)
        else Acted(PlayMixed(initial, acts[..|acts| - 1]), acts[|acts| - 1])
  }

  /** No saved change is lost: the ledger is all of them, in the order of their saves. */
  ghost predicate NothingLost(x: World, initial: seq<Tree>) {
    Committed(x) && x.ledger == ChangedBy(initial, Changes(x))
  }

  /** The k-th act saves nothing older than what is stored. */
  ghost predicate Fresh(initial: seq<Tree>, acts: seq<Act>, k: nat)
    requires k < |acts|
  {
    var y := PlayMixed(initial, acts[..k]);
    acts[k].SaveAll? && y.copy.Copied? ==> y.copy.ledger == y.world.ledger
  }

  lemma FreshSaveKeeps(y: Mixed, initial: seq<Tree>)
    requires Serial(y.world, initial) && (y.copy.Copied? ==> y.copy.ledger == y.world.ledger)
    ensures Acted(y, SaveAll).world == y.world
  {}

  lemma StaleSaveLoses(y: Mixed, initial: seq<Tree>)
    requires Serial(y.world, initial) && y.copy.Copied? && y.copy.ledger != y.world.ledger
    ensures !NothingLost(Acted(y, SaveAll).world, initial)
  {
    assert Changes(Acted(y, SaveAll).world) == Changes(y.world);
  }

  /** As long as every save was fresh, the guarantee of the guard holds for the whole history. */
  lemma {:induction false} FreshKeepsSerial(initial: seq<Tree>, acts: seq<Act>, n: nat)
    requires n <= |acts| && forall k :: 0 <= k < n ==> Fresh(initial, acts, k)
    ensures Serial(PlayMixed(initial, acts[..n]).world, initial)
  {
    hide Serial;
    hide Step;
    if n == 0 {
      assert Serial(Begin(initial), initial) by { NoLostUpdate(initial, []); }
    } else {
      FreshKeepsSerial(initial, acts, n - 1);
      assert acts[..n][..n - 1] == acts[..n - 1];
      assert Fresh(initial, acts, n - 1);
      var y := PlayMixed(initial, acts[..n - 1]);
      match acts[n - 1]
      case Guarded(move) => StepKeeps(y.world, move, initial);
      case LoadAll =>
      case SaveAll => FreshSaveKeeps(y, initial);
    }
  }

  lemma SerialLosesNothing(x: World, initial: seq<Tree>)
    requires Serial(x, initial)
    ensures NothingLost(x, initial)
  {}

  /**
   * In any interleaving of guarded writers with unguarded loads and saves, no saved change is ever lost exactly if
   * every unguarded save finds the ledger as it was loaded.
   */
  lemma NothingLostIffFresh(initial: seq<Tree>, acts: seq<Act>)
    ensures (forall n :: 0 <= n <= |acts| ==> NothingLost(PlayMixed(initial, acts[..n]).world, initial))
       <==> (forall k :: 0 <= k < |acts| ==> Fresh(initial, acts, k))
  {
    hide Serial;
    hide NothingLost;
    hide Fresh;
    if forall k :: 0 <= k < |acts| ==> Fresh(initial, acts, k) {
      forall n | 0 <= n <= |acts| ensures NothingLost(PlayMixed(initial, acts[..n]).world, initial) {
        FreshKeepsSerial(initial, acts, n);
        SerialLosesNothing(PlayMixed(initial, acts[..n]).world, initial);
      }
    } else {
      var k := FirstStale(initial, acts, 0);
      StaleAt(initial, acts, k);
    }
  }

  lemma {:induction false} FirstStale(initial: seq<Tree>, acts: seq<Act>, from: nat) returns (k: nat)
    requires from <= |acts| && (forall j :: 0 <= j < from ==> Fresh(initial, acts, j))
    requires exists j :: 0 <= j < |acts| && !Fresh(initial, acts, j)
    ensures k < |acts| && !Fresh(initial, acts, k) && forall j :: 0 <= j < k ==> Fresh(initial, acts, j)
    decreases |acts| - from
  {
    hide Fresh;
    if !Fresh(initial, acts, from) {
      k := from;
    } else {
      k := FirstStale(initial, acts, from + 1);
    }
  }

  lemma StaleAt(initial: seq<Tree>, acts: seq<Act>, k: nat)
    requires k < |acts| && !Fresh(initial, acts, k) && forall j :: 0 <= j < k ==> Fresh(initial, acts, j)
    ensures !NothingLost(PlayMixed(initial, acts[..k + 1]).world, initial)
  {
    hide Serial;
    hide NothingLost;
    FreshKeepsSerial(initial, acts, k);
    assert acts[..k + 1][..k] == acts[..k];
    StaleSaveLoses(PlayMixed(initial, acts[..k]), initial);
  }

  lemma PlayNext(initial: seq<Tree>, acts: seq<Act>, a: Act)
    ensures PlayMixed(initial, acts + [a]) == Acted(PlayMixed(initial, acts), a)
  {
    assert (acts + [a])[..|acts|] == acts;
  }

  /** The shortest loss: loaded, then a tree registered under the guard, then saved, and the tree is forgotten. */
  lemma AdditionLost(tree: Tree) returns (acts: seq<Act>)
    ensures var y := PlayMixed([], acts);
            && |y.world.writers| == 1 && y.world.writers[0] == Writer(Add(tree), Finished(true))
                && tree !in y.world.ledger
  {
    hide PlayMixed;
    assert PlayMixed([], []) == Mixed(Begin([]), NoCopy) by { PlayNothing(); }
    acts := [];
    var steps := [LoadAll, Guarded(Start(Add(tree), 1)), Guarded(TryGuard(0)), Guarded(Load(0)), Guarded(SaveFile(0)),
                  Guarded(Release(0)), SaveAll];
    var writer := Writer(Add(tree), Waiting(1));
    for i := 0 to |steps|
      invariant acts == steps[..i]
      invariant var y := PlayMixed([], acts);
        y == if i == 0 then Mixed(Begin([]), NoCopy)
             else if i == 1 then Mixed(Begin([]), Copied([]))
             else if i == 2 then Mixed(World(false, [], [writer], []), Copied([]))
             else if i == 3 then Mixed(World(true, [], [writer.(place := Entered)], []), Copied([]))
             else if i == 4 then Mixed(World(true, [], [writer.(place := Loaded([]))], []), Copied([]))
             else if i == 5 then Mixed(World(true, [tree], [writer.(place := Releasing(true))], [0]), Copied([]))
             else if i == 6 then Mixed(World(false, [tree], [writer.(place := Finished(true))], [0]), Copied([]))
             else Mixed(World(false, [], [writer.(place := Finished(true))], [0]), NoCopy)
    {
      PlayNext([], acts, steps[i]);
      assert steps[..i + 1] == steps[..i] + [steps[i]];
      acts := acts + [steps[i]];
    }
  }

  lemma PlayNothing()
    ensures PlayMixed([], []) == Mixed(Begin([]), NoCopy)
  {}
}
