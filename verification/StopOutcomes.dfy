/** How far one halt or emergency stop gets: up to the first tree that does not die, and what it saves there. */
module StopOutcomes {
  import opened Vocabulary
  import opened MachineStates
  import opened Machine
  import opened Readiness
  import opened Invariant
  import opened CheckpointCodec
  import opened Stopping
  import SubmitOnce

  /** The first k trees die, and the next one, if there is one, does not simply die. */
  predicate StopsAt(k: nat, count: nat, replies: seq<StopReply>) {
    && k <= count
    && (forall j: nat :: j < k && j < |replies| ==> replies[j].Dead?)
    && (k < count ==> k < |replies| && !replies[k].Dead?)
  }

  lemma {:induction false} StopTreesExactly(refs: seq<Tree>, live: set<Tree>, replies: seq<StopReply>, k: nat)
    requires StopsAt(k, |refs|, replies)
    ensures var (left, run) := StopTrees(refs, live, replies);
            && run == (if k == |refs| then AllStopped else if replies[k].Raised? then FailedAt(refs[k..]) else Crashed)
            && (forall t :: t in left <==>
                  t in live && t !in refs[..k] && !(k < |refs| && t == refs[k] && replies[k].died))
  {
    if refs != [] && k > 0 {
      var rest := if replies == [] then [] else replies[1..];
      assert forall j: nat :: j < k - 1 && j < |rest| ==> rest[j] == replies[j + 1];
      StopTreesExactly(refs[1..], live - {refs[0]}, rest, k - 1);
      assert refs[..k] == [refs[0]] + refs[1..][..k - 1];
      assert refs[1..][k - 1..] == refs[k..];
    }
  }

  /** Every attempt stops somewhere. */
  lemma {:induction false} StopsSomewhere(count: nat, replies: seq<StopReply>) returns (k: nat)
    ensures StopsAt(k, count, replies)
  {
    k := 0;
    while k < count && (k >= |replies| || replies[k].Dead?)
      invariant k <= count
      invariant forall j: nat :: j < k && j < |replies| ==> replies[j].Dead?
    {
      k := k + 1;
    }
  }

  /**
   * A halt completes exactly if every tree dies and the process lives to save it; at a tree that cannot be stopped it
   * keeps that tree and all later ones in the ledger; a crash leaves the ledger as it was.
   */
  lemma HaltExactly(p: Plant, weather: Weather, k: nat)
    requires Halting(p) && StopsAt(k, |p.ledger|, weather.replies)
    ensures var (q, out) := Halted(p, weather);
            var all := k == |p.ledger|;
            && (out == Completed <==> all && weather.survives)
            && (out == StopFailed <==> !all && weather.replies[k].Raised? && weather.survives)
            && q.ledger == (if out == Completed then [] else if out == StopFailed then p.ledger[k..] else p.ledger)
            && (forall t :: t in q.live <==>
                  t in p.live && t !in p.ledger[..k] && !(!all && t == p.ledger[k] && weather.replies[k].died))
  {
    hide Inv;
    hide Transition;
    hide Storable;
    HaltTransitions(p.machine);
    HaltNextStorable(p.machine);
    StopTreesExactly(p.ledger, p.live, weather.replies, k);
    hide StopTrees;
  }

  /** The same for an emergency stop, which keeps its whole ledger until every tree is dead. */
  lemma EmergencyExactly(p: Plant, weather: Weather, k: nat)
    requires StopWanted(p) && StopsAt(k, |p.ledger|, weather.replies)
    ensures var (q, out) := EmergencyStopped(p, weather);
            var all := k == |p.ledger|;
            var merging := NormalIn(p.machine, Merging);
            && (out == Completed <==> !merging && all && weather.survives)
            && (out == StopFailed <==> !merging && !all && weather.replies[k].Raised?)
            && q.ledger == (if out == Completed then [] else p.ledger)
            && (merging ==> q == p)
            && (!merging ==> forall t :: t in q.live <==>
                  t in p.live && t !in p.ledger[..k] && !(!all && t == p.ledger[k] && weather.replies[k].died))
  {
    hide Inv;
    hide Transition;
    hide Storable;
    EmergencyRefusedOnlyInMerging(p.machine, p.request.value);
    hide EmergencyNext;
    CancelledStorable();
    StopTreesExactly(p.ledger, p.live, weather.replies, k);
    hide StopTrees;
  }

  /** A request is recorded once, is demanded from then on, and changes nothing else. */
  lemma RequestIsDemanded(p: Plant, evidence: Ref, around: SubmitOnce.Surroundings)
    ensures var q := Requested(p, evidence);
            && Demand(q, around) == Some(SubmitOnce.EmergencyStopRequired)
            && q == p.(request := q.request)
            && q.request == (if p.request.None? then Some(evidence) else p.request)
  {}
}
