/** Workflow states as task handlers use them: which states a task may take, and the rule
    that keeps a task's `completedAt` in step with the finality of its state. */
module Workflow {
  import opened Records

  /** `State.findOne({ _id, type: 'Task', isActive: true })` finds this state. */
  predicate UsableForTasks(s: State) {
    s.kind == TaskKind && s.isActive
  }

  /** The value of `completedAt` after a task with `prior` moves to a state whose
      `isFinal` flag is `isFinal`, at time `now`. */
  function CompletionAfter(isFinal: bool, prior: Option<Time>, now: Time): (r: Option<Time>)
    ensures r.Some? <==> isFinal
    ensures isFinal && prior.Some? ==> r == prior
    ensures isFinal && prior.None? ==> r == Some(now)
  {
    if isFinal then (if prior.None? then Some(now) else prior) else None
  }

  /** A task's completion timestamp agrees with the state it is in. */
  ghost predicate InSync(t: Task, states: map<Id, State>) {
    t.status in states ==> (t.completedAt.Some? <==> states[t.status].isFinal)
  }

  /** Applying the same final state twice keeps the timestamp of the first application. */
  lemma FinalTwiceKeepsFirstStamp(prior: Option<Time>, first: Time, second: Time)
    ensures CompletionAfter(true, CompletionAfter(true, prior, first), second)
         == CompletionAfter(true, prior, first)
  {
  }

  /** A final state stamps `now` only when there was no stamp; a non-final state clears
      the stamp; nothing else changes it. */
  lemma StampChangesOnlyOnCrossing(isFinal: bool, prior: Option<Time>, now: Time)
    ensures CompletionAfter(isFinal, prior, now) != prior <==>
            (isFinal && prior.None?) || (!isFinal && prior.Some?)
  {
  }

  /** Leaving a final state and coming back stamps the new time: the first completion
      time is not remembered. */
  lemma ReopenedTaskGetsNewStamp(prior: Option<Time>, t1: Time, t2: Time, t3: Time)
    ensures CompletionAfter(true, CompletionAfter(false, CompletionAfter(true, prior, t1), t2), t3)
         == Some(t3)
  {
  }
}
