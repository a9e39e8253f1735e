/** What the calls on an event group answer, and whom they release, bit by bit. */
module EventAnswers {
  import opened Common
  import opened Lists
  import opened EventGroups

  /** Setting bits takes a task that waits for all its bits off the list exactly when each of
      them was set or is being set, and one that waits for any when one of them is. */
  lemma SetReleasesByBits(g: Group, b: set<Bit>, t: TaskId)
    requires Valid(g) && t in g.waiting
    ensures g.item[t].wait.all ==>
              (t in SetBits(g, b).waiting <==> exists bit :: bit in g.item[t].wait.mask && bit !in g.bits && bit !in b)
    ensures !g.item[t].wait.all ==>
              (t in SetBits(g, b).waiting <==>
               forall bit :: bit in g.item[t].wait.mask ==> bit !in g.bits && bit !in b)
  {
    SetBitsReleasesExactly(g, b);
    SatisfiedIs(g.bits + b, g.item[t].wait);
  }

  /** A wait for all bits blocks, if it may, exactly when one of them is missing, a wait for
      any when all are.  Otherwise it returns the bits as it found them, before any it was
      asked to clear are cleared, which happens only if the condition was met. */
  lemma WaitAnswers(g: Group, t: TaskId, w: Wait, mayBlock: bool)
    ensures var (r, result), missing := WaitBits(g, t, w, mayBlock), Lacks(g.bits, w);
            && (result.Blocks? <==> missing && mayBlock)
            && (if result.Blocks? then r == Group(g.bits, g.waiting + [t], g.item[t := Waiting(w)])
                else result.bits == g.bits && r == g.(bits := r.bits))
            && forall bit :: bit in r.bits <==> bit in g.bits && !(!missing && w.clear && bit in w.mask)
  {
    SatisfiedIs(g.bits, w);
  }

  /** A rendezvous returns with the bits before clearing if all it waits for are set, its own
      included, and clears them; if not it blocks, or returns with the bits left after others
      have been released. */
  lemma SyncAnswers(g: Group, t: TaskId, b: set<Bit>, mask: set<Bit>, mayBlock: bool)
    requires Valid(g)
    ensures var (r, result), missing := Sync(g, t, b, mask, mayBlock), exists bit :: bit in mask && bit !in g.bits + b;
            && (result.Blocks? <==> missing && mayBlock)
            && (result.Value? ==> result.bits == if missing then r.bits else g.bits + b)
            && (forall bit :: bit in r.bits <==> bit in SetBits(g, b).bits && !(!missing && bit in mask))
            && (forall u :: u != t && u in g.waiting ==> (u in r.waiting <==> Lacks(g.bits + b, g.item[u].wait)))
            && (result.Blocks? ==>
                  r.waiting == SetBits(g, b).waiting + [t] && r.item[t] == Waiting(Wait(mask, true, true)))
  {
    SetBitsReleasesExactly(g, b);
    forall u | u != t && u in g.waiting ensures u in SetBits(g, b).waiting <==> Lacks(g.bits + b, g.item[u].wait) {
      SatisfiedIs(g.bits + b, g.item[u].wait);
    }
  }

  /** A released task returns the bits it was handed and clears nothing more; one whose time
      is over returns the bits as it finds them, and clears those it was asked to only if its
      condition has been met by then. */
  lemma FinishAnswers(g: Group, t: TaskId)
    requires t in g.item
    ensures var (r, result) := Finish(g, t);
            && r == g.(bits := r.bits)
            && match g.item[t]
               case Released(handed) => result == handed && r == g
               case Waiting(w) =>
                 && result == g.bits
                 && forall bit :: bit in r.bits <==> bit in g.bits && !(!Lacks(g.bits, w) && w.clear && bit in w.mask)
  {
    match g.item[t]
    case Released(_) =>
    case Waiting(w) => SatisfiedIs(g.bits, w);
  }

  /** A task whose block time is over leaves the list, the others keep their order, and it can
      return with the bits as they then are. */
  lemma TimedOutCanReturn(s: Sys, t: TaskId)
    requires Inv(s) && Enabled(s, Expire(t))
    ensures var r := Next(s, Expire(t));
            && r.group == s.group.(waiting := Remove(s.group.waiting, t)) && t !in r.group.waiting
            && Inv(r) && Enabled(r, Return(t)) && Finish(r.group, t).1 == s.group.bits
  {
    StepKeepsInv(s, Expire(t));
    RemoveFacts(s.group.waiting, t);
    assert t in s.group.waiting && s.group.item[t].Waiting?;
  }
}
