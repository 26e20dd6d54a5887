/** The cache that limits how often progress events of one task are written to the store. */
module Debounce {
  import opened Prelude

  /** One call of shouldPersist: the clock is read for the test and again for the record. */
  datatype Check = Check(taskID: Text, tested: Time, stored: Time)

  /** The call is allowed when the task was never written, or at least cooldown ago. */
  predicate Allowed(last: map<Text, Time>, c: Check, cooldown: Time)
  {
    c.taskID in last ==> c.tested - last[c.taskID] >= cooldown
  }

  class ProgressCache {
    var last: map<Text, Time>

    constructor ()
      ensures last == map[]
    {
      last := map[];
    }

    method ShouldPersist(c: Check, cooldown: Time) returns (persist: bool)
      modifies this
      ensures persist == Allowed(old(last), c, cooldown)
      ensures last == if persist then old(last)[c.taskID := c.stored] else old(last)
    {
      if c.taskID !in last || c.tested - last[c.taskID] >= cooldown {
        last := last[c.taskID := c.stored];
        return true;
      }
      return false;
    }
  }

  // ---------------------------------------------------------------- runs of calls

  function LastAfter(calls: seq<Check>, cooldown: Time): map<Text, Time>
  {
    if calls == [] then map[]
    else
      var last := LastAfter(Front(calls), cooldown);
      if Allowed(last, Last(calls), cooldown) then last[Last(calls).taskID := Last(calls).stored] else last
  }

  /** The times of the writes of one task, in order. */
  function Writes(calls: seq<Check>, cooldown: Time, id: Text): seq<Time>
  {
    if calls == [] then []
    else
      var w := Writes(Front(calls), cooldown, id);
      if Last(calls).taskID == id && Allowed(LastAfter(Front(calls), cooldown), Last(calls), cooldown)
      then w + [Last(calls).stored] else w
  }

  /** The clock never goes back, within a call and from call to call. */
  predicate ClockMovesOn(calls: seq<Check>)
  {
    && (forall i :: 0 <= i < |calls| ==> calls[i].tested <= calls[i].stored)
    && (forall i, j :: 0 <= i < j < |calls| ==> calls[i].stored <= calls[j].tested)
  }

  lemma {:induction false} LastWrite(calls: seq<Check>, cooldown: Time, id: Text)
    ensures id in LastAfter(calls, cooldown) <==> Writes(calls, cooldown, id) != []
    ensures id in LastAfter(calls, cooldown) ==>
      LastAfter(calls, cooldown)[id] == Last(Writes(calls, cooldown, id))
  {
    if calls != [] {
      LastWrite(Front(calls), cooldown, id);
    }
  }

  predicate Spaced(w: seq<Time>, gap: Time)
  {
    forall i :: 0 <= i < |w| - 1 ==> w[i + 1] - w[i] >= gap
  }

  /** Consecutive writes of one task are at least the cooldown apart. */
  lemma {:induction false} WritesSpaced(calls: seq<Check>, cooldown: Time, id: Text)
    requires ClockMovesOn(calls)
    ensures Spaced(Writes(calls, cooldown, id), cooldown)
  {
    if calls != [] {
      WritesSpaced(Front(calls), cooldown, id);
      LastWrite(Front(calls), cooldown, id);
      assert Last(calls) == calls[|calls| - 1];
      assert Last(calls).tested <= Last(calls).stored;
    }
  }

  lemma {:induction false} SpacedApart(w: seq<Time>, gap: Time, i: nat, j: nat)
    requires Spaced(w, gap) && i <= j < |w|
    ensures w[j] - w[i] >= (j - i) * gap
    decreases j
  {
    if i < j {
      SpacedApart(w, gap, i, j - 1);
      assert w[j - 1 + 1] - w[j - 1] >= gap;
      assert (j - i) * gap == (j - 1 - i) * gap + gap;
    }
  }

  /** How many of the times lie in the window from a to b. */
  function CountIn(w: seq<Time>, a: Time, b: Time): nat
  {
    if w == [] then 0 else CountIn(Front(w), a, b) + if a <= Last(w) <= b then 1 else 0
  }

  /** A window with some of the times in it reaches from its start to the last of them. */
  lemma {:induction false} CountReaches(w: seq<Time>, gap: Time, a: Time, b: Time) returns (last: nat)
    requires Spaced(w, gap) && gap > 0 && CountIn(w, a, b) > 0
    ensures last < |w| && a <= w[last] <= b
    ensures (CountIn(w, a, b) - 1) * gap <= w[last] - a
  {
    if !(a <= Last(w) <= b) {
      last := CountReaches(Front(w), gap, a, b);
    } else if CountIn(Front(w), a, b) == 0 {
      last := |w| - 1;
    } else {
      var before := CountReaches(Front(w), gap, a, b);
      last := |w| - 1;
      LaterByGap(w, gap, before, last);
      OneMore(CountIn(Front(w), a, b), gap, w[before] - a, w[last] - w[before]);
    }
  }

  lemma LaterByGap(w: seq<Time>, gap: Time, i: nat, j: nat)
    requires Spaced(w, gap) && i < j < |w| && gap > 0
    ensures w[j] - w[i] >= gap
  {
    SpacedApart(w, gap, i, j);
    AtLeastOnce(j - i, gap);
  }

  lemma AtLeastOnce(n: nat, gap: Time)
    requires n > 0 && gap > 0
    ensures n * gap >= gap
  {
  }

  lemma OneMore(n: nat, gap: Time, x: Time, y: Time)
    requires n > 0 && (n - 1) * gap <= x && gap <= y
    ensures n * gap <= x + y
  {
    assert n * gap == (n - 1) * gap + gap;
  }

  /** A window of the given length holds at most length / cooldown + 1 writes of one task. */
  lemma WindowBound(calls: seq<Check>, cooldown: Time, id: Text, start: Time, length: Time)
    requires ClockMovesOn(calls) && cooldown > 0 && length >= 0
    ensures CountIn(Writes(calls, cooldown, id), start, start + length) <= length / cooldown + 1
  {
    var w := Writes(calls, cooldown, id);
    WritesSpaced(calls, cooldown, id);
    var n := CountIn(w, start, start + length);
    if n > 0 {
      var last := CountReaches(w, cooldown, start, start + length);
      AtMostQuotient(n - 1, cooldown, length);
    } else {
      AtMostQuotient(0, cooldown, length);
    }
  }

  lemma AtMostQuotient(n: nat, d: int, length: int)
    requires d > 0 && n * d <= length
    ensures n <= length / d
  {
    assert length < (length / d + 1) * d;
    if n >= length / d + 1 {
      LargerProduct(n, length / d + 1, d);
    }
  }

  lemma LargerProduct(m: int, n: int, d: int)
    requires m >= n && d > 0
    ensures m * d >= n * d
  {
  }

  /** The calls for one task only. */
  function Of(calls: seq<Check>, id: Text): seq<Check>
  {
    if calls == [] then []
    else if Last(calls).taskID == id then Of(Front(calls), id) + [Last(calls)]
    else Of(Front(calls), id)
  }

  /** What happens to one task does not depend on the calls for other tasks. */
  lemma {:induction false} TasksIndependent(calls: seq<Check>, cooldown: Time, id: Text)
    ensures Writes(calls, cooldown, id) == Writes(Of(calls, id), cooldown, id)
  {
    if calls != [] {
      TasksIndependent(Front(calls), cooldown, id);
      if Last(calls).taskID == id {
        assert Front(Of(calls, id)) == Of(Front(calls), id);
        LastWrite(Front(calls), cooldown, id);
        LastWrite(Of(Front(calls), id), cooldown, id);
      }
    }
  }

  lemma LatestIsLast(w: seq<Time>, gap: Time)
    requires Spaced(w, gap) && gap > 0
    ensures forall i :: 0 <= i < |w| ==> w[i] <= Last(w)
  {
    forall i | 0 <= i < |w|
      ensures w[i] <= Last(w)
    {
      Rising(w, gap, i, |w| - 1);
    }
  }

  lemma {:induction false} Rising(w: seq<Time>, gap: Time, i: nat, j: nat)
    requires Spaced(w, gap) && gap > 0 && i <= j < |w|
    ensures w[i] <= w[j]
    decreases j
  {
    if i < j {
      Rising(w, gap, i, j - 1);
      assert w[j - 1 + 1] - w[j - 1] >= gap;
    }
  }

  /** A call is written exactly when no earlier write of its task is less than the cooldown
      ago: a call at or past the cooldown is never refused. */
  lemma NeverRefusedLate(calls: seq<Check>, c: Check, cooldown: Time)
    requires ClockMovesOn(calls) && cooldown > 0
    ensures
      var w := Writes(calls, cooldown, c.taskID);
      Writes(calls + [c], cooldown, c.taskID)
        == if forall i :: 0 <= i < |w| ==> c.tested - w[i] >= cooldown then w + [c.stored] else w
  {
    assert Front(calls + [c]) == calls;
    LastWrite(calls, cooldown, c.taskID);
    WritesSpaced(calls, cooldown, c.taskID);
    LatestIsLast(Writes(calls, cooldown, c.taskID), cooldown);
  }
}
