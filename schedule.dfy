/** The per-user collection plan that advances the data id after each
    completed recording, and the manual back control. */
module Schedule {
  import opened Distances

  /** Where the sequencer stands: the spoof switch, the distance spinner and
      the numeric data id */
  datatype Progress = Progress(spoof: bool, dist: DistIndex, dataId: nat)

  /** One stage of the plan: a switch/spinner setting and the data id it
      runs up to before the next stage starts */
  datatype Stage = Stage(spoof: bool, dist: DistIndex, quota: nat)

  /** Users from this id on are outside the plan: only their data id moves */
  const FirstExemptUser: int := 101

  /** Genuine speech at 25cm, 50cm, 100cm and 300cm, then its replay at
      25cm, 100cm and 300cm, then genuine at 25cm again */
  const Plan: seq<Stage> := [
    Stage(false, 0, 20), Stage(false, 1, 10), Stage(false, 2, 10), Stage(false, 3, 10),
    Stage(true, 0, 50), Stage(true, 2, 50), Stage(true, 3, 50)
  ]

  predicate IsStageOf(k: nat, spoof: bool, dist: DistIndex)
    requires k < |Plan|
  {
    Plan[k].spoof == spoof && Plan[k].dist == dist
  }

  /** The stage of a setting, |Plan| for the one setting the plan never uses
      (spoof at 50cm) */
  function StageOf(spoof: bool, dist: DistIndex): (k: nat)
    ensures k <= |Plan|
    ensures k < |Plan| ==> IsStageOf(k, spoof, dist)
    ensures k == |Plan| ==> forall j :: 0 <= j < |Plan| ==> !IsStageOf(j, spoof, dist)
  {
    if !spoof then dist
    else if dist == 0 then 4
    else if dist == 1 then |Plan|
    else dist + 3
  }

  /** What one completed recording does: the data id goes up by one; for a
      user inside the plan whose stage is used up, the id restarts at 1 in
      the next stage of the cycle */
  function Step(p: Progress, userId: int): (q: Progress)
    ensures q.dataId == p.dataId + 1 || q.dataId == 1
    ensures userId >= FirstExemptUser ==> q == p.(dataId := p.dataId + 1)
  {
    var next := p.dataId + 1;
    if userId >= FirstExemptUser then p.(dataId := next)
    else
      var k := StageOf(p.spoof, p.dist);
      if k < |Plan| && next > Plan[k].quota then
        var s := Plan[(k + 1) % |Plan|];
        Progress(s.spoof, s.dist, 1)
      else p.(dataId := next)
  }

  /** `n` completed recordings */
  function Iterate(p: Progress, userId: int, n: nat): Progress
    decreases n
  {
    if n == 0 then p else Iterate(Step(p, userId), userId, n - 1)
  }

  // ---------------------------------------------------------------------------
  // The plan as one cycle of 200 samples

  /** Number of samples in the stages before stage `k` */
  function Offset(k: nat): nat
    requires k <= |Plan|
  {
    if k == 0 then 0 else Offset(k - 1) + Plan[k - 1].quota
  }

  /** Samples per user: 20 + 10 + 10 + 10 genuine and 3 * 50 replayed */
  const CycleLength: nat := 200

  lemma OffsetValues()
    ensures Offset(0) == 0 && Offset(1) == 20 && Offset(2) == 30 && Offset(3) == 40
    ensures Offset(4) == 50 && Offset(5) == 100 && Offset(6) == 150
    ensures Offset(7) == CycleLength
  {
  }

  /** No two stages share a setting */
  lemma StagesDistinct(k: nat)
    requires k < |Plan|
    ensures StageOf(Plan[k].spoof, Plan[k].dist) == k
  {
  }

  /** A position inside the plan: a setting the plan uses and an id within its quota */
  predicate OnPlan(p: Progress) {
    var k := StageOf(p.spoof, p.dist);
    k < |Plan| && 1 <= p.dataId <= Plan[k].quota
  }

  /** How many samples of the cycle come before `p` */
  function Pos(p: Progress): (n: nat)
    requires OnPlan(p)
    ensures n < CycleLength
  {
    var k := StageOf(p.spoof, p.dist);
    OffsetValues();
    Offset(k) + p.dataId - 1
  }

  /** The stage holding sample `n` of the cycle, searching from stage `k` */
  function StageAt(n: nat, k: nat): (j: nat)
    requires k < |Plan| && Offset(k) <= n < CycleLength
    ensures k <= j < |Plan| && Offset(j) <= n < Offset(j + 1)
    decreases |Plan| - k
  {
    OffsetValues();
    if n < Offset(k + 1) then k else StageAt(n, k + 1)
  }

  /** Sample `n` of the cycle */
  function At(n: nat): (p: Progress)
    requires n < CycleLength
    ensures OnPlan(p) && Pos(p) == n
  {
    var k := StageAt(n, 0);
    var p := Progress(Plan[k].spoof, Plan[k].dist, n - Offset(k) + 1);
    StagesDistinct(k);
    assert Offset(k + 1) == Offset(k) + Plan[k].quota;
    p
  }

  /** Every position inside the plan is one sample of the cycle */
  lemma AtPos(p: Progress)
    requires OnPlan(p)
    ensures At(Pos(p)) == p
  {
    OffsetValues();
  }

  /** One recording inside the plan moves one sample along the cycle, and
      from the last sample back to the first */
  lemma StepPos(p: Progress, userId: int)
    requires userId < FirstExemptUser && OnPlan(p)
    ensures OnPlan(Step(p, userId))
    ensures Pos(Step(p, userId)) == if Pos(p) + 1 == CycleLength then 0 else Pos(p) + 1
  {
    var k := StageOf(p.spoof, p.dist);
    if p.dataId < Plan[k].quota {
      StepWithinStage(p, userId, k);
    } else {
      StepToNextStage(p, userId, k);
    }
  }

  lemma StepWithinStage(p: Progress, userId: int, k: nat)
    requires userId < FirstExemptUser && OnPlan(p) && k == StageOf(p.spoof, p.dist)
    requires p.dataId < Plan[k].quota
    ensures OnPlan(Step(p, userId)) && Pos(Step(p, userId)) == Pos(p) + 1
    ensures Pos(p) + 1 < CycleLength
  {
    assert Step(p, userId) == p.(dataId := p.dataId + 1);
    assert Offset(k + 1) == Offset(k) + Plan[k].quota;
    OffsetValues();
  }

  lemma StepToNextStage(p: Progress, userId: int, k: nat)
    requires userId < FirstExemptUser && OnPlan(p) && k == StageOf(p.spoof, p.dist)
    requires p.dataId == Plan[k].quota
    ensures OnPlan(Step(p, userId))
    ensures Pos(Step(p, userId)) == if Pos(p) + 1 == CycleLength then 0 else Pos(p) + 1
  {
    var k' := (k + 1) % |Plan|;
    assert Step(p, userId) == Progress(Plan[k'].spoof, Plan[k'].dist, 1);
    StagesDistinct(k');
    assert Pos(Step(p, userId)) == Offset(k');
    assert Pos(p) + 1 == Offset(k + 1);
    OffsetValues();
  }

  lemma {:induction false} IterateAdd(p: Progress, userId: int, m: nat, n: nat)
    ensures Iterate(p, userId, m + n) == Iterate(Iterate(p, userId, m), userId, n)
    decreases m
  {
    if m > 0 {
      IterateAdd(Step(p, userId), userId, m - 1, n);
    }
  }

  /** Recordings that stay within the cycle move as many samples along it */
  lemma {:induction false} IterateWithinCycle(p: Progress, userId: int, n: nat)
    requires userId < FirstExemptUser && OnPlan(p) && Pos(p) + n < CycleLength
    ensures OnPlan(Iterate(p, userId, n)) && Pos(Iterate(p, userId, n)) == Pos(p) + n
    decreases n
  {
    if n > 0 {
      StepPos(p, userId);
      IterateWithinCycle(Step(p, userId), userId, n - 1);
    }
  }

  /** The first sample of the plan: genuine, 25cm, data id 1 */
  const Start: Progress := Progress(false, 0, 1)

  lemma StartIsFirst()
    ensures OnPlan(Start) && Pos(Start) == 0 && At(0) == Start
  {
    StagesDistinct(0);
    AtPos(Start);
  }

  /** The recordings that finish the cycle lead back to its first sample */
  lemma {:induction false} IterateToEnd(p: Progress, userId: int, n: nat)
    requires userId < FirstExemptUser && OnPlan(p) && Pos(p) + n == CycleLength
    ensures Iterate(p, userId, n) == Start
    decreases n
  {
    StepPos(p, userId);
    var q := Step(p, userId);
    if n == 1 {
      StartIsFirst();
      AtPos(q);
    } else {
      IterateToEnd(q, userId, n - 1);
    }
  }

  /** A full cycle of recordings inside the plan comes back to where it started */
  lemma CycleReturns(p: Progress, userId: int)
    requires userId < FirstExemptUser && OnPlan(p)
    ensures Iterate(p, userId, CycleLength) == p
  {
    var i := Pos(p);
    var m := CycleLength - i;
    IterateAdd(p, userId, m, i);
    assert m + i == CycleLength;
    IterateToEnd(p, userId, m);
    var w := Iterate(Start, userId, i);
    assert Iterate(p, userId, CycleLength) == w;
    StartIsFirst();
    IterateWithinCycle(Start, userId, i);
    assert Pos(w) == i;
    AtPos(w);
    assert At(i) == w;
    AtPos(p);
    assert At(i) == p;
  }

  /** From the start, 200 recordings give back exactly the start */
  lemma StartCycle(userId: int)
    requires userId < FirstExemptUser
    ensures Iterate(Start, userId, 200) == Start
  {
    StartIsFirst();
    CycleReturns(Start, userId);
  }

  /** Within one cycle from the start no sample is recorded twice: the first
      200 recordings are the 200 samples of the plan, in order */
  lemma StartVisitsEachSampleOnce(userId: int, n: nat, m: nat)
    requires userId < FirstExemptUser && n < CycleLength && m < CycleLength
    ensures Iterate(Start, userId, n) == At(n)
    ensures Iterate(Start, userId, n) == Iterate(Start, userId, m) ==> n == m
  {
    StartIsFirst();
    IterateWithinCycle(Start, userId, n);
    IterateWithinCycle(Start, userId, m);
    AtPos(Iterate(Start, userId, n));
  }

  // ---------------------------------------------------------------------------
  // Outside the plan

  /** A user from 101 on only ever counts the data id up */
  lemma {:induction false} ExemptUserIterate(p: Progress, userId: int, n: nat)
    requires userId >= FirstExemptUser
    ensures Iterate(p, userId, n) == p.(dataId := p.dataId + n)
    decreases n
  {
    if n > 0 {
      ExemptUserIterate(Step(p, userId), userId, n - 1);
    }
  }

  /** Spoof at 50cm is not a stage of the plan: its data id counts up past 50
      and the switch and spinner never move, for any user */
  lemma {:induction false} SpoofAt50Iterate(dataId: nat, userId: int, n: nat)
    ensures Iterate(Progress(true, 1, dataId), userId, n) == Progress(true, 1, dataId + n)
    decreases n
  {
    if n > 0 {
      assert StageOf(true, 1) == |Plan|;
      SpoofAt50Iterate(dataId + 1, userId, n - 1);
    }
  }

  /** Genuine 25cm at 20 moves to genuine 50cm at 1 */
  lemma GenuineRolloverExample(userId: int)
    requires userId < FirstExemptUser
    ensures Step(Progress(false, 0, 20), userId) == Progress(false, 1, 1)
  {
    StagesDistinct(0);
  }

  /** Spoof 300cm at 50 moves to genuine 25cm at 1 */
  lemma SpoofRolloverExample(userId: int)
    requires userId < FirstExemptUser
    ensures Step(Progress(true, 3, 50), userId) == Progress(false, 0, 1)
  {
    StagesDistinct(6);
  }

  // ---------------------------------------------------------------------------
  // The back button

  /** The data id after the back button: one less, but never below 1 */
  function Back(dataId: nat): (r: nat)
    ensures dataId >= 1 ==> r >= 1
    ensures r == dataId - 1 || r == dataId
    ensures r < dataId <==> dataId > 1
  {
    if dataId > 1 then dataId - 1 else dataId
  }

  /** `n` presses of the back button */
  function BackTimes(dataId: nat, n: nat): nat
    decreases n
  {
    if n == 0 then dataId else BackTimes(Back(dataId), n - 1)
  }

  /** However often back is pressed, the data id stops at 1 */
  lemma {:induction false} BackTimesFloor(dataId: nat, n: nat)
    requires dataId >= 1
    ensures BackTimes(dataId, n) == if dataId - n >= 1 then dataId - n else 1
    decreases n
  {
    if n > 0 {
      BackTimesFloor(Back(dataId), n - 1);
    }
  }
}
