/** Sending a range of blocks: the loops that collect block numbers count in unsigned 64-bit
    arithmetic, where stepping past either end of the range wraps around. */
module BlockRange {
  import opened Codec

  const MAX: Uint64 := TWO64 - 1

  function Dec(n: Uint64): Uint64 {
    if n == 0 then MAX else n - 1
  }

  // The three loops: upwards, downwards with the guard of sendBlocks, downwards as in
  // sendStateDeltas.
  datatype Kind = Up | DownGuarded | DownPlain

  predicate Continues(k: Kind, start: Uint64, end: Uint64, i: Uint64) {
    match k
    case Up => i <= end
    case DownGuarded => i >= end && i <= start
    case DownPlain => i >= end
  }

  function Next(k: Kind, i: Uint64): Uint64 {
    if k.Up? then Inc(i) else Dec(i)
  }

  datatype Outcome = StillRunning | Collected(nums: seq<Uint64>)

  /** The loop from a value on, cut off after a number of rounds. */
  function Loop(k: Kind, start: Uint64, end: Uint64, i: Uint64, rounds: nat): Outcome
    decreases rounds
  {
    if !Continues(k, start, end, i) then Collected([])
    else if rounds == 0 then StillRunning
    else
      match Loop(k, start, end, Next(k, i), rounds - 1)
      case StillRunning => StillRunning
      case Collected(rest) => Collected([i] + rest)
  }

  /** The numbers the documentation promises, upwards or downwards, both ends included. */
  function Range(start: Uint64, end: Uint64): (r: seq<Uint64>)
    ensures r != [] && r[0] == start && r[|r| - 1] == end
    decreases if start <= end then end - start else start - end
  {
    if start == end then [start]
    else [start] + Range(if start < end then start + 1 else start - 1, end)
  }

  function Distance(a: Uint64, b: Uint64): nat {
    if a <= b then b - a else a - b
  }

  lemma {:induction false} RangeContents(start: Uint64, end: Uint64, j: nat)
    requires j <= Distance(start, end)
    ensures |Range(start, end)| == Distance(start, end) + 1
    ensures Range(start, end)[j] == if start <= end then start + j else start - j
    decreases Distance(start, end)
  {
    if start != end {
      RangeContents(if start < end then start + 1 else start - 1, end, if j == 0 then 0 else j - 1);
    }
  }

  /** Which loop each sender runs on a range. */
  function KindOf(deltas: bool, start: Uint64, end: Uint64): Kind {
    if start <= end then Up else if deltas then DownPlain else DownGuarded
  }

  /** The ranges on which the loop comes to an end. */
  predicate Ends(k: Kind, start: Uint64, end: Uint64) {
    match k
    case Up => end < MAX
    case DownGuarded => end > 0 || start < MAX
    case DownPlain => end > 0
  }

  // ---------------------------------------------------------------- loops that end

  lemma {:induction false} EndingLoop(k: Kind, start: Uint64, end: Uint64, i: Uint64, rounds: nat)
    requires Ends(k, start, end) && (if k.Up? then start <= i <= end else end <= i <= start)
    requires rounds > Distance(i, end)
    ensures Loop(k, start, end, i, rounds) == Collected(Range(i, end))
    decreases Distance(i, end)
  {
    if i != end {
      EndingLoop(k, start, end, Next(k, i), rounds - 1);
    }
  }

  // ---------------------------------------------------------------- loops that do not

  lemma {:induction false} RunawayLoop(k: Kind, start: Uint64, end: Uint64, i: Uint64, rounds: nat)
    requires !Ends(k, start, end)
    ensures Loop(k, start, end, i, rounds) == StillRunning
    decreases rounds
  {
    if rounds > 0 {
      RunawayLoop(k, start, end, Next(k, i), rounds - 1);
    }
  }

  lemma CollectsIffEnds(k: Kind, start: Uint64, end: Uint64)
    requires k.Up? <==> start <= end
    ensures (exists rounds :: Loop(k, start, end, start, rounds) == Collected(Range(start, end))) <==> Ends(k, start, end)
    ensures (exists rounds :: Loop(k, start, end, start, rounds).Collected?) <==> Ends(k, start, end)
  {
    if Ends(k, start, end) {
      EndingLoop(k, start, end, start, Distance(start, end) + 1);
    } else {
      forall rounds: nat ensures Loop(k, start, end, start, rounds) == StillRunning {
        RunawayLoop(k, start, end, start, rounds);
      }
    }
  }

  /** For every range, `sendBlocks` comes to an end, and then with exactly the promised numbers
      in the promised order, if and only if it does not have to step past the last number
      there is, upwards or around 0 over all of them. */
  lemma SendBlocksCollectsIff(start: Uint64, end: Uint64)
    ensures var k := KindOf(false, start, end);
            && ((exists rounds :: Loop(k, start, end, start, rounds) == Collected(Range(start, end)))
                <==> if start <= end then end != 0xFFFF_FFFF_FFFF_FFFF else !(end == 0 && start == 0xFFFF_FFFF_FFFF_FFFF))
            && ((exists rounds :: Loop(k, start, end, start, rounds).Collected?)
                <==> exists rounds :: Loop(k, start, end, start, rounds) == Collected(Range(start, end)))
  {
    CollectsIffEnds(KindOf(false, start, end), start, end);
  }

  /** `sendStateDeltas` has no guard downwards: it does not end on any range down to 0. */
  lemma SendStateDeltasCollectsIff(start: Uint64, end: Uint64)
    ensures var k := KindOf(true, start, end);
            && ((exists rounds :: Loop(k, start, end, start, rounds) == Collected(Range(start, end)))
                <==> if start <= end then end != 0xFFFF_FFFF_FFFF_FFFF else end != 0)
            && ((exists rounds :: Loop(k, start, end, start, rounds).Collected?)
                <==> exists rounds :: Loop(k, start, end, start, rounds) == Collected(Range(start, end)))
  {
    CollectsIffEnds(KindOf(true, start, end), start, end);
  }

  // ---------------------------------------------------------------- sending

  /** The numbers up to the first one that cannot be fetched or sent. */
  function UpToFailure(nums: seq<Uint64>, sends: Uint64 -> bool): seq<Uint64> {
    if nums == [] || !sends(nums[0]) then [] else [nums[0]] + UpToFailure(nums[1..], sends)
  }

  lemma {:induction false} UpToFailureIsCut(nums: seq<Uint64>, sends: Uint64 -> bool)
    ensures var sent := UpToFailure(nums, sends);
            && sent <= nums
            && (forall j :: 0 <= j < |sent| ==> sends(sent[j]))
            && (|sent| < |nums| ==> !sends(nums[|sent|]))
    decreases |nums|
  {
    if nums != [] && sends(nums[0]) {
      UpToFailureIsCut(nums[1..], sends);
    }
  }

  lemma LoopStep(k: Kind, start: Uint64, end: Uint64, i: Uint64, rounds: nat, rest: seq<Uint64>)
    requires Continues(k, start, end, i) && Loop(k, start, end, i, rounds) == Collected(rest)
    ensures rounds > 0 && rest != [] && rest[0] == i && Loop(k, start, end, Next(k, i), rounds - 1) == Collected(rest[1..])
  {
  }

  lemma Shift(a: seq<Uint64>, b: seq<Uint64>)
    requires b != []
    ensures a + b == (a + [b[0]]) + b[1..]
  {
  }

  method RunLoop(k: Kind, start: Uint64, end: Uint64, ghost rounds: nat, ghost all: seq<Uint64>) returns (nums: seq<Uint64>)
    requires Loop(k, start, end, start, rounds) == Collected(all)
    ensures nums == all
  {
    nums := [];
    var i: Uint64 := start;
    ghost var left: nat, rest: seq<Uint64> := rounds, all;
    while Continues(k, start, end, i)
      invariant Loop(k, start, end, i, left) == Collected(rest) && nums + rest == all
      decreases left
    {
      LoopStep(k, start, end, i, left, rest);
      Shift(nums, rest);
      nums := nums + [i];
      i := Next(k, i);
      left, rest := left - 1, rest[1..];
    }
  }

  method CollectNums(deltas: bool, start: Uint64, end: Uint64) returns (nums: seq<Uint64>)
    requires if start <= end then end < MAX else end > 0 || (!deltas && start < MAX)
    ensures nums == Range(start, end)
  {
    var k := KindOf(deltas, start, end);
    EndingLoop(k, start, end, start, Distance(start, end) + 1);
    nums := RunLoop(k, start, end, Distance(start, end) + 1, Range(start, end));
  }

  /** `sendBlocks` and `sendStateDeltas`, for every range on which they come back. */
  method SendRange(deltas: bool, start: Uint64, end: Uint64, sends: Uint64 -> bool) returns (sent: seq<Uint64>)
    requires if start <= end then end < MAX else end > 0 || (!deltas && start < MAX)
    ensures sent == UpToFailure(Range(start, end), sends)
  {
    var nums := CollectNums(deltas, start, end);
    sent := [];
    var i := 0;
    while i < |nums|
      invariant 0 <= i <= |nums| && sent + UpToFailure(nums[i..], sends) == UpToFailure(nums, sends)
    {
      if !sends(nums[i]) {
        break;
      }
      assert nums[i..][1..] == nums[i + 1..];
      sent := sent + [nums[i]];
      i := i + 1;
    }
  }
}
