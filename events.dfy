/** The observable steps of one test run, recorded in the order they are entered. */
module Events {
  import opened Outcomes

  /** What the world does during one run, supplied from outside. */
  datatype RunEnv = RunEnv(
    loadError: Option<Error>,   // `mocha.run()` throws while loading the files
    failures: nat,              // `runner.failures` when 'end' fires
    unlinkFails: set<string>)   // paths whose unlink fails with an I/O error

  /** The steps taken, how the run settles, and the file system afterwards. */
  datatype RunResult = RunResult(trace: seq<Event>, outcome: Outcome, paths: set<string>)

  datatype Event =
    | CreateInstance                 // the instance step (caller's `instance()` or `new Mocha()`)
    | AttachCacheClear               // the 'require' listener that clears `require.cache`
    | CollectFiles(files: seq<string>) // the chunk files read from the bundle
    | FilterFiles                    // the caller's `filterFiles` is called
    | Register(files: seq<string>)   // the files handed to the add-files step
    | StartRun                       // the run step is entered (`mocha.run()` or the caller's run)
    | RunnerHook                     // the runner hook is called with the runner
    | AwaitEnd                       // the failure count at 'end' decides the outcome
    | Cleanup(files: seq<string>)    // the remove-files step is called with these files
    | FinallyHook                    // the final hook (`finally` / `done`) is called

  /** Position of each step in the fixed sequence. */
  function Rank(e: Event): nat
  {
    match e
    case CreateInstance => 0
    case AttachCacheClear => 1
    case CollectFiles(_) => 2
    case FilterFiles => 3
    case Register(_) => 4
    case StartRun => 5
    case RunnerHook => 6
    case AwaitEnd => 7
    case Cleanup(_) => 8
    case FinallyHook => 9
  }

  /** Steps occur in the fixed sequence, each at most once. */
  predicate InOrder(trace: seq<Event>)
  {
    forall i, j :: 0 <= i < j < |trace| ==> Rank(trace[i]) < Rank(trace[j])
  }

  /** An ordered trace whose steps all rank in `[lo, hi)`. */
  predicate Ranked(trace: seq<Event>, lo: nat, hi: nat)
  {
    InOrder(trace) && forall i :: 0 <= i < |trace| ==> lo <= Rank(trace[i]) < hi
  }

  /** Ordered pieces with consecutive rank ranges join into one ordered trace. */
  lemma RankedAppend(a: seq<Event>, b: seq<Event>, lo: nat, mid: nat, hi: nat)
    requires lo <= mid <= hi
    requires Ranked(a, lo, mid) && Ranked(b, mid, hi)
    ensures Ranked(a + b, lo, hi)
  {
    forall i | 0 <= i < |a + b|
      ensures lo <= Rank((a + b)[i]) < hi
    {
      if i < |a| {
        assert (a + b)[i] == a[i];
      } else {
        assert (a + b)[i] == b[i - |a|];
      }
    }
    forall i, j | 0 <= i < j < |a + b|
      ensures Rank((a + b)[i]) < Rank((a + b)[j])
    {
      if j < |a| {
        assert (a + b)[i] == a[i] && (a + b)[j] == a[j];
      } else if i >= |a| {
        assert (a + b)[i] == b[i - |a|] && (a + b)[j] == b[j - |a|];
      } else {
        assert (a + b)[i] == a[i] && (a + b)[j] == b[j - |a|];
      }
    }
  }

  /** In an ordered trace, every occurrence of a lower-ranked step precedes every occurrence of a higher-ranked one. */
  lemma RankOrdersSteps(trace: seq<Event>, a: Event, b: Event)
    requires InOrder(trace) && Rank(a) < Rank(b)
    ensures forall i, j :: 0 <= i < |trace| && 0 <= j < |trace| && trace[i] == a && trace[j] == b ==> i < j
  {
  }
}
