/**
 * src/explore.py: the command-line prototype. `load_single_song` checks the
 * file it is given before starting the player; `player` plays the list of
 * files and reacts to the mixer's end-of-track events according to its loop
 * mode until a quit event (or the end of a non-looping track) stops it.
 */
module Explore {
  import opened Paths
  import opened Ports

  /** The file types the prototype accepts (the same list as utils.py's). */
  const ALLOWED_FILTYPES: seq<string> := [".wav", ".mp3", ".m4a"]

  /** `LoopType`: NONE, ONE and ALL. */
  datatype LoopType = Off | One | All

  /** The loop mode `player` sets before its loop. */
  const PLAYER_LOOP: LoopType := One

  /** The volume `player` sets before handling events. */
  const PLAYER_VOLUME: real := 0.4

  /** What happens to the file name read from the user. */
  datatype LoadResult =
    | FileNotFound               // "File not found."
    | CannotRead                 // "Can't read the file you specified."
    | StartPlayer(files: seq<Path>)

  /** `load_single_song(folderpath)` with the entered file name `filename`. */
  function LoadSingleSong(folder: Path, filename: string, fs: FileSystem): (r: LoadResult)
    ensures r.StartPlayer? <==> fs.kind(Join(folder, filename)) == RegularFile && SplitExt(Join(folder, filename)) in ALLOWED_FILTYPES
    ensures r.StartPlayer? ==> r.files == [Join(folder, filename)]
    ensures r == FileNotFound <==> fs.kind(Join(folder, filename)) == Missing
  {
    var file := Join(folder, filename);
    if fs.kind(file) == Missing then FileNotFound
    else if fs.kind(file) != RegularFile || SplitExt(file) !in ALLOWED_FILTYPES then CannotRead
    else StartPlayer([file])
  }

  /** The player is only ever started on one existing file whose name ends in an allowed extension. */
  lemma LoadedFileIsPlayable(folder: Path, filename: string, fs: FileSystem)
    requires LoadSingleSong(folder, filename, fs).StartPlayer?
    ensures var files := LoadSingleSong(folder, filename, fs).files;
      |files| == 1 && fs.kind(files[0]) == RegularFile &&
      exists e :: e in ALLOWED_FILTYPES && |e| <= |Name(files[0])| && Name(files[0])[|Name(files[0])| - |e|..] == e
  {
    var file := Join(folder, filename);
    var n := Name(file);
    var i := RFind(n, '.');
    assert n[i..] in ALLOWED_FILTYPES;
    assert n[|n| - |n[i..]|..] == n[i..];
  }

  /** The kinds of event `pygame.event.get()` delivers, as far as `player` tells them apart. */
  datatype Event = Quit | TrackEnd | Other

  /** `player`'s loop variables, and the play calls made so far. */
  datatype Run = Run(running: bool, index: nat, calls: seq<PortCall>)

  /** The index after an end of track under `ALL`: the next one, or back to the first after the last. */
  function Advance(i: nat, n: nat): (r: nat)
    requires i < n
    ensures r < n
  {
    if i < n - 1 then i + 1 else 0
  }

  /** The index after `k` ends of track under `ALL`. */
  function AdvanceN(i: nat, k: nat, n: nat): (r: nat)
    requires i < n
    ensures r < n
    decreases k
  {
    if k == 0 then i else AdvanceN(Advance(i, n), k - 1, n)
  }

  /** Up to a full round, `k` ends of track move the index `k` places on, wrapping once. */
  lemma {:induction false} AdvanceNClosedForm(i: nat, k: nat, n: nat)
    requires i < n && k <= n
    ensures AdvanceN(i, k, n) == if i + k < n then i + k else i + k - n
    decreases k
  {
    if k > 0 {
      AdvanceNClosedForm(Advance(i, n), k - 1, n);
    }
  }

  /** The indices the player is at over one round of `n` ends of track under `ALL`, from index `i`. */
  function Visited(i: nat, n: nat): set<int>
    requires i < n
  {
    set k | 0 <= k < n :: AdvanceN(i, k, n)
  }

  /**
   * Under `ALL`, `n` ends of track bring the index back where it started,
   * and on the way the index takes every value below `n` exactly once.
   */
  lemma AllCyclesThroughEveryFile(i: nat, n: nat)
    requires i < n
    ensures AdvanceN(i, n, n) == i
    ensures forall k, m :: 0 <= k < m < n ==> AdvanceN(i, k, n) != AdvanceN(i, m, n)
    ensures forall j: int :: j in Visited(i, n) <==> 0 <= j < n
  {
    AdvanceNClosedForm(i, n, n);
    forall k, m | 0 <= k < m < n
      ensures AdvanceN(i, k, n) != AdvanceN(i, m, n)
    {
      AdvanceNClosedForm(i, k, n);
      AdvanceNClosedForm(i, m, n);
    }
    forall j | 0 <= j < n
      ensures j in Visited(i, n)
    {
      var k := if i <= j then j - i else j + n - i;
      AdvanceNClosedForm(i, k, n);
      assert AdvanceN(i, k, n) == j;
    }
  }

  /** One pass of the body of `for event in pygame.event.get()`. */
  function Step(files: seq<Path>, loop: LoopType, r: Run, e: Event): (s: Run)
    requires r.index < |files|
    ensures s.index < |files|
  {
    match e
    case Quit => r.(running := false)
    case Other => r
    case TrackEnd =>
      match loop
      case Off => r.(running := false)
      case One => r.(calls := r.calls + [Play(files[r.index])])
      case All =>
        var next := Advance(r.index, |files|);
        Run(r.running, next, r.calls + [Play(files[next])])
  }

  /** One batch of events, handled in order. */
  function RunEvents(files: seq<Path>, loop: LoopType, r: Run, events: seq<Event>): (s: Run)
    requires r.index < |files|
    ensures s.index < |files|
    decreases |events|
  {
    if events == [] then r else RunEvents(files, loop, Step(files, loop, r, events[0]), events[1..])
  }

  /** `while running`: batches are handled until one leaves `running` false, or the batches run out. */
  function RunBatches(files: seq<Path>, loop: LoopType, r: Run, batches: seq<seq<Event>>): (s: Run)
    requires r.index < |files|
    ensures s.index < |files|
    decreases |batches|
  {
    if !r.running || batches == [] then r
    else RunBatches(files, loop, RunEvents(files, loop, r, batches[0]), batches[1..])
  }

  /**
   * The end of a track: under `NONE` the run stops where it is, under `ONE`
   * the same file is played again, under `ALL` the next file (wrapping
   * round) is played; nothing else changes.
   */
  lemma TrackEndRule(files: seq<Path>, r: Run)
    requires r.index < |files|
    ensures Step(files, Off, r, TrackEnd) == Run(false, r.index, r.calls)
    ensures Step(files, One, r, TrackEnd) == Run(r.running, r.index, r.calls + [Play(files[r.index])])
    ensures var s := Step(files, All, r, TrackEnd);
      && s.running == r.running
      && s.index == (if r.index + 1 < |files| then r.index + 1 else 0)
      && s.calls == r.calls + [Play(files[s.index])]
  {
  }

  /** A quit event only clears `running`; events other than quit and end of track change nothing. */
  lemma QuitAndOtherEvents(files: seq<Path>, loop: LoopType, r: Run)
    requires r.index < |files|
    ensures Step(files, loop, r, Quit) == Run(false, r.index, r.calls)
    ensures Step(files, loop, r, Other) == r
  {
  }

  /** Once `running` is false, no event of the batch sets it again. */
  lemma {:induction false} StoppedStaysStopped(files: seq<Path>, loop: LoopType, r: Run, events: seq<Event>)
    requires r.index < |files| && !r.running
    ensures !RunEvents(files, loop, r, events).running
    decreases |events|
  {
    if events != [] {
      StoppedStaysStopped(files, loop, Step(files, loop, r, events[0]), events[1..]);
    }
  }

  /** A batch that holds a quit event ends the run. */
  lemma {:induction false} QuitEndsTheRun(files: seq<Path>, loop: LoopType, r: Run, events: seq<Event>)
    requires r.index < |files| && Quit in events
    ensures !RunEvents(files, loop, r, events).running
    decreases |events|
  {
    var s := Step(files, loop, r, events[0]);
    if events[0] == Quit {
      StoppedStaysStopped(files, loop, s, events[1..]);
    } else {
      QuitEndsTheRun(files, loop, s, events[1..]);
    }
  }

  /** Under `ALL`, a batch of `k` ends of track moves the index `k` places on, wrapping round. */
  lemma {:induction false} AllAdvancesOnEachEnd(files: seq<Path>, r: Run, k: nat)
    requires r.index < |files|
    ensures RunEvents(files, All, r, seq(k, _ => TrackEnd)).index == AdvanceN(r.index, k, |files|)
    decreases k
  {
    if k > 0 {
      var events := seq(k, _ => TrackEnd);
      assert events[0] == TrackEnd;
      assert events[1..] == seq(k - 1, _ => TrackEnd);
      AllAdvancesOnEachEnd(files, Step(files, All, r, TrackEnd), k - 1);
    }
  }

  /** Under `ONE`, a batch never moves the index, and every call it makes replays the current file. */
  lemma {:induction false} OneReplaysTheSameFile(files: seq<Path>, r: Run, events: seq<Event>)
    requires r.index < |files|
    ensures var s := RunEvents(files, One, r, events);
      && s.index == r.index
      && |s.calls| >= |r.calls| && s.calls[..|r.calls|] == r.calls
      && forall j :: |r.calls| <= j < |s.calls| ==> s.calls[j] == Play(files[r.index])
    decreases |events|
  {
    if events != [] {
      var t := Step(files, One, r, events[0]);
      OneReplaysTheSameFile(files, t, events[1..]);
      var s := RunEvents(files, One, r, events);
      assert s == RunEvents(files, One, t, events[1..]);
      assert s.calls[..|t.calls|] == t.calls;
      assert s.calls[..|r.calls|] == t.calls[..|r.calls|];
    }
  }

  /** Under `ONE`, over any number of batches, the player keeps to the first file. */
  lemma {:induction false} PlayerKeepsToTheFirstFile(files: seq<Path>, r: Run, batches: seq<seq<Event>>)
    requires r.index < |files| && r.index == 0
    requires forall j :: 0 <= j < |r.calls| ==> r.calls[j] == Play(files[0])
    ensures var s := RunBatches(files, One, r, batches);
      s.index == 0 && forall j :: 0 <= j < |s.calls| ==> s.calls[j] == Play(files[0])
    decreases |batches|
  {
    if r.running && batches != [] {
      var t := RunEvents(files, One, r, batches[0]);
      OneReplaysTheSameFile(files, r, batches[0]);
      forall j | 0 <= j < |t.calls|
        ensures t.calls[j] == Play(files[0])
      {
        if j < |r.calls| {
          assert t.calls[j] == t.calls[..|r.calls|][j];
        }
      }
      PlayerKeepsToTheFirstFile(files, t, batches[1..]);
    }
  }

  /**
   * With the loop mode `player` is configured with, every song it starts
   * while handling events is the first file again.
   */
  lemma ConfiguredPlayerRepeatsTheFirstFile(files: seq<Path>, batches: seq<seq<Event>>)
    requires |files| > 0
    ensures var final := RunBatches(files, PLAYER_LOOP, Run(true, 0, []), batches);
      final.index == 0 && forall j :: 0 <= j < |final.calls| ==> final.calls[j] == Play(files[0])
  {
    PlayerKeepsToTheFirstFile(files, Run(true, 0, []), batches);
  }

  /**
   * `player(files)` over the event batches `batches`: play the first file,
   * set the volume and the end event, handle batches while running, and stop
   * once the loop ends. `stopped` is false when the batches ran out while the
   * player was still running, where the program would go on polling. The
   * loop mode is the parameter `loop`; `player` itself runs with PLAYER_LOOP.
   */
  method Player(files: seq<Path>, loop: LoopType, batches: seq<seq<Event>>) returns (calls: seq<PortCall>, stopped: bool)
    requires |files| > 0
    ensures var final := RunBatches(files, loop, Run(true, 0, []), batches);
      && stopped == !final.running
      && calls == [Play(files[0]), SetVolume(PLAYER_VOLUME), SetEndEvent] + final.calls + (if stopped then [Stop] else [])
  {
    var running := true;
    var currentIndex: nat := 0;
    calls := [Play(files[currentIndex]), SetVolume(PLAYER_VOLUME), SetEndEvent];
    var played: seq<PortCall> := [];
    var b := 0;
    while running && b < |batches|
      invariant 0 <= b <= |batches| && currentIndex < |files|
      invariant RunBatches(files, loop, Run(true, 0, []), batches) == RunBatches(files, loop, Run(running, currentIndex, played), batches[b..])
      decreases |batches| - b
    {
      var events := batches[b];
      ghost var before := Run(running, currentIndex, played);
      assert batches[b..][1..] == batches[b + 1..];
      for e := 0 to |events|
        invariant currentIndex < |files|
        invariant RunEvents(files, loop, before, events) == RunEvents(files, loop, Run(running, currentIndex, played), events[e..])
      {
        assert events[e..][1..] == events[e + 1..];
        if events[e] == Quit {
          running := false;
        }
        if events[e] != TrackEnd {
        } else if loop == Off {
          running := false;
        } else if loop == One {
          played := played + [Play(files[currentIndex])];
        } else {
          currentIndex := if currentIndex < |files| - 1 then currentIndex + 1 else 0;
          played := played + [Play(files[currentIndex])];
        }
      }
      b := b + 1;
    }
    calls := calls + played;
    stopped := !running;
    if !running {
      calls := calls + [Stop];
    }
  }
}
