/** The audio latch controller: three persistent flags updated once per
    frame from three trigger booleans. Cues 1 and 2 play once per rising
    edge of their trigger; cue 3 loops while its trigger is true. Whether
    each sound loaded is an input; playback itself is a command value. */
module Chimes {

  datatype Command = Play1 | Play2 | Loop3 | Stop3

  datatype Cue = Cue1 | Cue2 | Cue3

  /** The trigger values read in one frame. */
  datatype Triggers = Triggers(t1: bool, t2: bool, t3: bool)

  /** Which of the three sounds loaded at start-up. */
  datatype Loaded = Loaded(l1: bool, l2: bool, l3: bool)

  /** The persistent latch flags. */
  datatype ChimeState = ChimeState(played1: bool, played2: bool, playing3: bool)

  const Idle := ChimeState(false, false, false)

  function Trigger(f: Triggers, c: Cue): bool
  {
    match c
    case Cue1 => f.t1
    case Cue2 => f.t2
    case Cue3 => f.t3
  }

  function IsLoaded(ld: Loaded, c: Cue): bool
  {
    match c
    case Cue1 => ld.l1
    case Cue2 => ld.l2
    case Cue3 => ld.l3
  }

  /** The flag kept for a cue: "played" for cues 1 and 2, "playing" for 3. */
  function Flag(s: ChimeState, c: Cue): bool
  {
    match c
    case Cue1 => s.played1
    case Cue2 => s.played2
    case Cue3 => s.playing3
  }

  function PlayCommand(c: Cue): Command
    requires c != Cue3
  {
    if c == Cue1 then Play1 else Play2
  }

  /** Outcome of an edge-triggered cue for one frame. */
  datatype LatchOutcome = LatchOutcome(played: bool, fire: bool)

  /** Edge-triggered cue: play when the trigger is up, the latch is clear
      and the sound is loaded; clear the latch when the trigger is down;
      otherwise leave it. The latch is only ever set while the trigger is
      up, it fires only when it goes from clear to set, and with the sound
      loaded the latch simply follows the trigger. */
  function LatchStep(trigger: bool, played: bool, loaded: bool): (o: LatchOutcome)
    ensures o.played ==> trigger
    ensures o.fire ==> o.played && !played && loaded
    ensures loaded ==> o.played == trigger && (o.fire <==> trigger && !played)
    ensures !loaded ==> !o.fire && (o.played ==> played)
    ensures trigger && !loaded ==> o == LatchOutcome(played, false)
  {
    if trigger && !played && loaded then LatchOutcome(true, true)
    else if !trigger then LatchOutcome(false, false)
    else LatchOutcome(played, false)
  }

  datatype LoopAction = NoAction | StartLoop | StopLoop

  /** Outcome of the looping cue for one frame. */
  datatype LoopOutcome = LoopOutcome(playing: bool, action: LoopAction)

  /** Level-triggered cue: start looping when the trigger is up, the sound
      is loaded and nothing plays; stop when the trigger is down and it
      plays. It starts only on a rising transition, stops only on a falling
      one, follows the trigger when the sound is loaded, and a trigger that
      matches the flag produces nothing. The state "playing without a
      loaded sound" is covered too, but it is unreachable from Idle
      (MissingLoopNeverPlays); in the program it would call stop() on a
      sound that is None. */
  function LoopStep(trigger: bool, playing: bool, loaded: bool): (o: LoopOutcome)
    ensures o.action == StartLoop ==> trigger && loaded && !playing && o.playing
    ensures o.action == StopLoop ==> !trigger && playing && !o.playing
    ensures trigger && loaded && !playing ==> o.action == StartLoop
    ensures !trigger && playing ==> o.action == StopLoop
    ensures trigger == playing ==> o.action == NoAction && o.playing == playing
    ensures loaded ==> o.playing == trigger
    ensures o.playing ==> playing || loaded
  {
    if trigger && loaded && !playing then LoopOutcome(true, StartLoop)
    else if !trigger && playing then LoopOutcome(false, StopLoop)
    else LoopOutcome(playing, NoAction)
  }

  function ActionCommands(a: LoopAction): seq<Command>
  {
    match a
    case NoAction => []
    case StartLoop => [Loop3]
    case StopLoop => [Stop3]
  }

  /** The flags after one frame. */
  function Next(s: ChimeState, f: Triggers, ld: Loaded): (s': ChimeState)
    ensures forall c :: IsLoaded(ld, c) ==> Flag(s', c) == Trigger(f, c)
    ensures forall c :: !IsLoaded(ld, c) ==> Flag(s', c) == (Flag(s, c) && Trigger(f, c))
  {
    ChimeState(LatchStep(f.t1, s.played1, ld.l1).played,
               LatchStep(f.t2, s.played2, ld.l2).played,
               LoopStep(f.t3, s.playing3, ld.l3).playing)
  }

  /** The commands issued in one frame, cue 1 first, then cue 2, then cue 3.
      Each command belongs to a transition of its cue's flag. */
  function Commands(s: ChimeState, f: Triggers, ld: Loaded): (cmds: seq<Command>)
    ensures |cmds| <= 3
    ensures Play1 in cmds <==> f.t1 && !s.played1 && ld.l1
    ensures Play2 in cmds <==> f.t2 && !s.played2 && ld.l2
    ensures Loop3 in cmds <==> f.t3 && !s.playing3 && ld.l3
    ensures Stop3 in cmds <==> !f.t3 && s.playing3
    ensures f.t1 == s.played1 && f.t2 == s.played2 && f.t3 == s.playing3 ==> cmds == []
  {
    (if LatchStep(f.t1, s.played1, ld.l1).fire then [Play1] else [])
    + (if LatchStep(f.t2, s.played2, ld.l2).fire then [Play2] else [])
    + ActionCommands(LoopStep(f.t3, s.playing3, ld.l3).action)
  }

  /** The controller, with the three flags the main loop keeps between frames. */
  class ChimeController {
    var chime1Played: bool
    var chime2Played: bool
    var chime3Playing: bool

    function State(): ChimeState
      reads this
    {
      ChimeState(chime1Played, chime2Played, chime3Playing)
    }

    constructor ()
      ensures State() == Idle
    {
      chime1Played, chime2Played, chime3Playing := false, false, false;
    }

    /** One frame of the controller, in the program's order. */
    method Step(t1: bool, t2: bool, t3: bool, loaded1: bool, loaded2: bool, loaded3: bool)
      returns (cmds: seq<Command>)
      modifies this
      ensures State() == Next(old(State()), Triggers(t1, t2, t3), Loaded(loaded1, loaded2, loaded3))
      ensures cmds == Commands(old(State()), Triggers(t1, t2, t3), Loaded(loaded1, loaded2, loaded3))
    {
      var play1, play2, loop3: seq<Command> := [], [], [];
      if t1 && !chime1Played && loaded1 {
        play1 := [Play1];
        chime1Played := true;
      } else if !t1 {
        chime1Played := false;
      }
      if t2 && !chime2Played && loaded2 {
        play2 := [Play2];
        chime2Played := true;
      } else if !t2 {
        chime2Played := false;
      }
      if t3 && loaded3 && !chime3Playing {
        loop3 := [Loop3];
        chime3Playing := true;
      } else if !t3 && chime3Playing {
        loop3 := [Stop3];
        chime3Playing := false;
      }
      cmds := play1 + play2 + loop3;
    }

    /** Runs the controller over a sequence of frames, with the sounds that
        loaded at start-up, collecting every command. */
    method RunFrames(frames: seq<Triggers>, loaded: Loaded) returns (cmds: seq<Command>)
      modifies this
      ensures State() == StateAfter(old(State()), frames, loaded)
      ensures cmds == Emitted(old(State()), frames, loaded)
    {
      cmds := [];
      var i := 0;
      while i < |frames|
        invariant 0 <= i <= |frames|
        invariant State() == StateAfter(old(State()), frames[..i], loaded)
        invariant cmds == Emitted(old(State()), frames[..i], loaded)
      {
        var f := frames[i];
        var c := Step(f.t1, f.t2, f.t3, loaded.l1, loaded.l2, loaded.l3);
        cmds := cmds + c;
        assert frames[..i + 1][..i] == frames[..i];
        i := i + 1;
      }
      assert frames[..i] == frames;
    }
  }

  // ----- Traces: the flags and commands over a sequence of frames -----

  /** The flags after every frame of the trace. */
  function StateAfter(s: ChimeState, frames: seq<Triggers>, ld: Loaded): ChimeState
    decreases |frames|
  {
    if frames == [] then s
    else Next(StateAfter(s, frames[..|frames| - 1], ld), frames[|frames| - 1], ld)
  }

  /** Every command issued over the trace, frame by frame. */
  function Emitted(s: ChimeState, frames: seq<Triggers>, ld: Loaded): seq<Command>
    decreases |frames|
  {
    if frames == [] then []
    else
      var init := frames[..|frames| - 1];
      Emitted(s, init, ld) + Commands(StateAfter(s, init, ld), frames[|frames| - 1], ld)
  }

  /** The trigger of cue c in the frame before frame i; before the first
      frame, the value the flag started with. */
  function Before(prev: bool, frames: seq<Triggers>, c: Cue, i: nat): bool
    requires i <= |frames|
  {
    if i == 0 then prev else Trigger(frames[i - 1], c)
  }

  /** Number of frames in which cue c's trigger goes from false to true. */
  function RisingEdges(prev: bool, frames: seq<Triggers>, c: Cue): nat
    decreases |frames|
  {
    if frames == [] then 0
    else
      var n := |frames| - 1;
      RisingEdges(prev, frames[..n], c)
      + (if Trigger(frames[n], c) && !Before(prev, frames, c, n) then 1 else 0)
  }

  /** Number of frames in which cue c's trigger goes from true to false. */
  function FallingEdges(prev: bool, frames: seq<Triggers>, c: Cue): nat
    decreases |frames|
  {
    if frames == [] then 0
    else
      var n := |frames| - 1;
      FallingEdges(prev, frames[..n], c)
      + (if !Trigger(frames[n], c) && Before(prev, frames, c, n) then 1 else 0)
  }

  /** With the sound loaded, a cue's flag after a frame equals its trigger
      in that frame. */
  lemma FlagFollowsTrigger(s: ChimeState, frames: seq<Triggers>, ld: Loaded, c: Cue)
    requires IsLoaded(ld, c)
    ensures Flag(StateAfter(s, frames, ld), c) == Before(Flag(s, c), frames, c, |frames|)
  {
  }

  /** With its sound loaded, cue 1 (or 2) plays exactly once per rising
      edge of its trigger. */
  lemma {:induction false} PlaysEqualRisingEdges(s: ChimeState, frames: seq<Triggers>, ld: Loaded, c: Cue)
    requires c != Cue3 && IsLoaded(ld, c)
    ensures multiset(Emitted(s, frames, ld))[PlayCommand(c)] == RisingEdges(Flag(s, c), frames, c)
    decreases |frames|
  {
    if frames != [] {
      var n := |frames| - 1;
      var init := frames[..n];
      var p := PlayCommand(c);
      PlaysEqualRisingEdges(s, init, ld, c);
      FlagFollowsTrigger(s, init, ld, c);
      var st := StateAfter(s, init, ld);
      var cmds := Commands(st, frames[n], ld);
      CommandsOnce(st, frames[n], ld, p);
      PlayInCommands(st, frames[n], ld, c);
      assert Before(Flag(s, c), init, c, n) == Before(Flag(s, c), frames, c, n);
      assert Emitted(s, frames, ld) == Emitted(s, init, ld) + cmds;
      assert multiset(Emitted(s, frames, ld))[p] == multiset(Emitted(s, init, ld))[p] + multiset(cmds)[p];
    }
  }

  /** No command appears twice in one frame. */
  lemma CommandsOnce(s: ChimeState, f: Triggers, ld: Loaded, cmd: Command)
    ensures multiset(Commands(s, f, ld))[cmd] == if cmd in Commands(s, f, ld) then 1 else 0
  {
  }

  /** The play command of cue 1 (or 2) is issued exactly on a rising
      transition of its latch with the sound loaded. */
  lemma PlayInCommands(s: ChimeState, f: Triggers, ld: Loaded, c: Cue)
    requires c != Cue3
    ensures PlayCommand(c) in Commands(s, f, ld) <==> Trigger(f, c) && !Flag(s, c) && IsLoaded(ld, c)
  {
  }

  /** Cue 3's start and stop commands are issued exactly on a rising and a
      falling transition of its flag. */
  lemma LoopInCommands(s: ChimeState, f: Triggers, ld: Loaded)
    ensures Loop3 in Commands(s, f, ld) <==> f.t3 && !s.playing3 && ld.l3
    ensures Stop3 in Commands(s, f, ld) <==> !f.t3 && s.playing3
  {
  }

  /** Holding cue 1 (or 2) high never replays it: the frame after a frame
      whose trigger was already true issues no play for that cue. */
  lemma HeldTriggerNeverReplays(s: ChimeState, frames: seq<Triggers>, ld: Loaded, c: Cue, i: nat)
    requires c != Cue3 && 0 < i < |frames|
    requires Trigger(frames[i - 1], c) && Trigger(frames[i], c)
    ensures PlayCommand(c) !in Commands(StateAfter(s, frames[..i], ld), frames[i], ld)
  {
  }

  /** A cue whose sound did not load never plays. */
  lemma {:induction false} MissingSoundNeverPlays(s: ChimeState, frames: seq<Triggers>, ld: Loaded, c: Cue)
    requires c != Cue3 && !IsLoaded(ld, c)
    ensures PlayCommand(c) !in Emitted(s, frames, ld)
    decreases |frames|
  {
    if frames != [] {
      MissingSoundNeverPlays(s, frames[..|frames| - 1], ld, c);
    }
  }

  /** Without its sound, cue 3 is never marked playing and issues no
      command, starting from a state where it is not playing (such as Idle). */
  lemma {:induction false} MissingLoopNeverPlays(s: ChimeState, frames: seq<Triggers>, ld: Loaded)
    requires !ld.l3 && !s.playing3
    ensures !StateAfter(s, frames, ld).playing3
    ensures Loop3 !in Emitted(s, frames, ld) && Stop3 !in Emitted(s, frames, ld)
    decreases |frames|
  {
    if frames != [] {
      MissingLoopNeverPlays(s, frames[..|frames| - 1], ld);
    }
  }

  /** With its sound loaded, cue 3 starts looping once per rising edge of
      its trigger. */
  lemma {:induction false} LoopsEqualRisingEdges(s: ChimeState, frames: seq<Triggers>, ld: Loaded)
    requires ld.l3
    ensures multiset(Emitted(s, frames, ld))[Loop3] == RisingEdges(s.playing3, frames, Cue3)
    decreases |frames|
  {
    if frames != [] {
      var n := |frames| - 1;
      var init := frames[..n];
      LoopsEqualRisingEdges(s, init, ld);
      FlagFollowsTrigger(s, init, ld, Cue3);
      var st := StateAfter(s, init, ld);
      var cmds := Commands(st, frames[n], ld);
      CommandsOnce(st, frames[n], ld, Loop3);
      LoopInCommands(st, frames[n], ld);
      assert Before(s.playing3, init, Cue3, n) == Before(s.playing3, frames, Cue3, n);
      assert RisingEdges(s.playing3, frames, Cue3) == RisingEdges(s.playing3, init, Cue3) + if Trigger(frames[n], Cue3) && !Before(s.playing3, frames, Cue3, n) then 1 else 0;
      assert Emitted(s, frames, ld) == Emitted(s, init, ld) + cmds;
      assert multiset(Emitted(s, frames, ld))[Loop3] == multiset(Emitted(s, init, ld))[Loop3] + multiset(cmds)[Loop3];
    }
  }

  /** With its sound loaded, cue 3 stops once per falling edge of its
      trigger. */
  lemma {:induction false} StopsEqualFallingEdges(s: ChimeState, frames: seq<Triggers>, ld: Loaded)
    requires ld.l3
    ensures multiset(Emitted(s, frames, ld))[Stop3] == FallingEdges(s.playing3, frames, Cue3)
    decreases |frames|
  {
    if frames != [] {
      var n := |frames| - 1;
      var init := frames[..n];
      StopsEqualFallingEdges(s, init, ld);
      FlagFollowsTrigger(s, init, ld, Cue3);
      var st := StateAfter(s, init, ld);
      var cmds := Commands(st, frames[n], ld);
      CommandsOnce(st, frames[n], ld, Stop3);
      LoopInCommands(st, frames[n], ld);
      assert Before(s.playing3, init, Cue3, n) == Before(s.playing3, frames, Cue3, n);
      assert FallingEdges(s.playing3, frames, Cue3) == FallingEdges(s.playing3, init, Cue3) + if !Trigger(frames[n], Cue3) && Before(s.playing3, frames, Cue3, n) then 1 else 0;
      assert Emitted(s, frames, ld) == Emitted(s, init, ld) + cmds;
      assert multiset(Emitted(s, frames, ld))[Stop3] == multiset(Emitted(s, init, ld))[Stop3] + multiset(cmds)[Stop3];
    }
  }

  /** Cue 3's commands alternate: starting from a stopped cue, every stop
      is preceded by a start, so the starts number the stops or one more. */
  lemma {:induction false} LoopStopAlternate(s: ChimeState, frames: seq<Triggers>, ld: Loaded)
    ensures var m := multiset(Emitted(s, frames, ld));
      m[Loop3] + (if s.playing3 then 1 else 0)
      == m[Stop3] + (if StateAfter(s, frames, ld).playing3 then 1 else 0)
    decreases |frames|
  {
    if frames != [] {
      var n := |frames| - 1;
      LoopStopAlternate(s, frames[..n], ld);
      var st := StateAfter(s, frames[..n], ld);
      CommandsOnce(st, frames[n], ld, Loop3);
      CommandsOnce(st, frames[n], ld, Stop3);
    }
  }

  /** Cue 1 driven by false, true, true, false, true plays on the two
      rising edges only. */
  method EdgeSample() returns (plays: seq<Command>)
    ensures plays == [Play1, Play1]
  {
    var ctl := new ChimeController();
    var c0 := ctl.Step(false, false, false, true, true, true);
    var c1 := ctl.Step(true, false, false, true, true, true);
    var c2 := ctl.Step(true, false, false, true, true, true);
    var c3 := ctl.Step(false, false, false, true, true, true);
    var c4 := ctl.Step(true, false, false, true, true, true);
    plays := c0 + c1 + c2 + c3 + c4;
  }

  /** Cue 3 driven by false, true, true, false, true, true, false starts and
      stops on each transition and issues nothing on steady frames. */
  method LoopSample() returns (cmds: seq<Command>)
    ensures cmds == [Loop3, Stop3, Loop3, Stop3]
  {
    var ctl := new ChimeController();
    var c0 := ctl.Step(false, false, false, true, true, true);
    var c1 := ctl.Step(false, false, true, true, true, true);
    var c2 := ctl.Step(false, false, true, true, true, true);
    var c3 := ctl.Step(false, false, false, true, true, true);
    var c4 := ctl.Step(false, false, true, true, true, true);
    var c5 := ctl.Step(false, false, true, true, true, true);
    var c6 := ctl.Step(false, false, false, true, true, true);
    cmds := c0 + c1 + c2 + c3 + c4 + c5 + c6;
  }
}
