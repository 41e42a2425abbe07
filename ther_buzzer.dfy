/**
 * The buzzer tone sequencer: a global record {music, cur_pluse_step} that
 * ther_play_music starts, ther_check_music_end advances on every buzzer
 * timer tick, and ther_stop_music cancels. Timer 4 and port 1 are an
 * abstract oscillator; the OSAL timer is a log of arm and cancel actions.
 */
module Buzzer {
  import opened Types

  /** TONE_LOW, TONE_MID, TONE_HIGH. */
  datatype Tone = Low | Mid | High

  /** Pulses per track; the step counter runs 0..PLUSE_NUM. */
  const PLUSE_NUM: nat := 4
  /** Number of tracks in the music book. */
  const BUZZER_MUSIC_NR: nat := 2
  /** Delay before the first tick after ther_play_music, in ms. */
  const PLAY_DELAY_MS: nat := 200

  /** music_pluse: pulse durations in ms, one row per track. */
  function MusicPulse(music: nat, step: nat): (ms: nat)
    requires music < BUZZER_MUSIC_NR && step < PLUSE_NUM
    ensures 100 <= ms <= 400
  {
    match (music, step)
    case (0, 0) => 300 case (0, 1) => 200 case (0, 2) => 200 case (0, _) => 100
    case (_, 0) => 400 case (_, 1) => 200 case (_, 2) => 300 case (_, _) => 100
  }

  /** music_tone: the tone of each track. */
  function MusicTone(music: nat): (t: Tone)
    requires music < BUZZER_MUSIC_NR
    ensures t != Mid
  {
    if music == 0 then High else Low
  }

  // Timer 4 control bits used by start_buzzer.
  const T4_DIV32: bv8 := 0xA0
  const T4_DIV64: bv8 := 0xC0
  const T4_START: bv8 := 0x10
  const T4_CLEAR: bv8 := 0x04
  const T4_MODULO: bv8 := 0x02

  /** The clock prescaler that bits 7:5 of T4CTL select (2 to the power of that field). */
  function Prescaler(ctl: bv8): nat
  {
    match (ctl >> 5) as nat
    case 0 => 1 case 1 => 2 case 2 => 4 case 3 => 8
    case 4 => 16 case 5 => 32 case 6 => 64 case _ => 128
  }

  /** The T4CTL bits start_buzzer(tone) writes: the tone's prescaler, clear, modulo mode, start. */
  function TimerControl(tone: Tone): (ctl: bv8)
    ensures Prescaler(ctl) == if tone == High then 32 else 64
    ensures ctl & T4_START != 0 && ctl & T4_MODULO != 0
  {
    match tone
    case Low => T4_DIV64 | T4_CLEAR | T4_MODULO | T4_START
    case Mid => T4_DIV64 | T4_CLEAR | T4_MODULO | T4_START
    case High => T4_DIV32 | T4_CLEAR | T4_MODULO | T4_START
  }

  /** LOW and MID configure Timer 4 identically; HIGH differs. */
  lemma LowMidSameConfiguration()
    ensures TimerControl(Low) == TimerControl(Mid)
    ensures TimerControl(High) != TimerControl(Low)
  {
  }

  /** The oscillator: silent (T4CTL = 0, pin low) or running with a control word. */
  datatype Oscillator = Silent | Sounding(control: bv8)

  /** A side effect of the sequencer: the OSAL buzzer timer or the oscillator. */
  datatype Effect =
    | ArmTimer(ms: nat)     // osal_start_timerEx(task_id, TH_BUZZER_EVT, ms)
    | CancelTimer           // osal_stop_timerEx(task_id, TH_BUZZER_EVT)
    | ToneOn(tone: Tone)    // start_buzzer(tone)
    | ToneOff               // stop_buzzer()

  /** The sequencer's value: the selected track and the pulse step. */
  datatype State = State(music: nat, step: nat) {
    predicate Valid() { music < BUZZER_MUSIC_NR && step <= PLUSE_NUM }
  }

  /** A new state together with the effects that produced it, in order. */
  datatype Outcome = Outcome(state: State, effects: seq<Effect>)

  /** Whether some effect arms the buzzer timer. */
  predicate Arms(effects: seq<Effect>)
  {
    exists i :: 0 <= i < |effects| && effects[i].ArmTimer?
  }

  /** ther_play_music: selects the track and restarts at step 0, whatever the old state. */
  function Play(s: State, music: nat): (o: Outcome)
    requires music < BUZZER_MUSIC_NR
    ensures o.state.Valid() && o.state.music == music && o.state.step == 0
    ensures o.effects == [ArmTimer(PLAY_DELAY_MS)]
  {
    Outcome(State(music, 0), [ArmTimer(PLAY_DELAY_MS)])
  }

  /** ther_check_music_end: one buzzer tick. */
  function Tick(s: State): (o: Outcome)
    requires s.Valid()
    ensures o.state.Valid() && o.state.music == s.music
    ensures s.step < PLUSE_NUM ==> o.state.step == s.step + 1 && o.effects == Pulse(s.music, s.step)
    ensures s.step == PLUSE_NUM ==> o.state.step == 0 && o.effects == []
  {
    if s.step < PLUSE_NUM then Outcome(State(s.music, s.step + 1), Pulse(s.music, s.step))
    else Outcome(State(s.music, 0), [])
  }

  /** A tick re-arms the buzzer timer exactly when the track is still playing. */
  lemma TickArmsWhilePlaying(s: State)
    requires s.Valid()
    ensures Arms(Tick(s).effects) <==> s.step < PLUSE_NUM
  {
    if s.step < PLUSE_NUM {
      assert Tick(s).effects[1].ArmTimer?;
    }
  }

  /** ther_stop_music: only a playing sequencer is cancelled and silenced. */
  function Stop(s: State): (o: Outcome)
    ensures o.state.step == 0 && o.state.music == s.music
    ensures s.step != 0 ==> o.effects == [CancelTimer, ToneOff]
    ensures s.step == 0 ==> o.effects == []
  {
    if s.step != 0 then Outcome(State(s.music, 0), [CancelTimer, ToneOff])
    else Outcome(s, [])
  }

  /** n consecutive ticks. */
  function Ticks(s: State, n: nat): (o: Outcome)
    requires s.Valid()
    ensures o.state.Valid()
    decreases n
  {
    if n == 0 then Outcome(s, [])
    else
      var first := Tick(s);
      var rest := Ticks(first.state, n - 1);
      Outcome(rest.state, first.effects + rest.effects)
  }

  /** Pulse k of a track: even pulses switch the tone on, odd ones off; then the pulse's timer. */
  function Pulse(music: nat, k: nat): (e: seq<Effect>)
    requires music < BUZZER_MUSIC_NR && k < PLUSE_NUM
    ensures |e| == 2 && e[1] == ArmTimer(MusicPulse(music, k))
    ensures e[0] == if k % 2 == 0 then ToneOn(MusicTone(music)) else ToneOff
  {
    [if k % 2 == 0 then ToneOn(MusicTone(music)) else ToneOff, ArmTimer(MusicPulse(music, k))]
  }

  /** The pulse train of a track: tone on, silent, on, silent, each followed by its timer. */
  function PulseTrain(music: nat): (e: seq<Effect>)
    requires music < BUZZER_MUSIC_NR
    ensures |e| == 2 * PLUSE_NUM
  {
    var t := MusicTone(music);
    [ToneOn(t), ArmTimer(MusicPulse(music, 0)), ToneOff, ArmTimer(MusicPulse(music, 1)),
     ToneOn(t), ArmTimer(MusicPulse(music, 2)), ToneOff, ArmTimer(MusicPulse(music, 3))]
  }

  /** Pulses k..PLUSE_NUM - 1 of a track, in order. */
  function PulsesFrom(music: nat, k: nat): (e: seq<Effect>)
    requires music < BUZZER_MUSIC_NR && k <= PLUSE_NUM
    ensures |e| == 2 * (PLUSE_NUM - k)
    decreases PLUSE_NUM - k
  {
    if k == PLUSE_NUM then [] else Pulse(music, k) + PulsesFrom(music, k + 1)
  }

  /** The pulses from step 0 are the whole pulse train. */
  lemma PulsesFromStart(music: nat)
    requires music < BUZZER_MUSIC_NR
    ensures PulsesFrom(music, 0) == PulseTrain(music)
  {
    assert PulsesFrom(music, 3) == Pulse(music, 3);
    assert PulsesFrom(music, 2) == Pulse(music, 2) + Pulse(music, 3);
    assert PulsesFrom(music, 1) == Pulse(music, 1) + Pulse(music, 2) + Pulse(music, 3);
  }

  /**
   * From step k the next PLUSE_NUM - k + 1 ticks play the remaining pulses
   * and the last of them returns the sequencer to step 0, arming nothing.
   */
  lemma {:induction false} TicksToEnd(music: nat, k: nat)
    requires music < BUZZER_MUSIC_NR && k <= PLUSE_NUM
    ensures Ticks(State(music, k), PLUSE_NUM - k + 1) == Outcome(State(music, 0), PulsesFrom(music, k))
    decreases PLUSE_NUM - k
  {
    if k < PLUSE_NUM {
      TicksToEnd(music, k + 1);
    } else {
      assert Ticks(Tick(State(music, k)).state, 0) == Outcome(State(music, 0), []);
    }
  }

  /**
   * After ther_play_music, exactly four ticks arm timers, with the track's
   * durations in order and the pattern on/off/on/off; the fifth tick returns
   * to step 0 and arms nothing.
   */
  lemma PlayThenFiveTicks(s: State, music: nat)
    requires s.Valid() && music < BUZZER_MUSIC_NR
    ensures var p := Play(s, music);
            var run := Ticks(p.state, PLUSE_NUM + 1);
            run.state == State(music, 0) &&
            p.effects + run.effects ==
              [ArmTimer(PLAY_DELAY_MS)] + PulseTrain(music)
  {
    TicksToEnd(music, 0);
    PulsesFromStart(music);
  }

  /**
   * ther_stop_music does nothing at step 0, so a stop between
   * ther_play_music and the first tick leaves the 200 ms timer armed:
   * the track is still played in full.
   */
  lemma StopBeforeFirstTick(s: State, music: nat)
    requires s.Valid() && music < BUZZER_MUSIC_NR
    ensures var p := Play(s, music);
            var q := Stop(p.state);
            q.state == p.state && q.effects == [] &&
            p.effects + q.effects + Ticks(q.state, PLUSE_NUM + 1).effects ==
              [ArmTimer(PLAY_DELAY_MS)] + PulseTrain(music)
  {
    TicksToEnd(music, 0);
    PulsesFromStart(music);
  }

  /** A call into the sequencer: ther_play_music, ther_check_music_end or ther_stop_music. */
  datatype Call = PlayCall(music: nat) | TickCall | StopCall

  /** The sequencer driven by a sequence of calls. */
  function Run(s: State, calls: seq<Call>): (o: Outcome)
    requires s.Valid()
    requires forall i :: 0 <= i < |calls| ==> calls[i].PlayCall? ==> calls[i].music < BUZZER_MUSIC_NR
    decreases |calls|
  {
    if calls == [] then Outcome(s, [])
    else
      var first := match calls[0]
                   case PlayCall(m) => Play(s, m)
                   case TickCall => Tick(s)
                   case StopCall => Stop(s);
      var rest := Run(first.state, calls[1..]);
      Outcome(rest.state, first.effects + rest.effects)
  }

  /** The step counter never leaves 0..PLUSE_NUM under any sequence of plays, ticks and stops. */
  lemma {:induction false} StepStaysBounded(s: State, calls: seq<Call>)
    requires s.Valid()
    requires forall i :: 0 <= i < |calls| ==> calls[i].PlayCall? ==> calls[i].music < BUZZER_MUSIC_NR
    ensures Run(s, calls).state.Valid()
    decreases |calls|
  {
    if calls != [] {
      var first := match calls[0]
                   case PlayCall(m) => Play(s, m)
                   case TickCall => Tick(s)
                   case StopCall => Stop(s);
      StepStaysBounded(first.state, calls[1..]);
    }
  }

  /** A whole pulse train leaves the oscillator silent. */
  lemma PulseTrainEndsSilent(osc: Oscillator, music: nat)
    requires music < BUZZER_MUSIC_NR
    ensures OscAfter(osc, PulseTrain(music)) == Silent
  {
    var e := PulseTrain(music);
    assert e[|e| - 2] == ToneOff;
    assert OscAfter(osc, e[..|e| - 1]) == Silent;
  }

  /** The oscillator after a sequence of effects: the last on or off wins. */
  function OscAfter(osc: Oscillator, effects: seq<Effect>): Oscillator
    decreases |effects|
  {
    if effects == [] then osc
    else
      var last := effects[|effects| - 1];
      var before := OscAfter(osc, effects[..|effects| - 1]);
      match last
      case ToneOn(t) => Sounding(TimerControl(t))
      case ToneOff => Silent
      case _ => before
  }

  /** The global buzzer record with its oscillator and the log of effects. */
  class Sequencer {
    const taskId: uint8
    var music: nat
    var step: nat
    var osc: Oscillator
    var effects: seq<Effect>

    ghost predicate Valid()
      reads this
    {
      State(music, step).Valid()
    }

    function Value(): State
      reads this
    {
      State(music, step)
    }

    /** ther_buzzer_init: records the task; the record starts zeroed and the pin low. */
    constructor (taskId: uint8)
      ensures Valid() && this.taskId == taskId
      ensures Value() == State(0, 0) && osc == Silent && effects == []
    {
      this.taskId := taskId;
      music, step := 0, 0;
      osc := Silent;
      effects := [];
    }

    /** start_buzzer */
    method StartBuzzer(tone: Tone)
      modifies this`osc, this`effects
      ensures osc == Sounding(TimerControl(tone))
      ensures effects == old(effects) + [ToneOn(tone)]
    {
      osc := Sounding(TimerControl(tone));
      effects := effects + [ToneOn(tone)];
    }

    /** stop_buzzer */
    method StopBuzzer()
      modifies this`osc, this`effects
      ensures osc == Silent
      ensures effects == old(effects) + [ToneOff]
    {
      osc := Silent;
      effects := effects + [ToneOff];
    }

    /** ther_play_music */
    method PlayMusic(m: nat)
      requires Valid() && m < BUZZER_MUSIC_NR
      modifies this
      ensures Valid() && osc == old(osc)
      ensures Value() == Play(old(Value()), m).state
      ensures effects == old(effects) + Play(old(Value()), m).effects
    {
      music := m;
      step := 0;
      effects := effects + [ArmTimer(PLAY_DELAY_MS)];
    }

    /** ther_stop_music */
    method StopMusic()
      requires Valid()
      modifies this
      ensures Valid()
      ensures Value() == Stop(old(Value())).state
      ensures effects == old(effects) + Stop(old(Value())).effects
      ensures osc == OscAfter(old(osc), Stop(old(Value())).effects)
    {
      if step != 0 {
        effects := effects + [CancelTimer];
        StopBuzzer();
        step := 0;
      }
    }

    /** ther_check_music_end */
    method CheckMusicEnd()
      requires Valid()
      modifies this
      ensures Valid()
      ensures Value() == Tick(old(Value())).state
      ensures effects == old(effects) + Tick(old(Value())).effects
      ensures osc == OscAfter(old(osc), Tick(old(Value())).effects)
    {
      if step < PLUSE_NUM {
        if step % 2 == 0 {
          StartBuzzer(MusicTone(music));
        } else {
          StopBuzzer();
        }
        effects := effects + [ArmTimer(MusicPulse(music, step))];
        step := step + 1;
      } else {
        step := 0;
      }
    }
  }
}
