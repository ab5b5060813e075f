/**
 * An audible alarm: triggering it activates it and, unless it is muted,
 * plays its sound; muting it silences it for good; updating it keeps the
 * sound playing while it is active and not muted, and stops it once muted.
 * The sound mixer is outside the model: whether it is busy is an input, and
 * what the alarm tells it is a log of actions.
 */
module Alarms {

  /** What the alarm tells the mixer: play its sound, or stop all sound. */
  datatype Action = Play | Stop

  /** The two flags of an alarm. */
  datatype Flags = Flags(activate: bool, silence: bool)

  /** A call on the alarm; for update, whether the mixer was busy. */
  datatype Event = Trigger | Mute | Update(busy: bool)

  /** The flags after one call and the actions it sends to the mixer. */
  function Step(f: Flags, e: Event): (Flags, seq<Action>) {
    match e
    case Trigger => (f.(activate := true), if f.silence then [] else [Play])
    case Mute => (f.(silence := true), [])
    case Update(busy) =>
      if !f.activate then (f, [])
      else if busy then (f, if f.silence then [Stop] else [])
      else (f, if f.silence then [] else [Play])
  }

  /** The flags after a series of calls, first to last, and all the actions they send. */
  function Run(f: Flags, events: seq<Event>): (Flags, seq<Action>) {
    if events == [] then (f, [])
    else
      var before := Run(f, events[..|events| - 1]);
      var last := Step(before.0, events[|events| - 1]);
      (last.0, before.1 + last.1)
  }

  class Alarm {
    const tier: int
    const triggerProbability: real
    const damageConstant: real
    const resolution: real
    const soundFileName: string
    var activate: bool
    var silence: bool
    /** Every action sent to the mixer so far. */
    var actions: seq<Action>

    function State(): Flags
      reads this
    {
      Flags(activate, silence)
    }

    constructor (tier: int, triggerProbability: real, damageConstant: real, resolution: real,
                 soundFileName: string, activate: bool, silence: bool)
      ensures this.tier == tier && this.triggerProbability == triggerProbability
      ensures this.damageConstant == damageConstant && this.resolution == resolution
      ensures this.soundFileName == soundFileName
      ensures this.activate == activate && this.silence == silence && actions == []
    {
      this.tier := tier;
      this.triggerProbability := triggerProbability;
      this.damageConstant := damageConstant;
      this.resolution := resolution;
      this.soundFileName := soundFileName;
      this.activate := activate;
      this.silence := silence;
      actions := [];
    }

    /** trigger: activate the alarm and play its sound unless it is muted. */
    method Trigger()
      modifies this
      ensures State() == Step(old(State()), Event.Trigger).0
      ensures actions == old(actions) + Step(old(State()), Event.Trigger).1
    {
      activate := true;
      if !silence {
        actions := actions + [Play];
      }
    }

    /** mute: silence the alarm. */
    method Mute()
      modifies this
      ensures State() == Step(old(State()), Event.Mute).0
      ensures actions == old(actions) + Step(old(State()), Event.Mute).1
    {
      silence := true;
    }

    /**
     * update, with `busy` for whether the mixer is playing: an active alarm
     * stops the sound once muted and plays it again when it has ended.
     */
    method Update(busy: bool)
      modifies this
      ensures State() == Step(old(State()), Event.Update(busy)).0
      ensures actions == old(actions) + Step(old(State()), Event.Update(busy)).1
    {
      if activate {
        if busy {
          if silence {
            actions := actions + [Stop];
          }
        } else {
          if !silence {
            actions := actions + [Play];
          }
        }
      }
    }
  }

  /** trigger always activates the alarm, muted or not, and plays the sound exactly when it is not muted. */
  lemma {:induction false} TriggerActivates(f: Flags)
    ensures Step(f, Trigger).0.activate && Step(f, Trigger).0.silence == f.silence
    ensures Play in Step(f, Trigger).1 <==> !f.silence
  {
  }

  /** mute silences the alarm, changes nothing else, and muting twice is muting once. */
  lemma {:induction false} MuteIdempotent(f: Flags)
    ensures Step(f, Mute) == (Flags(f.activate, true), [])
    ensures Step(Step(f, Mute).0, Mute) == Step(f, Mute)
  {
  }

  /**
   * update leaves the flags alone; an inactive alarm does nothing; an
   * active one stops the sound when the mixer is busy and it is muted,
   * plays it when the mixer is idle and it is not muted, and otherwise
   * does nothing.
   */
  lemma {:induction false} UpdateCases(f: Flags, busy: bool)
    ensures Step(f, Update(busy)).0 == f
    ensures Step(f, Update(busy)).1 ==
              if f.activate && busy && f.silence then [Stop]
              else if f.activate && !busy && !f.silence then [Play]
              else []
  {
  }

  /** No call ever clears the activate or the silence flag. */
  lemma {:induction false} FlagsOnlyRise(f: Flags, events: seq<Event>)
    ensures f.activate ==> Run(f, events).0.activate
    ensures f.silence ==> Run(f, events).0.silence
  {
    if events != [] {
      FlagsOnlyRise(f, events[..|events| - 1]);
    }
  }

  /** Once muted, an alarm never plays its sound again, whatever calls follow. */
  lemma {:induction false} MutedNeverPlays(f: Flags, events: seq<Event>)
    requires f.silence
    ensures Play !in Run(f, events).1
  {
    if events != [] {
      var init := events[..|events| - 1];
      MutedNeverPlays(f, init);
      FlagsOnlyRise(f, init);
    }
  }

  /** An alarm that was never triggered sends nothing to the mixer while it is only updated or muted. */
  lemma {:induction false} InactiveStaysQuiet(f: Flags, events: seq<Event>)
    requires !f.activate
    requires forall i :: 0 <= i < |events| ==> events[i] != Trigger
    ensures !Run(f, events).0.activate && Run(f, events).1 == []
  {
    if events != [] {
      var init := events[..|events| - 1];
      assert forall i :: 0 <= i < |init| ==> init[i] == events[i];
      InactiveStaysQuiet(f, init);
      assert events[|events| - 1] != Trigger;
    }
  }

  /** Muting, then triggering: the alarm is active and silent and has played nothing. */
  lemma {:induction false} MuteThenTrigger(f: Flags)
    ensures Run(f, [Mute, Trigger]) == (Flags(true, true), [])
  {
    var none: seq<Action> := [];
    assert [Mute][..0] == [];
    assert Run(f, []) == (f, none);
    var r1 := Run(f, [Mute]);
    assert r1.1 == none + none == none;
    assert [Mute, Trigger][..1] == [Mute];
    var r2 := Run(f, [Mute, Trigger]);
    assert r2.1 == r1.1 + none == none;
  }
}
