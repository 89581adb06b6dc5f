/** The speaking/silence debounce: loud samples start speaking at once, and speaking
    stops only when a silence timer, posted on the first quiet sample, fires before
    another loud sample cancels it. Audio levels are kept as ordered reals. */
module AudioLevel {

  datatype AudioState = AudioState(speaking: bool, silencePending: bool)

  const InitialState := AudioState(false, false)

  /** What reaches the processor: a level sample, or the posted silence action being
      run by the handler. */
  datatype AudioInput = Sample(level: real) | SilenceTimerFires

  /** onLevelChanged: the next state and the arguments passed to onIsSpeaking. */
  function OnLevel(s: AudioState, level: real, threshold: real): (r: (AudioState, seq<bool>))
    ensures r.0.speaking <==> s.speaking || level > threshold
    ensures r.0.silencePending <==> level <= threshold && (s.speaking || s.silencePending)
    ensures r.1 == if r.0.speaking != s.speaking then [r.0.speaking] else []
  {
    if level > threshold then
      (AudioState(true, false), if s.speaking then [] else [true])
    else if s.speaking && !s.silencePending then
      (AudioState(s.speaking, true), [])
    else
      (s, [])
  }

  /** The silence action: speaking stops, nothing stays pending, and false is emitted. */
  function OnSilenceTimer(s: AudioState): (r: (AudioState, seq<bool>))
    ensures !r.0.speaking && !r.0.silencePending
    ensures r.1 == [false]
  {
    (AudioState(false, false), [false])
  }

  /** One input. A removed callback never runs, so a timer that is not pending does
      nothing. */
  function Step(s: AudioState, input: AudioInput, threshold: real): (AudioState, seq<bool>)
  {
    match input
    case Sample(level) => OnLevel(s, level, threshold)
    case SilenceTimerFires => if s.silencePending then OnSilenceTimer(s) else (s, [])
  }

  /** A run of inputs: the final state and everything passed to onIsSpeaking. */
  function Run(s: AudioState, inputs: seq<AudioInput>, threshold: real): (AudioState, seq<bool>)
    decreases |inputs|
  {
    if inputs == [] then (s, [])
    else
      var (s1, e1) := Step(s, inputs[0], threshold);
      var (s2, e2) := Run(s1, inputs[1..], threshold);
      (s2, e1 + e2)
  }

  /** The events strictly alternate, starting with true. */
  ghost predicate Alternating(events: seq<bool>)
  {
    forall i :: 0 <= i < |events| ==> events[i] == (i % 2 == 0)
  }

  /** A pending timer implies speaking; the events alternate from true; and the
      processor is speaking exactly when the last event was true. */
  ghost predicate Consistent(s: AudioState, events: seq<bool>)
  {
    (s.silencePending ==> s.speaking) && Alternating(events) && (s.speaking <==> |events| % 2 == 1)
  }

  lemma StepKeepsConsistent(s: AudioState, events: seq<bool>, input: AudioInput, threshold: real)
    requires Consistent(s, events)
    ensures Consistent(Step(s, input, threshold).0, events + Step(s, input, threshold).1)
  {
  }

  /** Every run from a consistent state stays consistent. */
  lemma {:induction false} RunKeepsConsistent(s: AudioState, events: seq<bool>, inputs: seq<AudioInput>, threshold: real)
    requires Consistent(s, events)
    ensures Consistent(Run(s, inputs, threshold).0, events + Run(s, inputs, threshold).1)
    decreases |inputs|
  {
    if inputs != [] {
      var (s1, e1) := Step(s, inputs[0], threshold);
      StepKeepsConsistent(s, events, inputs[0], threshold);
      RunKeepsConsistent(s1, events + e1, inputs[1..], threshold);
      var (s2, e2) := Run(s1, inputs[1..], threshold);
      assert events + e1 + e2 == events + (e1 + e2);
    }
  }

  /** From a fresh processor, onIsSpeaking is called true, false, true, ... whatever
      the samples and timer firings, and a timer is pending only while speaking. */
  lemma EventsAlternateFromStart(inputs: seq<AudioInput>, threshold: real)
    ensures Alternating(Run(InitialState, inputs, threshold).1)
    ensures var s := Run(InitialState, inputs, threshold).0; s.silencePending ==> s.speaking
  {
    RunKeepsConsistent(InitialState, [], inputs, threshold);
    assert [] + Run(InitialState, inputs, threshold).1 == Run(InitialState, inputs, threshold).1;
  }

  lemma RunOne(s: AudioState, input: AudioInput, threshold: real)
    ensures Run(s, [input], threshold) == Step(s, input, threshold)
  {
    assert [input][1..] == [];
    var e := Step(s, input, threshold).1;
    assert e + [] == e;
  }

  /** A dip below the threshold followed by a loud sample before the timer fires emits
      nothing and leaves no timer pending: the stop is cancelled. */
  lemma ShortDipEmitsNothing(quiet: real, loud: real, threshold: real)
    requires quiet <= threshold < loud
    ensures Run(AudioState(true, false), [Sample(quiet), Sample(loud)], threshold) == (AudioState(true, false), [])
  {
    assert [Sample(quiet), Sample(loud)][1..] == [Sample(loud)];
    assert [Sample(loud)][1..] == [];
    RunOne(AudioState(true, true), Sample(loud), threshold);
    var empty: seq<bool> := [];
    assert empty + empty == empty;
  }

  /** A dip followed by the timer firing stops speaking with exactly one false event. */
  lemma DipThenTimerStops(quiet: real, threshold: real)
    requires quiet <= threshold
    ensures Run(AudioState(true, false), [Sample(quiet), SilenceTimerFires], threshold) == (AudioState(false, false), [false])
  {
    assert [Sample(quiet), SilenceTimerFires][1..] == [SilenceTimerFires];
    assert [SilenceTimerFires][1..] == [];
    RunOne(AudioState(true, true), SilenceTimerFires, threshold);
    var empty: seq<bool> := [];
    assert empty + [false] == [false];
  }

  class AudioLevelProcessor {
    const threshold: real
    const silenceDelayMs: nat
    var speaking: bool
    /** Whether silencePending holds the silence action (it is never anything else). */
    var silencePending: bool
    /** How many posts of the silence action wait in the handler. */
    var queuedSilenceActions: nat
    /** The arguments of onIsSpeaking, in call order. */
    var emitted: seq<bool>

    function State(): AudioState
      reads this
    {
      AudioState(speaking, silencePending)
    }

    ghost predicate Valid()
      reads this
    {
      Consistent(State(), emitted) && queuedSilenceActions == (if silencePending then 1 else 0)
    }

    constructor (threshold: real, silenceDelayMs: nat)
      ensures Valid() && State() == InitialState && emitted == []
      ensures this.threshold == threshold && this.silenceDelayMs == silenceDelayMs
    {
      this.threshold := threshold;
      this.silenceDelayMs := silenceDelayMs;
      speaking := false;
      silencePending := false;
      queuedSilenceActions := 0;
      emitted := [];
    }

    method OnLevelChanged(level: real)
      requires Valid()
      modifies this
      ensures Valid()
      ensures State() == OnLevel(old(State()), level, threshold).0
      ensures emitted == old(emitted) + OnLevel(old(State()), level, threshold).1
      // a loud sample cancels any pending timer; true is emitted only when speaking starts
      ensures level > threshold ==> speaking && !silencePending && queuedSilenceActions == 0
      ensures level > threshold ==> emitted == old(emitted) + if old(speaking) then [] else [true]
      // a quiet sample while speaking leaves exactly one timer posted, and emits nothing
      ensures level <= threshold ==> emitted == old(emitted) && speaking == old(speaking)
      ensures level <= threshold && old(speaking) ==> silencePending && queuedSilenceActions == 1
      ensures level <= threshold && !old(speaking) ==> State() == old(State())
    {
      if level > threshold {
        if silencePending {
          queuedSilenceActions := 0;
          silencePending := false;
        }
        if !speaking {
          speaking := true;
          emitted := emitted + [true];
        }
      } else if speaking && !silencePending {
        silencePending := true;
        queuedSilenceActions := queuedSilenceActions + 1;
      }
    }

    /** The handler runs a posted silence action; only a posted one can run. */
    method SilenceTimerFires()
      requires Valid() && queuedSilenceActions > 0
      modifies this
      ensures Valid()
      ensures State() == OnSilenceTimer(old(State())).0 && emitted == old(emitted) + OnSilenceTimer(old(State())).1
      ensures !speaking && !silencePending && queuedSilenceActions == 0 && emitted == old(emitted) + [false]
    {
      queuedSilenceActions := queuedSilenceActions - 1;
      speaking := false;
      silencePending := false;
      emitted := emitted + [false];
    }
  }
}
