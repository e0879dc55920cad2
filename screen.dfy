/** The Mini PiTFT screen process: it holds the target weight, the auto-mode
    flag and the cursor of the digit being edited, reacts to two buttons, and
    publishes every change of weight or mode to the shared store. */
module Screen {
  import opened Store
  import opened DigitEdit

  /** The store's form of a weight of h hundredths (a Decimal with two places). */
  function WeightValue(h: nat): (v: Value)
    ensures v.Num? && v.x * 100.0 == h as real
  {
    Num(h as real / 100.0)
  }

  // ---------------------------------------------------------------------------
  // The run loop as a function of the polled buttons

  /** What the screen holds: the weight in hundredths, the mode, the cursor. */
  datatype EditState = EditState(weight: nat, autoMode: bool, cursor: nat)

  /** The effect of one non-shutdown action on the screen's own state. */
  function Apply(st: EditState, a: Action): (st': EditState)
    requires IsCursor(st.cursor)
    ensures IsCursor(st'.cursor)
    ensures st.weight < 10000 ==> st'.weight < 10000
  {
    match a
    case ToggleMode => st.(autoMode := !st.autoMode)
    case Increment =>
      if st.weight < 10000 then IncrementValue(st.weight, st.cursor); st.(weight := IncrementWeight(st.weight, st.cursor))
      else st.(weight := IncrementWeight(st.weight, st.cursor))
    case Advance => st.(cursor := NextCursor(st.cursor))
    case _ => st
  }

  /** What the action publishes: the new weight after an increment, the new
      mode after a toggle, nothing otherwise. */
  function Publish(data: map<string, Value>, st': EditState, a: Action, weightKey: string, modeKey: string): map<string, Value>
  {
    match a
    case Increment => data[weightKey := WeightValue(st'.weight)]
    case ToggleMode => data[modeKey := Flag(st'.autoMode)]
    case _ => data
  }

  /** An increment publishes the new weight and a toggle the new mode; nothing
      else is written, and no other key changes. */
  lemma PublishWrites(data: map<string, Value>, st': EditState, a: Action, weightKey: string, modeKey: string, key: string)
    ensures var r := Publish(data, st', a, weightKey, modeKey);
            && (a == Increment ==> weightKey in r && r[weightKey].Num? && r[weightKey].x * 100.0 == st'.weight as real)
            && (a == ToggleMode ==> modeKey in r && r[modeKey] == Flag(st'.autoMode))
            && (a != Increment && a != ToggleMode ==> r == data)
            && (key != weightKey && key != modeKey ==> (key in r <==> key in data) && (key in data ==> r[key] == data[key]))
  {
  }

  /** The screen's state and the store after a run, and whether it ended in a shutdown. */
  datatype RunOutcome = RunOutcome(state: EditState, data: map<string, Value>, shutdown: bool)

  /** The polling loop over a finite sequence of button samples: each sample is
      dispatched by priority; a hold of button 2 ends the loop. */
  function Replay(st: EditState, data: map<string, Value>, polls: seq<Buttons>, weightKey: string, modeKey: string): (r: RunOutcome)
    requires IsCursor(st.cursor)
    ensures IsCursor(r.state.cursor)
    ensures st.weight < 10000 ==> r.state.weight < 10000
    decreases |polls|
  {
    if polls == [] then RunOutcome(st, data, false)
    else
      var a := Dispatch(polls[0]);
      if a == Shutdown then RunOutcome(st, data, true)
      else
        var st' := Apply(st, a);
        Replay(st', Publish(data, st', a, weightKey, modeKey), polls[1..], weightKey, modeKey)
  }

  /** A run touches no key of the store but the weight's and the mode's. */
  lemma {:induction false} ReplayFrame(st: EditState, data: map<string, Value>, polls: seq<Buttons>, weightKey: string, modeKey: string, key: string)
    requires IsCursor(st.cursor) && key != weightKey && key != modeKey
    ensures var r := Replay(st, data, polls, weightKey, modeKey);
            (key in r.data <==> key in data) && (key in data ==> r.data[key] == data[key])
    decreases |polls|
  {
    if polls != [] {
      var a := Dispatch(polls[0]);
      if a != Shutdown {
        var st' := Apply(st, a);
        ReplayFrame(st', Publish(data, st', a, weightKey, modeKey), polls[1..], weightKey, modeKey, key);
      }
    }
  }

  /** The loop ends in a shutdown exactly when some sample shows button 2 held. */
  lemma {:induction false} ReplayShutdown(st: EditState, data: map<string, Value>, polls: seq<Buttons>, weightKey: string, modeKey: string)
    requires IsCursor(st.cursor)
    ensures Replay(st, data, polls, weightKey, modeKey).shutdown <==> exists k :: 0 <= k < |polls| && polls[k].button2Held
    decreases |polls|
  {
    if polls != [] && !polls[0].button2Held {
      var a := Dispatch(polls[0]);
      var st' := Apply(st, a);
      ReplayShutdown(st', Publish(data, st', a, weightKey, modeKey), polls[1..], weightKey, modeKey);
      if exists k :: 0 <= k < |polls| && polls[k].button2Held {
        var k :| 0 <= k < |polls| && polls[k].button2Held;
        assert polls[1..][k - 1].button2Held;
      }
      if exists k :: 0 <= k < |polls[1..]| && polls[1..][k].button2Held {
        var k :| 0 <= k < |polls[1..]| && polls[1..][k].button2Held;
        assert polls[k + 1].button2Held;
      }
    }
  }

  /** Running two stretches of samples one after the other is running their
      concatenation, unless the first stretch already ended in a shutdown. */
  lemma {:induction false} ReplayAppend(st: EditState, data: map<string, Value>, first: seq<Buttons>, rest: seq<Buttons>, weightKey: string, modeKey: string)
    requires IsCursor(st.cursor)
    ensures var out := Replay(st, data, first, weightKey, modeKey);
            Replay(st, data, first + rest, weightKey, modeKey) ==
              if out.shutdown then out else Replay(out.state, out.data, rest, weightKey, modeKey)
    decreases |first|
  {
    if first == [] {
      assert first + rest == rest;
    } else {
      assert (first + rest)[0] == first[0];
      assert (first + rest)[1..] == first[1..] + rest;
      var a := Dispatch(first[0]);
      if a != Shutdown {
        var st' := Apply(st, a);
        ReplayAppend(st', Publish(data, st', a, weightKey, modeKey), first[1..], rest, weightKey, modeKey);
      }
    }
  }

  /** The store holds the screen's weight and mode under their keys. */
  predicate Mirrors(data: map<string, Value>, st: EditState, weightKey: string, modeKey: string) {
    && weightKey in data && data[weightKey] == WeightValue(st.weight)
    && modeKey in data && data[modeKey] == Flag(st.autoMode)
  }

  /** With distinct keys, once the store mirrors the screen it keeps mirroring it
      after every run: each change of weight or mode is published. */
  lemma {:induction false} ReplayMirrors(st: EditState, data: map<string, Value>, polls: seq<Buttons>, weightKey: string, modeKey: string)
    requires IsCursor(st.cursor) && weightKey != modeKey && Mirrors(data, st, weightKey, modeKey)
    ensures var out := Replay(st, data, polls, weightKey, modeKey);
            Mirrors(out.data, out.state, weightKey, modeKey)
    decreases |polls|
  {
    if polls != [] {
      var a := Dispatch(polls[0]);
      if a != Shutdown {
        var st' := Apply(st, a);
        ReplayMirrors(st', Publish(data, st', a, weightKey, modeKey), polls[1..], weightKey, modeKey);
      }
    }
  }

  /** A sample with only button 1 pressed. */
  const Button1Only := Buttons(true, false, false)

  /** n copies of the same sample. */
  function Repeat(b: Buttons, n: nat): (polls: seq<Buttons>)
    ensures |polls| == n && forall k :: 0 <= k < n ==> polls[k] == b
  {
    if n == 0 then [] else Repeat(b, n - 1) + [b]
  }

  /** n samples of button 1 alone, on a weight below 100.00, advance the digit
      under the cursor n times mod 10 and publish the result; the other places,
      the mode and the cursor stay. */
  lemma {:induction false} RepeatedPresses(p: Places, autoMode: bool, cursor: nat, data: map<string, Value>, n: nat, weightKey: string, modeKey: string)
    requires IsCursor(cursor)
    ensures var out := Replay(EditState(Hundredths(p), autoMode, cursor), data, Repeat(Button1Only, n), weightKey, modeKey);
            && !out.shutdown
            && out.state == EditState(Hundredths(Roll(p, cursor, n)), autoMode, cursor)
            && out.data == if n == 0 then data else data[weightKey := WeightValue(out.state.weight)]
  {
    if n == 0 {
      RollTwice(p, cursor, 0, 0);
    } else {
      RepeatedPresses(p, autoMode, cursor, data, n - 1, weightKey, modeKey);
      PressesStep(p, autoMode, cursor, data, n - 1, weightKey, modeKey);
    }
  }

  /** The induction step of RepeatedPresses: k presses followed by one more. */
  lemma PressesStep(p: Places, autoMode: bool, cursor: nat, data: map<string, Value>, k: nat, weightKey: string, modeKey: string)
    requires IsCursor(cursor)
    requires var mid := Replay(EditState(Hundredths(p), autoMode, cursor), data, Repeat(Button1Only, k), weightKey, modeKey);
             && !mid.shutdown
             && mid.state == EditState(Hundredths(Roll(p, cursor, k)), autoMode, cursor)
             && mid.data == if k == 0 then data else data[weightKey := WeightValue(mid.state.weight)]
    ensures var out := Replay(EditState(Hundredths(p), autoMode, cursor), data, Repeat(Button1Only, k + 1), weightKey, modeKey);
            && !out.shutdown
            && out.state == EditState(Hundredths(Roll(p, cursor, k + 1)), autoMode, cursor)
            && out.data == data[weightKey := WeightValue(out.state.weight)]
  {
    var st := EditState(Hundredths(p), autoMode, cursor);
    var init := Repeat(Button1Only, k);
    assert Repeat(Button1Only, k + 1) == init + [Button1Only];
    ReplayAppend(st, data, init, [Button1Only], weightKey, modeKey);
    var mid := Replay(st, data, init, weightKey, modeKey);
    PressAfterRoll(p, autoMode, cursor, mid.data, k, weightKey, modeKey);
    if k > 0 {
      Overwrite(data, weightKey, WeightValue(mid.state.weight), WeightValue(Hundredths(Roll(p, cursor, k + 1))));
    }
  }

  /** A second write to a key hides the first. */
  lemma Overwrite(data: map<string, Value>, key: string, v: Value, w: Value)
    ensures data[key := v][key := w] == data[key := w]
  {
  }

  lemma PressAfterRoll(p: Places, autoMode: bool, cursor: nat, data: map<string, Value>, k: nat, weightKey: string, modeKey: string)
    requires IsCursor(cursor)
    ensures var st' := EditState(Hundredths(Roll(p, cursor, k + 1)), autoMode, cursor);
            Replay(EditState(Hundredths(Roll(p, cursor, k)), autoMode, cursor), data, [Button1Only], weightKey, modeKey)
              == RunOutcome(st', data[weightKey := WeightValue(st'.weight)], false)
  {
    OnePress(EditState(Hundredths(Roll(p, cursor, k)), autoMode, cursor), data, weightKey, modeKey);
    IncrementAfterRoll(p, cursor, k);
  }

  /** One sample of button 1 alone is one increment, published. */
  lemma OnePress(st: EditState, data: map<string, Value>, weightKey: string, modeKey: string)
    requires IsCursor(st.cursor)
    ensures var st' := st.(weight := IncrementWeight(st.weight, st.cursor));
            Replay(st, data, [Button1Only], weightKey, modeKey) == RunOutcome(st', data[weightKey := WeightValue(st'.weight)], false)
  {
    assert [Button1Only][1..] == [];
  }

  /** Pressing button 1 alone a multiple of ten times leaves a weight below
      100.00 where it was. */
  lemma TenPressesRestore(st: EditState, data: map<string, Value>, n: nat, weightKey: string, modeKey: string)
    requires IsCursor(st.cursor) && st.weight < 10000 && n % 10 == 0
    ensures Replay(st, data, Repeat(Button1Only, n), weightKey, modeKey).state == st
  {
    var p := PlacesOf(st.weight);
    RepeatedPresses(p, st.autoMode, st.cursor, data, n, weightKey, modeKey);
    RollTwice(p, st.cursor, 0, n);
  }

  // ---------------------------------------------------------------------------
  // The application object

  /** The list of the text's characters, with the selected cell replaced in
      place by its successor when it is a digit. */
  method BumpCell(text: seq<char>, i: nat) returns (digits: array<char>)
    requires i < |text|
    ensures fresh(digits) && digits[..] == Bump(text, i)
  {
    digits := new char[|text|](k requires 0 <= k < |text| => text[k]);
    if IsDigit(digits[i]) {
      digits[i] := Succ(digits[i]);
    }
  }

  class MiniPiTFTApp {
    /** The memcache client. */
    const memcache: Memcache
    /** The store keys configured for TARGET_WEIGHT and AUTO_MODE. */
    const weightKey: string
    const modeKey: string

    /** The target weight in hundredths. */
    var targetWeight: nat
    var autoMode: bool
    /** The index of the edited cell of the display text. */
    var digitIndex: nat
    /** Set once the operating system has been told to shut down. */
    var halted: bool

    ghost predicate Valid()
      reads this
    {
      IsCursor(digitIndex)
    }

    function State(): EditState
      reads this
    {
      EditState(targetWeight, autoMode, digitIndex)
    }

    /** Takes the initial weight and mode, publishes both (weight first), and
        starts editing the first cell. */
    constructor (memcache: Memcache, weightKey: string, modeKey: string, targetWeight: nat, autoMode: bool)
      modifies memcache
      ensures Valid() && !halted
      ensures this.memcache == memcache && this.weightKey == weightKey && this.modeKey == modeKey
      ensures State() == EditState(targetWeight, autoMode, 0)
      ensures memcache.data == old(memcache.data)[weightKey := WeightValue(targetWeight)][modeKey := Flag(autoMode)]
      ensures weightKey != modeKey ==> Mirrors(memcache.data, State(), weightKey, modeKey)
    {
      this.memcache := memcache;
      this.weightKey := weightKey;
      this.modeKey := modeKey;
      this.targetWeight := targetWeight;
      this.autoMode := autoMode;
      digitIndex := 0;
      halted := false;
      new;
      SetMemcacheValue(weightKey, WeightValue(targetWeight));
      SetMemcacheValue(modeKey, Flag(autoMode));
    }

    /** The stored value under key, or the default when the key is absent. */
    function GetMemcacheValue(key: string, default: Value): (v: Value)
      reads this, memcache
      ensures key in memcache.data ==> v == memcache.data[key]
      ensures key !in memcache.data ==> v == default
    {
      match memcache.Get(key)
      case None => default
      case Some(stored) => stored
    }

    method SetMemcacheValue(key: string, v: Value)
      modifies memcache
      ensures memcache.data == old(memcache.data)[key := v]
    {
      memcache.Set(key, v);
    }

    /** Bumps the selected cell of the display text, reads the text back as the
        new weight and publishes it. */
    method IncrementDigit()
      requires Valid()
      modifies this, memcache
      ensures Valid() && halted == old(halted)
      ensures State() == old(State()).(weight := IncrementWeight(old(targetWeight), digitIndex))
      ensures memcache.data == old(memcache.data)[weightKey := WeightValue(targetWeight)]
    {
      var h, i := targetWeight, digitIndex;
      var digits := BumpCell(Format(h), i);
      IncrementReadsBump(h, i);
      var weight := ParseFixed(digits[..]);
      assert weight == IncrementWeight(h, i);
      targetWeight := weight;
      SetMemcacheValue(weightKey, WeightValue(weight));
      assert State() == old(State()).(weight := weight);
    }

    /** Advances the cursor modulo five, stepping over the decimal point. */
    method MoveToNextDigit()
      requires Valid()
      modifies this
      ensures Valid()
      ensures State() == old(State()).(cursor := NextCursor(old(digitIndex)))
      ensures halted == old(halted)
    {
      digitIndex := (digitIndex + 1) % 5;
      if digitIndex == 2 {
        digitIndex := 3;
      }
    }

    /** Flips the mode and publishes it. */
    method ToggleAutoMode()
      requires Valid()
      modifies this, memcache
      ensures Valid() && halted == old(halted)
      ensures State() == old(State()).(autoMode := !old(autoMode))
      ensures memcache.data == old(memcache.data)[modeKey := Flag(autoMode)]
    {
      autoMode := !autoMode;
      SetMemcacheValue(modeKey, Flag(autoMode));
    }

    /** Asks the operating system to halt. */
    method ShutdownPi()
      modifies this
      ensures halted
      ensures State() == old(State())
    {
      halted := true;
    }

    /** The polling loop over the given button samples; returns whether it
        stopped on a hold of button 2 (after which the system is halting). */
    method Run(polls: seq<Buttons>) returns (shutdown: bool)
      requires Valid()
      modifies this, memcache
      ensures Valid()
      ensures var out := Replay(old(State()), old(memcache.data), polls, weightKey, modeKey);
              State() == out.state && memcache.data == out.data && shutdown == out.shutdown
      ensures halted == (old(halted) || shutdown)
    {
      shutdown := false;
      var k := 0;
      while k < |polls|
        invariant 0 <= k <= |polls|
        invariant Valid() && halted == old(halted)
        invariant Replay(old(State()), old(memcache.data), polls, weightKey, modeKey)
               == Replay(State(), memcache.data, polls[k..], weightKey, modeKey)
        decreases |polls| - k
      {
        var b := polls[k];
        ghost var st, data := State(), memcache.data;
        assert polls[k..][1..] == polls[k + 1..];
        if b.button2Held {
          ShutdownPi();
          shutdown := true;
          break;
        } else if b.button1Pressed && b.button2Pressed {
          ToggleAutoMode();
        } else if b.button1Pressed {
          IncrementDigit();
        } else if b.button2Pressed {
          MoveToNextDigit();
        }
        assert Replay(st, data, polls[k..], weightKey, modeKey) == Replay(State(), memcache.data, polls[k + 1..], weightKey, modeKey);
        k := k + 1;
      }
    }
  }
}
