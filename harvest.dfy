/**
 * `src/components/HarvestSimulation.jsx`: the five-step wine-making game.
 *
 * Every handler reads and writes the component's state; the delayed step
 * changes (`setTimeout(..., 800)`) and the delayed celebration
 * (`setTimeout(..., 500)`) are queued timers that `FireTimer` runs one at a
 * time, oldest first. The layout and animation code is not modelled.
 */
module Harvest {
  import opened Common

  const CRUSH_TARGET: nat := 20
  const BARREL_TARGET: nat := 15
  const BOTTLES: nat := 3

  /** A scheduled callback: `setCurrentStep(s)` or `setShowCelebration(true)`. */
  datatype Timer = AdvanceTo(target: nat) | Celebrate

  class HarvestGame {
    var step: nat
    var grapeInBasket: bool
    var grapeInVat: bool
    var crushClicks: nat
    var barrelChecks: nat
    var bottledCount: nat
    var showCelebration: bool
    var pending: seq<Timer>

    /** Whether the game has reached what a step change to `s` presupposes. */
    predicate ReadyFor(s: nat)
      reads this
    {
      (s == 2 ==> grapeInBasket) && (s == 3 ==> grapeInVat) &&
      (s == 4 ==> crushClicks == CRUSH_TARGET) && (s == 5 ==> barrelChecks == BARREL_TARGET)
    }

    /** The phases stay consistent with the step: counters of later steps are
        still zero, counters of earlier steps are full, and every queued timer
        moves the step by at most one, in order, to a step it is ready for. */
    ghost predicate Valid()
      reads this
    {
      1 <= step <= 5 &&
      crushClicks <= CRUSH_TARGET && barrelChecks <= BARREL_TARGET && bottledCount <= BOTTLES &&
      (step < 3 ==> crushClicks == 0) && (step > 3 ==> crushClicks == CRUSH_TARGET) &&
      (step < 4 ==> barrelChecks == 0) && (step > 4 ==> barrelChecks == BARREL_TARGET) &&
      (step < 5 ==> bottledCount == 0) &&
      (step >= 2 ==> grapeInBasket) && (step >= 3 ==> grapeInVat) &&
      (forall i :: 0 <= i < |pending| && pending[i].AdvanceTo? ==>
         step <= pending[i].target <= step + 1 && pending[i].target <= 5 &&
         (pending[i].target == step + 1 ==> ReadyFor(pending[i].target))) &&
      (forall i, j :: 0 <= i < j < |pending| && pending[i].AdvanceTo? && pending[j].AdvanceTo? ==>
         pending[i].target <= pending[j].target) &&
      (forall i :: 0 <= i < |pending| && pending[i].Celebrate? ==>
         i == |pending| - 1 && step == 5 && bottledCount == BOTTLES) &&
      (showCelebration ==> step == 5 && bottledCount == BOTTLES && pending == [])
    }

    /** The starting state, which the reset button restores. */
    predicate Initial()
      reads this
    {
      step == 1 && !grapeInBasket && !grapeInVat && crushClicks == 0 && barrelChecks == 0 &&
      bottledCount == 0 && !showCelebration && pending == []
    }

    constructor ()
      ensures Valid() && Initial()
    {
      step := 1;
      grapeInBasket := false;
      grapeInVat := false;
      crushClicks := 0;
      barrelChecks := 0;
      bottledCount := 0;
      showCelebration := false;
      pending := [];
    }

    /** End of a drag of the grape bunch; dragging is enabled only in step 1. */
    method GrapeDragEnd(offsetY: int)
      requires Valid()
      modifies this`grapeInBasket, this`pending
      ensures Valid()
      ensures step == 1 && offsetY > 100 ==> grapeInBasket && pending == old(pending) + [AdvanceTo(2)]
      ensures !(step == 1 && offsetY > 100) ==> grapeInBasket == old(grapeInBasket) && pending == old(pending)
    {
      if step == 1 && offsetY > 100 {
        grapeInBasket := true;
        pending := pending + [AdvanceTo(2)];
      }
    }

    /** End of a drag of the basket; dragging is enabled only in step 2. */
    method BasketDragEnd(offsetX: int, offsetY: int)
      requires Valid()
      modifies this`grapeInVat, this`pending
      ensures Valid()
      ensures step == 2 && offsetX < -150 && offsetY > 80 ==> grapeInVat && pending == old(pending) + [AdvanceTo(3)]
      ensures !(step == 2 && offsetX < -150 && offsetY > 80) ==> grapeInVat == old(grapeInVat) && pending == old(pending)
    {
      if step == 2 && offsetX < -150 && offsetY > 80 {
        grapeInVat := true;
        pending := pending + [AdvanceTo(3)];
      }
    }

    /** `handleCrushClick`: counts in step 3 up to 20; the twentieth click
        schedules step 4. */
    method CrushClick()
      requires Valid()
      modifies this`crushClicks, this`pending
      ensures Valid()
      ensures step == 3 && old(crushClicks) < CRUSH_TARGET ==>
                crushClicks == old(crushClicks) + 1 &&
                pending == old(pending) + (if crushClicks == CRUSH_TARGET then [AdvanceTo(4)] else [])
      ensures !(step == 3 && old(crushClicks) < CRUSH_TARGET) ==> crushClicks == old(crushClicks) && pending == old(pending)
    {
      if step == 3 && crushClicks < CRUSH_TARGET {
        var clicks := crushClicks + 1;
        if clicks >= CRUSH_TARGET {
          pending := pending + [AdvanceTo(4)];
          crushClicks := CRUSH_TARGET;
        } else {
          crushClicks := clicks;
        }
      }
    }

    /** `handleBarrelCheck`: counts in step 4 up to 15; the fifteenth check
        schedules step 5. */
    method BarrelCheck()
      requires Valid()
      modifies this`barrelChecks, this`pending
      ensures Valid()
      ensures step == 4 && old(barrelChecks) < BARREL_TARGET ==>
                barrelChecks == old(barrelChecks) + 1 &&
                pending == old(pending) + (if barrelChecks == BARREL_TARGET then [AdvanceTo(5)] else [])
      ensures !(step == 4 && old(barrelChecks) < BARREL_TARGET) ==> barrelChecks == old(barrelChecks) && pending == old(pending)
    {
      if step == 4 && barrelChecks < BARREL_TARGET {
        var checks := barrelChecks + 1;
        if checks >= BARREL_TARGET {
          pending := pending + [AdvanceTo(5)];
          barrelChecks := BARREL_TARGET;
        } else {
          barrelChecks := checks;
        }
      }
    }

    /** `handleBottleClick(i)`: only the next bottle in line counts, and only in
        step 5; the third schedules the celebration. */
    method BottleClick(i: int)
      requires Valid()
      modifies this`bottledCount, this`pending
      ensures Valid()
      ensures step == 5 && old(bottledCount) == i && i < BOTTLES ==>
                bottledCount == i + 1 &&
                pending == old(pending) + (if bottledCount == BOTTLES then [Celebrate] else [])
      ensures !(step == 5 && old(bottledCount) == i && i < BOTTLES) ==>
                bottledCount == old(bottledCount) && pending == old(pending)
    {
      if step == 5 && bottledCount == i && bottledCount < BOTTLES {
        var count := bottledCount + 1;
        if count >= BOTTLES {
          pending := pending + [Celebrate];
          bottledCount := BOTTLES;
        } else {
          bottledCount := count;
        }
      }
    }

    /** The oldest queued timer runs. The step never moves by more than one. */
    method FireTimer()
      requires Valid() && pending != []
      modifies this`step, this`showCelebration, this`pending
      ensures Valid()
      ensures pending == old(pending[1..])
      ensures old(pending[0]).AdvanceTo? ==>
                step == old(pending[0]).target && showCelebration == old(showCelebration)
      ensures old(pending[0]).Celebrate? ==> step == old(step) && showCelebration
      ensures step == old(step) || step == old(step) + 1
    {
      var t := pending[0];
      pending := pending[1..];
      match t {
        case AdvanceTo(s) =>
          step := s;
        case Celebrate =>
          showCelebration := true;
      }
    }

    /** "Új szüret kezdése": the button exists only on the celebration overlay. */
    method Reset()
      requires Valid() && showCelebration
      modifies this
      ensures Valid() && Initial()
    {
      step := 1;
      grapeInBasket := false;
      grapeInVat := false;
      crushClicks := 0;
      barrelChecks := 0;
      bottledCount := 0;
      showCelebration := false;
      pending := [];
    }
  }

  // ---------------------------------------------------------------------
  // Instruction text and progress indicator
  // ---------------------------------------------------------------------

  const INSTRUCTION_1: string := "Fogd meg a szőlőfürtöt és húzd le a kosárba!"
  const INSTRUCTION_2: string := "Húzd a teli kosarat a bal alsó sarokba, a dézsába!"
  // The two long prefixes are written in short pieces, which lets the
  // verifier see that neither contains the marker's opening brace.
  const CRUSH_PREFIX: string := "Kattints többsz" + "ör a dézsára a " + "szőlő tiprásáho" + "z! ("
  const CRUSH_MARK: string := "{crushClicks}"
  const CRUSH_SUFFIX: string := "/20 kattintás)"
  const BARREL_PREFIX: string :=
    "Kattints a hord" + "ókra, hogy elle" + "nőrizd az érlel" + "ési folyamatot!" + " ("
  const BARREL_MARK: string := "{barrelChecks}"
  const BARREL_SUFFIX: string := "/15 ellenőrzés)"
  const INSTRUCTION_5: string := "Kattints minden palackra egyesével a palackozás befejezéséhez!"

  /** `s.replace(pattern, replacement)` with a plain pattern: only the first occurrence. */
  function ReplaceFirst(s: string, pattern: string, replacement: string): string
    requires pattern != []
    decreases |s|
  {
    if |s| < |pattern| then s
    else if s[..|pattern|] == pattern then replacement + s[|pattern|..]
    else [s[0]] + ReplaceFirst(s[1..], pattern, replacement)
  }

  /** When the pattern's first character does not occur before it, the
      pattern's occurrence right after `prefix` is the one replaced. */
  lemma {:induction false} ReplaceFirstAfter(prefix: string, pattern: string, suffix: string, replacement: string)
    requires pattern != [] && pattern[0] !in prefix
    ensures ReplaceFirst(prefix + pattern + suffix, pattern, replacement) == prefix + replacement + suffix
    decreases |prefix|
  {
    var s := prefix + pattern + suffix;
    if prefix == [] {
      assert s == pattern + suffix;
      assert s[..|pattern|] == pattern;
      assert s[|pattern|..] == suffix;
    } else {
      var rest := prefix[1..] + pattern + suffix;
      assert s == [prefix[0]] + rest;
      assert s[0] == prefix[0] && prefix[0] != pattern[0];
      assert s[..|pattern|] != pattern by {
        assert s[..|pattern|][0] == s[0];
      }
      assert s[1..] == rest;
      assert pattern[0] !in prefix[1..] by {
        forall c | c in prefix[1..] ensures c in prefix { }
      }
      ReplaceFirstAfter(prefix[1..], pattern, suffix, replacement);
      assert prefix == [prefix[0]] + prefix[1..];
    }
  }

  /** The crush counter marker's opening brace does not occur before it. */
  lemma CrushMarkerComesFirst()
    ensures CRUSH_MARK[0] !in CRUSH_PREFIX
  {
  }

  /** The barrel counter marker's opening brace does not occur before it. */
  lemma BarrelMarkerComesFirst()
    ensures BARREL_MARK[0] !in BARREL_PREFIX
  {
  }

  /** `renderInstructionText`: steps 3 and 4 show the live counter in place of
      their marker; the other steps show their instruction as written. */
  function InstructionText(step: nat, crushClicks: nat, barrelChecks: nat): (text: string)
    requires 1 <= step <= 5
    ensures step == 3 ==> text == CRUSH_PREFIX + NatToString(crushClicks) + CRUSH_SUFFIX
    ensures step == 4 ==> text == BARREL_PREFIX + NatToString(barrelChecks) + BARREL_SUFFIX
    ensures step == 1 ==> text == INSTRUCTION_1
    ensures step == 2 ==> text == INSTRUCTION_2
    ensures step == 5 ==> text == INSTRUCTION_5
  {
    if step == 3 then
      CrushMarkerComesFirst();
      ReplaceFirstAfter(CRUSH_PREFIX, CRUSH_MARK, CRUSH_SUFFIX, NatToString(crushClicks));
      ReplaceFirst(CRUSH_PREFIX + CRUSH_MARK + CRUSH_SUFFIX, CRUSH_MARK, NatToString(crushClicks))
    else if step == 4 then
      BarrelMarkerComesFirst();
      ReplaceFirstAfter(BARREL_PREFIX, BARREL_MARK, BARREL_SUFFIX, NatToString(barrelChecks));
      ReplaceFirst(BARREL_PREFIX + BARREL_MARK + BARREL_SUFFIX, BARREL_MARK, NatToString(barrelChecks))
    else if step == 1 then INSTRUCTION_1
    else if step == 2 then INSTRUCTION_2
    else INSTRUCTION_5
  }

  /** The crush instruction shows the counter itself: the digits between the
      fixed parts read back as the number of clicks, so different counts give
      different texts. */
  lemma CrushInstructionShowsCount(c: nat, c': nat)
    ensures var t := InstructionText(3, c, 0);
            var digits := t[|CRUSH_PREFIX|..|t| - |CRUSH_SUFFIX|];
            digits == NatToString(c) && ParseNat(digits) == c
    ensures c != c' ==> InstructionText(3, c, 0) != InstructionText(3, c', 0)
  {
    var t := InstructionText(3, c, 0);
    assert t[|CRUSH_PREFIX|..|t| - |CRUSH_SUFFIX|] == NatToString(c);
    ParseNatToString(c);
    if InstructionText(3, c, 0) == InstructionText(3, c', 0) {
      var t' := InstructionText(3, c', 0);
      assert |NatToString(c)| == |NatToString(c')|;
      assert t'[|CRUSH_PREFIX|..|t'| - |CRUSH_SUFFIX|] == NatToString(c');
      NatToStringInjective(c, c');
    }
  }

  /** The progress indicator: the marks of steps 1 to 5 are lit up to the
      current step, so exactly as many marks are lit as the step's number. */
  lemma ProgressCountsStep(step: nat)
    requires 1 <= step <= 5
    ensures CountLit(LitMarks(5, step)) == step
  {
    LitMarksCount(5, step);
  }
}
