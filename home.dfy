/**
 * src/pages/Home.js: the typewriter in the hero banner and the testimonial stars.
 * The typewriter's effect runs once per render; each run that fires is one `Step`
 * (the 2000 ms pause and the 150 ms typing delay only decide when it fires).
 */
module Home {
  import opened JsText

  const Slogans: seq<string> := [
    "Let's Finish What We Started",
    "Build a Stronger Clay City\U{2014}Together",
    "Junior Kabeba for MCA 2027"
  ]

  /** `currentSlogan`, `displayText` and `isDeleting`. */
  datatype TypewriterState = TypewriterState(slogan: int, text: string, deleting: bool)

  /**
   * The typewriter's behaviour is stated for any non-empty list of slogans; the
   * component runs it on `Slogans`.
   */
  predicate Valid(slogans: seq<string>, s: TypewriterState) {
    0 <= s.slogan < |slogans| && StartsWith(slogans[s.slogan], s.text)
  }

  /**
   * One run of the effect: at the end of a slogan start deleting; when a deleted
   * slogan is empty move on to the next one; otherwise show one character more or
   * one fewer of the current slogan. A step keeps the invariant; while typing the
   * text grows by exactly one character and while deleting it shrinks by exactly one.
   */
  function Next(slogans: seq<string>, s: TypewriterState): (r: TypewriterState)
    requires 0 <= s.slogan < |slogans|
    ensures Valid(slogans, s) ==> Valid(slogans, r)
    ensures Valid(slogans, s) && !s.deleting && s.text != slogans[s.slogan] ==>
              |r.text| == |s.text| + 1 && r.slogan == s.slogan && !r.deleting
    ensures Valid(slogans, s) && s.deleting && s.text != "" ==>
              |r.text| == |s.text| - 1 && r.slogan == s.slogan && r.deleting
    ensures !s.deleting && s.text == slogans[s.slogan] ==> r == TypewriterState(s.slogan, s.text, true)
    ensures s.deleting && s.text == "" ==> r == TypewriterState((s.slogan + 1) % |slogans|, "", false)
  {
    var current := slogans[s.slogan];
    if !s.deleting && s.text == current then s.(deleting := true)
    else if s.deleting && s.text == "" then TypewriterState((s.slogan + 1) % |slogans|, s.text, false)
    else if s.deleting then s.(text := SubstringTo(current, |s.text| - 1))
    else s.(text := SubstringTo(current, |s.text| + 1))
  }

  /** `n` runs of the effect. */
  function Run(slogans: seq<string>, s: TypewriterState, n: nat): (r: TypewriterState)
    requires Valid(slogans, s)
    ensures Valid(slogans, r)
    decreases n
  {
    if n == 0 then s else Run(slogans, Next(slogans, s), n - 1)
  }

  lemma {:induction false} RunAdd(slogans: seq<string>, s: TypewriterState, a: nat, b: nat)
    requires Valid(slogans, s)
    ensures Run(slogans, s, a + b) == Run(slogans, Run(slogans, s, a), b)
    decreases a
  {
    if a > 0 {
      var t := Next(slogans, s);
      assert Run(slogans, s, a + b) == Run(slogans, t, (a - 1) + b);
      assert Run(slogans, s, a) == Run(slogans, t, a - 1);
      RunAdd(slogans, t, a - 1, b);
    }
  }

  lemma {:induction false} TypingPhase(slogans: seq<string>, i: int, k: nat)
    requires 0 <= i < |slogans| && k <= |slogans[i]|
    ensures Valid(slogans, TypewriterState(i, slogans[i][..k], false))
    ensures Run(slogans, TypewriterState(i, slogans[i][..k], false), |slogans[i]| - k) == TypewriterState(i, slogans[i], false)
    decreases |slogans[i]| - k
  {
    var current := slogans[i];
    if k == |current| {
      assert current[..k] == current;
    } else {
      var s := TypewriterState(i, current[..k], false);
      assert s.text != current by { assert |s.text| == k; }
      assert Next(slogans, s) == TypewriterState(i, current[..k + 1], false);
      TypingPhase(slogans, i, k + 1);
    }
  }

  lemma {:induction false} DeletingPhase(slogans: seq<string>, i: int, k: nat)
    requires 0 <= i < |slogans| && k <= |slogans[i]|
    ensures Valid(slogans, TypewriterState(i, slogans[i][..k], true))
    ensures Run(slogans, TypewriterState(i, slogans[i][..k], true), k) == TypewriterState(i, "", true)
    decreases k
  {
    var current := slogans[i];
    if k > 0 {
      var s := TypewriterState(i, current[..k], true);
      assert s.text != "" by { assert |s.text| == k; }
      assert Next(slogans, s) == TypewriterState(i, current[..k - 1], true);
      DeletingPhase(slogans, i, k - 1);
    }
  }

  /**
   * Starting from an empty, non-deleting text, the typewriter types the whole slogan,
   * pauses, deletes it and reaches the next slogan's empty start after
   * `2 * |slogan| + 2` steps.
   */
  lemma FullCycle(slogans: seq<string>, i: int)
    requires 0 <= i < |slogans|
    ensures Valid(slogans, TypewriterState(i, "", false))
    ensures Run(slogans, TypewriterState(i, "", false), 2 * |slogans[i]| + 2)
            == TypewriterState((i + 1) % |slogans|, "", false)
  {
    var current := slogans[i];
    var n := |current|;
    var start := TypewriterState(i, "", false);
    assert current[..0] == "";
    TypingPhase(slogans, i, 0);
    var typed := TypewriterState(i, current, false);
    var paused := TypewriterState(i, current, true);
    assert current[..n] == current;
    DeletingPhase(slogans, i, n);
    var emptied := TypewriterState(i, "", true);
    RunAdd(slogans, start, n, 1);
    RunAdd(slogans, start, n + 1, n);
    RunAdd(slogans, start, 2 * n + 1, 1);
    assert Run(slogans, typed, 1) == paused;
    assert Run(slogans, emptied, 1) == TypewriterState((i + 1) % |slogans|, "", false);
  }

  /** The typewriter's three `useState` values. */
  class Typewriter {
    var currentSlogan: int
    var displayText: string
    var isDeleting: bool

    function State(): TypewriterState
      reads this
    {
      TypewriterState(currentSlogan, displayText, isDeleting)
    }

    /** The first slogan, nothing shown yet, typing. */
    constructor ()
      ensures State() == TypewriterState(0, "", false) && Valid(Slogans, State())
    {
      currentSlogan, displayText, isDeleting := 0, "", false;
    }

    /** One run of the `useEffect` that fires (lines 19-44). */
    method Step()
      requires Valid(Slogans, State())
      modifies this
      ensures State() == Next(Slogans, old(State()))
      ensures Valid(Slogans, State())
    {
      var current := Slogans[currentSlogan];
      if !isDeleting && displayText == current {
        isDeleting := true;
      } else if isDeleting && displayText == "" {
        isDeleting := false;
        currentSlogan := (currentSlogan + 1) % |Slogans|;
      } else if isDeleting {
        displayText := SubstringTo(current, |displayText| - 1);
      } else {
        displayText := SubstringTo(current, |displayText| + 1);
      }
    }
  }

  /** `Array(n).fill('★').join('')`: `n` stars. */
  function Stars(n: nat): (r: string)
    ensures |r| == n && forall i :: 0 <= i < |r| ==> r[i] == '\U{2605}'
  {
    if n == 0 then "" else Stars(n - 1) + "\U{2605}"
  }
}
