/** The site navigation bar: the hover animation that rewrites the company
    name "SKROCK TECH" into "HOPE TECH" one character slot per tick, the
    three-way theme toggle and the scrolled-page test. */
module Navigation {

  const InitialName: string := "SKROCK TECH"
  const TargetName: string := "HOPE TECH"

  /** `Math.max(initialName.length, targetName.length)`: the number of rewriting steps. */
  function MaxLength(): nat
  {
    Max(|InitialName|, |TargetName|)
  }

  function Max(a: nat, b: nat): nat
  {
    if a >= b then a else b
  }

  /** `s.split('')`: one single-character string per character. */
  function Split(s: string): seq<string>
  {
    seq(|s|, k requires 0 <= k < |s| => [s[k]])
  }

  /** `parts.join('')` */
  function Join(parts: seq<string>): string
    decreases |parts|
  {
    if parts == [] then "" else parts[0] + Join(parts[1..])
  }

  lemma {:induction false} JoinAppend(a: seq<string>, b: seq<string>)
    ensures Join(a + b) == Join(a) + Join(b)
    decreases |a|
  {
    if a == [] {
      assert a + b == b;
    } else {
      assert (a + b)[1..] == a[1..] + b;
      JoinAppend(a[1..], b);
    }
  }

  /** Splitting and joining again gives the original string back. */
  lemma {:induction false} JoinSplit(s: string)
    ensures Join(Split(s)) == s
    decreases |s|
  {
    if s != [] {
      assert Split(s)[1..] == Split(s[1..]);
      JoinSplit(s[1..]);
    }
  }

  lemma {:induction false} JoinEmpties(n: nat)
    ensures Join(seq(n, _ => "")) == ""
  {
    if n > 0 {
      assert seq(n, _ => "")[1..] == seq(n - 1, _ => "");
      JoinEmpties(n - 1);
    }
  }

  /** What step `i` writes into slot `i`: `targetName[i] || ''`. */
  function StepPart(target: string, i: nat): string
  {
    if i < |target| then [target[i]] else ""
  }

  /** The `characters` array after `k` steps, starting from `init.split('')`. */
  function MorphParts(init: string, target: string, k: nat): (r: seq<string>)
    requires k <= |init|
    ensures |r| == |init|
  {
    seq(|init|, j requires 0 <= j < |init| => if j < k then StepPart(target, j) else [init[j]])
  }

  function Min(a: nat, b: nat): nat
  {
    if a <= b then a else b
  }

  /** After `k` steps the name shows the first min(k, |target|) characters of
      the target followed by the initial name from position `k` on. */
  lemma MorphShows(init: string, target: string, k: nat)
    requires k <= |init|
    ensures Join(MorphParts(init, target, k)) == target[..Min(k, |target|)] + init[k..]
  {
    var m := Min(k, |target|);
    var a, b, c := Split(target[..m]), seq(k - m, _ => ""), Split(init[k..]);
    MorphPartsSplit(init, target, k);
    JoinAppend(a + b, c);
    JoinAppend(a, b);
    JoinSplit(target[..m]);
    JoinEmpties(k - m);
    JoinSplit(init[k..]);
  }

  /** The slots after `k` steps: target characters, then empty strings for
      the steps past the target's end, then the untouched initial characters. */
  lemma MorphPartsSplit(init: string, target: string, k: nat)
    requires k <= |init|
    ensures MorphParts(init, target, k) ==
            Split(target[..Min(k, |target|)]) + seq(k - Min(k, |target|), _ => "") + Split(init[k..])
  {
    var m := Min(k, |target|);
    var a, b, c := Split(target[..m]), seq(k - m, _ => ""), Split(init[k..]);
    var ps := MorphParts(init, target, k);
    assert |a + b + c| == |ps|;
    forall j | 0 <= j < |ps|
      ensures ps[j] == (a + b + c)[j]
    {
      if j < m {
        assert (a + b + c)[j] == a[j];
      } else if j < k {
        assert (a + b + c)[j] == b[j - m];
      } else {
        assert (a + b + c)[j] == c[j - k];
      }
    }
  }

  /** With this site's two names: 11 steps, after which "HOPE TECH" is shown. */
  lemma MorphCompletes()
    ensures MaxLength() == |InitialName| == 11
    ensures Join(MorphParts(InitialName, TargetName, MaxLength())) == TargetName
    ensures Join(MorphParts(InitialName, TargetName, 0)) == InitialName
  {
    MorphShows(InitialName, TargetName, 11);
    MorphShows(InitialName, TargetName, 0);
    assert InitialName[11..] == "";
    assert InitialName[0..] == InitialName;
  }

  datatype Theme = Light | Dark | System

  datatype Icon = Sun | Moon | Laptop

  /** `cycleTheme`: light to dark, dark to system, anything else to light. */
  function CycleTheme(t: Theme): (r: Theme)
    ensures t == Light ==> r == Dark
    ensures t == Dark ==> r == System
    ensures t == System ==> r == Light
    ensures r != t
  {
    if t == Light then Dark else if t == Dark then System else Light
  }

  /** Three clicks come back to the starting theme, passing through the other two. */
  lemma CycleThemeOrbit(t: Theme)
    ensures CycleTheme(CycleTheme(CycleTheme(t))) == t
    ensures {t, CycleTheme(t), CycleTheme(CycleTheme(t))} == {Light, Dark, System}
  {
  }

  /** `getThemeIcon`: Sun for light, Moon for dark, Laptop otherwise. */
  function ThemeIcon(t: Theme): (r: Icon)
    ensures r == Sun <==> t == Light
    ensures r == Moon <==> t == Dark
  {
    if t == Light then Sun else if t == Dark then Moon else Laptop
  }

  /** `window.scrollY > 50` */
  predicate ScrolledPast(scrollY: real)
  {
    scrollY > 50.0
  }

  /** The component's state: `characters` and `step` are the locals of the
      running hover effect (`characters` and `i` in the source). */
  class NavBar {
    var isScrolled: bool
    var isHoveringCompanyName: bool
    var displayedCompanyName: string
    var characters: array<string>
    var step: nat
    var intervalActive: bool

    ghost predicate Valid()
      reads this, characters
    {
      characters.Length == |InitialName| && step <= MaxLength() && MaxLength() == |InitialName| &&
      characters[..] == MorphParts(InitialName, TargetName, step) &&
      (isHoveringCompanyName ==> displayedCompanyName == Join(characters[..])) &&
      (!isHoveringCompanyName ==> displayedCompanyName == InitialName && !intervalActive)
    }

    constructor ()
      ensures Valid()
      ensures !isScrolled && !isHoveringCompanyName && displayedCompanyName == InitialName
    {
      isScrolled := false;
      isHoveringCompanyName := false;
      displayedCompanyName := InitialName;
      var chars := new string[|InitialName|](k requires 0 <= k < |InitialName| => [InitialName[k]]);
      assert chars[..] == MorphParts(InitialName, TargetName, 0);
      characters := chars;
      step := 0;
      intervalActive := false;
    }

    /** The scroll listener. */
    method HandleScroll(scrollY: real)
      requires Valid()
      modifies this`isScrolled
      ensures Valid()
      ensures isScrolled <==> scrollY > 50.0
    {
      isScrolled := ScrolledPast(scrollY);
    }

    /** `onMouseEnter`: the effect splits the initial name into a fresh
        `characters` array and starts the interval with `i = 0`. */
    method MouseEnter()
      requires Valid()
      modifies this
      ensures Valid() && isHoveringCompanyName
      ensures !old(isHoveringCompanyName) ==>
        fresh(characters) && step == 0 && intervalActive && displayedCompanyName == InitialName
      ensures old(isHoveringCompanyName) ==>
        characters == old(characters) && step == old(step) && intervalActive == old(intervalActive) &&
        displayedCompanyName == old(displayedCompanyName)
      ensures isScrolled == old(isScrolled)
    {
      if !isHoveringCompanyName {
        isHoveringCompanyName := true;
        characters := new string[|InitialName|](k requires 0 <= k < |InitialName| => [InitialName[k]]);
        step := 0;
        intervalActive := true;
        assert characters[..] == MorphParts(InitialName, TargetName, 0);
        MorphCompletes();
      }
    }

    /** `onMouseLeave`: the running interval is cleared and the initial name shown at once. */
    method MouseLeave()
      requires Valid()
      modifies this`isHoveringCompanyName, this`displayedCompanyName, this`intervalActive
      ensures Valid()
      ensures !isHoveringCompanyName && !intervalActive && displayedCompanyName == InitialName
    {
      isHoveringCompanyName := false;
      displayedCompanyName := InitialName;
      intervalActive := false;
    }

    /** One firing of the rewriting interval: slot `i` alone is rewritten and
        `i` advances, or, once every slot is done, the interval clears itself. */
    method MorphTick()
      requires Valid() && intervalActive
      modifies this`displayedCompanyName, this`step, this`intervalActive, characters
      ensures Valid() && isHoveringCompanyName
      ensures old(step) < MaxLength() ==>
        characters[..] == old(characters[..])[old(step) := StepPart(TargetName, old(step))] &&
        step == old(step) + 1 && intervalActive &&
        displayedCompanyName == TargetName[..Min(step, |TargetName|)] + InitialName[step..]
      ensures old(step) >= MaxLength() ==>
        characters[..] == old(characters[..]) && step == old(step) && !intervalActive &&
        displayedCompanyName == old(displayedCompanyName)
    {
      if step < MaxLength() {
        characters[step] := StepPart(TargetName, step);
        assert characters[..] == MorphParts(InitialName, TargetName, step + 1);
        displayedCompanyName := Join(characters[..]);
        step := step + 1;
        MorphShows(InitialName, TargetName, step);
      } else {
        intervalActive := false;
      }
    }

    /** Lets the interval fire until it clears itself; returns how many firings that took. */
    method RunMorph() returns (firings: nat)
      requires Valid() && intervalActive
      modifies this`displayedCompanyName, this`step, this`intervalActive, characters
      ensures Valid() && !intervalActive
      ensures step == MaxLength() && firings == MaxLength() - old(step) + 1
      ensures displayedCompanyName == TargetName
    {
      firings := 0;
      while intervalActive
        invariant Valid() && isHoveringCompanyName
        invariant intervalActive ==> firings == step - old(step)
        invariant !intervalActive ==> firings == MaxLength() - old(step) + 1 && step == MaxLength()
        invariant old(step) <= step
        decreases MaxLength() - step, intervalActive
      {
        MorphTick();
        firings := firings + 1;
      }
      MorphCompletes();
    }
  }
}
