/**
  Step navigation of the onboarding wizard: the clamp applied to every step
  change, the rule of the primary button, the progress dots, the trimming of
  the login fields and the feature toggles. Together they decide whether the
  live preview wants the camera.
 */
module Navigation {

  /** The login step: the primary button needs an e-mail or a password there. */
  const LoginStep: int := 2
  /** The live-preview step: the only step on which the camera runs. */
  const PreviewStep: int := 3
  /**
    The step whose primary button starts the wizard over. The number is fixed
    in the code; it is not the count of step sections on the page.
   */
  const ResetStep: int := 7

  function Min(a: int, b: int): int {
    if a <= b then a else b
  }

  function Max(a: int, b: int): int {
    if a >= b then a else b
  }

  /** `Math.min(Math.max(n, 1), total)`: a requested step brought into range. */
  function Clamp(n: int, total: int): (r: int)
    ensures total >= 1 ==> 1 <= r <= total
    ensures 1 <= n <= total ==> r == n
    ensures total >= 1 && n < 1 ==> r == 1
    ensures n > total ==> r == total
  {
    Min(Max(n, 1), total)
  }

  /** The primary button is disabled on the login step while both fields are empty. */
  function PrimaryDisabled(step: int, email: string, password: string): (disabled: bool)
    ensures step != LoginStep ==> !disabled
    ensures step == LoginStep ==> (disabled <==> |email| + |password| == 0)
  {
    step == LoginStep && email == "" && password == ""
  }

  /** The step the enabled primary button leads to. */
  function PrimaryTarget(step: int, total: int): (r: int)
    requires 1 <= step <= total
    ensures 1 <= r <= total
    ensures step == ResetStep ==> r == 1
    ensures step != ResetStep && step < total ==> r == step + 1
    ensures step != ResetStep && step == total ==> r == step
  {
    if step == ResetStep then 1 else Clamp(step + 1, total)
  }

  /** The classes of one progress dot. */
  datatype Dot = Dot(active: bool, complete: bool)

  /** Dot `index` (counted from 0) stands for step `index + 1`. */
  function DotAt(index: nat, step: int): Dot {
    Dot(index + 1 == step, index + 1 < step)
  }

  /** The classes of the first `count` dots. */
  function Dots(count: nat, step: int): (ds: seq<Dot>)
    ensures |ds| == count
  {
    if count == 0 then [] else Dots(count - 1, step) + [DotAt(count - 1, step)]
  }

  function CountActive(ds: seq<Dot>): nat {
    if ds == [] then 0 else CountActive(ds[..|ds| - 1]) + (if ds[|ds| - 1].active then 1 else 0)
  }

  function CountComplete(ds: seq<Dot>): nat {
    if ds == [] then 0 else CountComplete(ds[..|ds| - 1]) + (if ds[|ds| - 1].complete then 1 else 0)
  }

  /** Dot `i` carries the classes of step `i + 1`. */
  lemma {:induction false} DotsAt(count: nat, step: int, i: nat)
    requires i < count
    ensures Dots(count, step)[i] == DotAt(i, step)
  {
    if i < count - 1 {
      DotsAt(count - 1, step, i);
    }
  }

  /**
    Exactly one dot is active when the step is in range, and the dots before
    it, and only those, are complete.
   */
  lemma {:induction false} ProgressCounts(count: nat, step: int)
    ensures CountActive(Dots(count, step)) == (if 1 <= step <= count then 1 else 0)
    ensures CountComplete(Dots(count, step)) == Max(0, Min(step - 1, count))
  {
    if count > 0 {
      ProgressCounts(count - 1, step);
      var ds := Dots(count, step);
      assert ds[..count - 1] == Dots(count - 1, step);
      assert ds[count - 1] == DotAt(count - 1, step);
    }
  }

  /** The characters String.prototype.trim removes: white space and line terminators. */
  predicate IsSpace(c: char) {
    var n := c as int;
    n == 0x9 || n == 0xA || n == 0xB || n == 0xC || n == 0xD || n == 0x20 || n == 0xA0
    || n == 0x1680 || 0x2000 <= n <= 0x200A || n == 0x2028 || n == 0x2029 || n == 0x202F
    || n == 0x205F || n == 0x3000 || n == 0xFEFF
  }

  /** Drops the leading white space: what is left is a suffix that starts with a non-space. */
  function TrimStart(s: string): (r: string)
    ensures |r| <= |s| && r == s[|s| - |r|..]
    ensures forall i | 0 <= i < |s| - |r| :: IsSpace(s[i])
    ensures r != [] ==> !IsSpace(r[0])
  {
    if s != [] && IsSpace(s[0]) then TrimStart(s[1..]) else s
  }

  /** Drops the trailing white space: what is left is a prefix that ends with a non-space. */
  function TrimEnd(s: string): (r: string)
    ensures |r| <= |s| && r == s[..|r|]
    ensures forall i | |r| <= i < |s| :: IsSpace(s[i])
    ensures r != [] ==> !IsSpace(r[|r| - 1])
  {
    if s != [] && IsSpace(s[|s| - 1]) then TrimEnd(s[..|s| - 1]) else s
  }

  /**
    `value.trim()`, applied to what the user types in the login fields: what is
    left is empty exactly when the input was all white space, and otherwise
    neither starts nor ends with white space.
   */
  function Trim(s: string): (r: string)
    ensures |r| <= |s|
    ensures r == "" <==> forall i | 0 <= i < |s| :: IsSpace(s[i])
    ensures r != "" ==> !IsSpace(r[0]) && !IsSpace(r[|r| - 1])
  {
    var t := TrimStart(s);
    var r := TrimEnd(t);
    if r != "" then
      assert r[0] == t[0];
      assert !IsSpace(s[|s| - |t|]);
      r
    else if t == "" then
      assert forall i | 0 <= i < |s| :: IsSpace(s[i]);
      r
    else
      r
  }

  /**
    A trimmed field is empty exactly when everything typed was white space;
    otherwise it neither starts nor ends with white space, and trimming it
    again changes nothing.
   */
  lemma TrimProperties(s: string)
    ensures Trim(s) == "" <==> forall i | 0 <= i < |s| :: IsSpace(s[i])
    ensures Trim(s) != "" ==> !IsSpace(Trim(s)[0]) && !IsSpace(Trim(s)[|Trim(s)| - 1])
    ensures Trim(Trim(s)) == Trim(s)
  {
    var t := TrimStart(s);
    var r := TrimEnd(t);
    if r != "" {
      assert r[0] == t[0];
      assert !IsSpace(s[|s| - |t|]);
    }
    if t == "" {
      assert forall i | 0 <= i < |s| :: IsSpace(s[i]);
    }
  }

  /** The feature toggles of the wizard, keyed by the buttons' data-toggle names. */
  type Toggles = map<string, bool>

  /** The toggles at start and after a reset. */
  const DefaultToggles: Toggles := map["mic" := true, "cam" := true, "opts" := false]

  /**
    `Boolean(toggles[key])`: a missing key reads as off. Keys are taken to be
    plain names such as mic, cam and opts; a key named after an inherited
    member of a JavaScript object would read as on there.
   */
  predicate IsOn(t: Toggles, key: string) {
    key in t && t[key]
  }

  /** `toggles[key] = !toggles[key]`: turns one toggle over and leaves the others alone. */
  function Flip(t: Toggles, key: string): (r: Toggles)
    ensures IsOn(r, key) == !IsOn(t, key)
    ensures key in r
    ensures forall k | k != key :: (k in r <==> k in t) && (k in t ==> r[k] == t[k])
  {
    t[key := !IsOn(t, key)]
  }

  /** The camera is wanted exactly on the preview step with the camera toggle on. */
  function CameraWanted(step: int, t: Toggles): (wanted: bool)
    ensures step != PreviewStep ==> !wanted
    ensures step == PreviewStep ==> (wanted <==> "cam" in t && t["cam"])
    ensures step == PreviewStep && t == DefaultToggles ==> wanted
  {
    step == PreviewStep && IsOn(t, "cam")
  }

  /** Clicking a toggle twice leaves every toggle reading as it did. */
  lemma FlipTwice(t: Toggles, key: string, k: string)
    ensures IsOn(Flip(Flip(t, key), key), k) == IsOn(t, k)
  {
  }
}
