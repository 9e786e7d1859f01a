/**
 * Checkbox selections. `handleToggle` (the same code in both dashboards) adds an
 * unselected value at the end and removes a selected one, except that the last
 * selected value cannot be removed. The trends chart's legend toggles a type in
 * `hiddenTypes` with no such guard.
 */
module Selection {
  import opened Seqs

  /** `handleToggle(setter, current, value)`: the array handed to `setter`, or `current` when it returns early. */
  function Toggle(current: seq<string>, value: string): seq<string>
  {
    if value in current && |current| == 1 then current
    else if value in current then Without(current, value)
    else current + [value]
  }

  /** A checkbox selection: non-empty, duplicate-free, and drawn from the options shown. */
  predicate ValidSelection(current: seq<string>, options: seq<string>)
  {
    NoDup(current) && |current| > 0 && forall v :: v in current ==> v in options
  }

  /** Toggling one of the options keeps a selection valid, so a selection is never empty. */
  lemma ToggleKeepsValid(current: seq<string>, options: seq<string>, value: string)
    requires ValidSelection(current, options) && value in options
    ensures ValidSelection(Toggle(current, value), options)
  {
    ToggleKeepsSelection(current, value);
    forall v | v in Toggle(current, value)
      ensures v in options
    {
      if !(value in current && |current| == 1) {
        ToggleFlips(current, value, v);
      }
    }
  }

  /** The legend click: `prev.includes(t) ? prev.filter(x => x !== t) : [...prev, t]`. */
  function ToggleHidden(prev: seq<string>, t: string): seq<string>
  {
    if t in prev then Without(prev, t) else prev + [t]
  }

  /** A duplicate-free selection stays duplicate-free and is never emptied by a toggle. */
  lemma ToggleKeepsSelection(current: seq<string>, value: string)
    requires NoDup(current)
    ensures NoDup(Toggle(current, value))
    ensures |Toggle(current, value)| > 0
  {
    if value in current && |current| > 1 {
      var i :| 0 <= i < |current| && current[i] == value;
      WithoutAt(current, i);
      var j := if i == 0 then 1 else 0;
      assert current[j] in Toggle(current, value);
    }
  }

  /**
   * The three cases of the toggle on a duplicate-free selection: the only selected
   * value stays; another selected value is removed from its position, keeping the
   * others in order; an unselected value goes at the end.
   */
  lemma ToggleCases(current: seq<string>, value: string)
    requires NoDup(current)
    ensures current == [value] ==> Toggle(current, value) == current
    ensures forall i :: 0 <= i < |current| && current[i] == value && |current| > 1 ==>
              Toggle(current, value) == current[..i] + current[i + 1..]
    ensures value !in current ==> Toggle(current, value) == current + [value]
  {
    forall i | 0 <= i < |current| && current[i] == value && |current| > 1
      ensures Toggle(current, value) == current[..i] + current[i + 1..]
    {
      WithoutAt(current, i);
    }
  }

  /** Apart from the guarded case, a toggle flips the membership of `value` and of nothing else. */
  lemma ToggleFlips(current: seq<string>, value: string, x: string)
    requires !(value in current && |current| == 1)
    ensures x in Toggle(current, value) <==> (if x == value then value !in current else x in current)
  {
  }

  /** The legend toggle flips the membership of `t` and of nothing else. */
  lemma ToggleHiddenFlips(prev: seq<string>, t: string, x: string)
    ensures x in ToggleHidden(prev, t) <==> (if x == t then t !in prev else x in prev)
  {
  }

  /**
   * Two clicks on one legend entry restore the hidden set; when the type was not
   * hidden they restore the very array.
   */
  lemma {:induction false} ToggleHiddenTwice(prev: seq<string>, t: string)
    ensures forall x :: x in ToggleHidden(ToggleHidden(prev, t), t) <==> x in prev
    ensures t !in prev ==> ToggleHidden(ToggleHidden(prev, t), t) == prev
  {
    if t !in prev {
      assert t in prev + [t];
      FilterSnoc(prev, t, x => x != t);
      WithoutAbsent(prev, t);
    }
  }

  /** The toggle keeps the hidden list duplicate-free. */
  lemma ToggleHiddenNoDup(prev: seq<string>, t: string)
    requires NoDup(prev)
    ensures NoDup(ToggleHidden(prev, t))
  {
    if t in prev { NoDupWithout(prev, t); }
  }
}
