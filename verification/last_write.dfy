/** Sequential conditional assignment: `v := init; if c0 { v := e0 } if c1 { v := e1 } ...`.
    The controller selects each axis speed this way, so the key checked last wins instead of
    opposite keys cancelling. */
module LastWrite {

  /** One `if (enabled) v = value;` statement. */
  datatype Write<T> = Write(enabled: bool, value: T)

  /** Runs the statements in order, starting from `init`. */
  function Assign<T>(init: T, ws: seq<Write<T>>): (r: T)
    ensures r == init || exists i :: 0 <= i < |ws| && ws[i].enabled && r == ws[i].value
    decreases |ws|
  {
    if |ws| == 0 then init
    else Assign(if ws[0].enabled then ws[0].value else init, ws[1..])
  }

  /** No statement fires at or after position `from`. */
  predicate NoneEnabledFrom<T>(ws: seq<Write<T>>, from: int) {
    forall j :: from <= j < |ws| && 0 <= j ==> !ws[j].enabled
  }

  /** The reference meaning of a chain of conditional assignments: the value of the last
      statement whose condition holds, or `init` when none holds. */
  lemma {:induction false} AssignIsLastEnabled<T>(init: T, ws: seq<Write<T>>)
    ensures NoneEnabledFrom(ws, 0) ==> Assign(init, ws) == init
    ensures forall i :: 0 <= i < |ws| && ws[i].enabled && NoneEnabledFrom(ws, i + 1) ==>
              Assign(init, ws) == ws[i].value
    decreases |ws|
  {
    if |ws| > 0 {
      var init' := if ws[0].enabled then ws[0].value else init;
      AssignIsLastEnabled(init', ws[1..]);
      assert forall j :: 1 <= j < |ws| ==> ws[1..][j - 1] == ws[j];
      forall i | 0 <= i < |ws| && ws[i].enabled && NoneEnabledFrom(ws, i + 1)
        ensures Assign(init, ws) == ws[i].value
      {
        if i > 0 {
          assert ws[1..][i - 1] == ws[i];
          assert NoneEnabledFrom(ws[1..], i);
        } else {
          assert NoneEnabledFrom(ws[1..], 0);
        }
      }
      if NoneEnabledFrom(ws, 0) {
        assert NoneEnabledFrom(ws[1..], 0);
      }
    }
  }

  /** Two conditional assignments in a row: the second one wins whenever it fires. */
  lemma SecondWins<T>(init: T, a: Write<T>, b: Write<T>)
    ensures Assign(init, [a, b]) == (if b.enabled then b.value else if a.enabled then a.value else init)
  {
    AssignIsLastEnabled(init, [a, b]);
  }
}
