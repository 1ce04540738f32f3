/**
 * The reservoir-rotation counter of the PBS distribution step: before each
 * 300 uL draw, the pipette moves on to the next reservoir column only if the
 * volume already drawn from the current one exceeds 1200 uL, and then counts
 * from zero again.
 */
module ResourceTracker {

  /** The high-water mark that makes the next draw use a fresh column. */
  const Limit: int := 1200
  /** The volume of one draw. */
  const DrawVolume: int := 300

  /** The pool position in use and the volume counted against it. */
  datatype Tracker = Tracker(index: nat, used: int)

  /** The check made before a draw. */
  function Check(t: Tracker): Tracker
  {
    if t.used > Limit then Tracker(t.index + 1, 0) else t
  }

  /** The tracker after `k` draws, starting at pool position 0 with nothing drawn. */
  function AfterDraws(k: nat): Tracker
  {
    if k == 0 then Tracker(0, 0)
    else
      var t := Check(AfterDraws(k - 1));
      Tracker(t.index, t.used + DrawVolume)
  }

  /** The pool position the draw numbered `k` (from 0) takes its liquid from. */
  function IndexOfDraw(k: nat): nat
  {
    Check(AfterDraws(k)).index
  }

  lemma {:induction false} AfterDrawsClosedForm(k: nat)
    requires k > 0
    ensures AfterDraws(k) == Tracker((k - 1) / 5, 300 * ((k - 1) % 5 + 1))
  {
    if k > 1 {
      AfterDrawsClosedForm(k - 1);
    }
  }

  /** Draw k uses pool position k / 5: every pool well serves exactly five draws. */
  lemma DrawIndex(k: nat)
    ensures IndexOfDraw(k) == k / 5
    ensures 5 * IndexOfDraw(k) <= k < 5 * IndexOfDraw(k) + 5
  {
    if k > 0 {
      AfterDrawsClosedForm(k);
    }
  }

  /** The counter at the moment of a draw is at most 1200, so one pool well gives
      at most 1500 uL, and never more than the five draws it serves. */
  lemma DrawnBeforeDraw(k: nat)
    ensures 0 <= Check(AfterDraws(k)).used <= Limit
    ensures Check(AfterDraws(k)).used == DrawVolume * (k % 5)
  {
    if k > 0 {
      AfterDrawsClosedForm(k);
    }
  }

  /** The pool position advances by one exactly before draws 5, 10, 15, ...,
      and otherwise stays. */
  lemma RotatesOncePerCrossing(k: nat)
    ensures IndexOfDraw(k + 1) == IndexOfDraw(k) + (if (k + 1) % 5 == 0 then 1 else 0)
  {
    DrawIndex(k);
    DrawIndex(k + 1);
  }

  /** With a pool of four columns, a position outside the pool is reached only at the 21st draw. */
  lemma FourColumnPoolSuffices(k: nat)
    ensures IndexOfDraw(k) < 4 <==> k < 20
  {
    DrawIndex(k);
  }

  /** How many of the first `k` draws come from pool position `j`. */
  function DrawsAt(j: int, k: nat): nat
  {
    if k == 0 then 0 else DrawsAt(j, k - 1) + (if (k - 1) / 5 == j then 1 else 0)
  }

  /** Pool position `j` serves draws 5j to 5j+4: of the first `k` draws, it
      has served none before 5j, then one more per draw, and five at most. */
  lemma {:induction false} DrawsAtClosedForm(j: int, k: nat)
    ensures DrawsAt(j, k) == if j < 0 || k <= 5 * j then 0 else if k >= 5 * j + 5 then 5 else k - 5 * j
  {
    if k > 0 {
      DrawsAtClosedForm(j, k - 1);
    }
  }
}
