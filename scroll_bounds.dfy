/**
 * The boundary arithmetic of `scrollText`, shared by the three scripts. Each script turns the
 * requested amount into an effective delta (negated when mirrored, where mirroring exists) and
 * then rejects it, leaving the offset alone, when it would pass the bottom or the top limit.
 * The scripts differ only in the two limits they pass: the top-anchored ones use top 0 and
 * bottom `totalHeight - containerHeight`; the centred one adds `centerOffset` to both.
 */
module ScrollBounds {
  import opened Wrappers

  /** The heights read from the page: the content element's and the scroll container's. */
  datatype Geometry = Geometry(total: real, container: real)

  /** `totalHeight - containerHeight`. */
  function MaxScroll(g: Geometry): real {
    g.total - g.container
  }

  function Abs(x: real): real {
    if x < 0.0 then -x else x
  }

  /** One scroll attempt by the effective delta `adjusted` from `offset`: None when the move would
      pass the bottom limit (compared by magnitude, as `Math.abs` does) or the top limit. */
  function Attempt(offset: real, adjusted: real, bottom: real, top: real): (r: Option<real>)
    ensures r.Some? ==> r.value == offset + adjusted
    ensures r.Some? && adjusted < 0.0 ==> -bottom < r.value < bottom
    ensures r.Some? && adjusted > 0.0 ==> r.value <= top
    ensures adjusted == 0.0 ==> r == Some(offset)
    ensures adjusted < 0.0 && Abs(offset - Abs(adjusted)) < bottom ==> r == Some(offset + adjusted)
    ensures adjusted > 0.0 && offset + adjusted <= top ==> r == Some(offset + adjusted)
  {
    if adjusted < 0.0 && Abs(offset - Abs(adjusted)) >= bottom then None
    else if adjusted > 0.0 && offset + adjusted > top then None
    else Some(offset + adjusted)
  }

  /** The position the mirror toggle (and, in the centred script, a font-size change) moves the
      content to: `centerOffset` unmirrored, `-maxScroll - centerOffset` mirrored. */
  function MirrorAnchor(mirrored: bool, maxScroll: real, center: real): real {
    if mirrored then -maxScroll - center else center
  }

  /** An offset inside [-bottom, top] stays inside it whatever is attempted. */
  lemma AttemptStaysInBand(offset: real, adjusted: real, bottom: real, top: real)
    requires -bottom <= offset <= top
    ensures Attempt(offset, adjusted, bottom, top).Some? ==>
      -bottom <= Attempt(offset, adjusted, bottom, top).value <= top
  {
  }

  /** A move down that was accepted is undone by the same move up, from any offset at or below the top. */
  lemma DownThenUp(offset: real, step: real, bottom: real, top: real)
    requires step > 0.0 && offset <= top
    requires Attempt(offset, -step, bottom, top).Some?
    ensures Attempt(Attempt(offset, -step, bottom, top).value, step, bottom, top) == Some(offset)
  {
  }

  /** A move up that was accepted is undone by the same move down, from any offset within the bottom limit. */
  lemma UpThenDown(offset: real, step: real, bottom: real, top: real)
    requires step > 0.0 && Abs(offset) < bottom
    requires Attempt(offset, step, bottom, top).Some?
    ensures Attempt(Attempt(offset, step, bottom, top).value, -step, bottom, top) == Some(offset)
  {
  }

  /** n attempts in a row by the same delta, as the playback timer makes them: None once one fails. */
  function Repeat(offset: real, adjusted: real, bottom: real, top: real, n: nat): Option<real>
    decreases n
  {
    if n == 0 then Some(offset)
    else match Attempt(offset, adjusted, bottom, top)
      case None => None
      case Some(next) => Repeat(next, adjusted, bottom, top, n - 1)
  }

  /** After n accepted ticks the offset has moved by exactly n steps and is still within the limit. */
  lemma {:induction false} RepeatMoves(offset: real, adjusted: real, bottom: real, top: real, n: nat)
    requires Repeat(offset, adjusted, bottom, top, n).Some?
    ensures Repeat(offset, adjusted, bottom, top, n).value == offset + (n as real) * adjusted
    ensures n > 0 && adjusted < 0.0 ==> -bottom < Repeat(offset, adjusted, bottom, top, n).value
    ensures n > 0 && adjusted > 0.0 ==> Repeat(offset, adjusted, bottom, top, n).value <= top
    decreases n
  {
    if n > 0 {
      var next := Attempt(offset, adjusted, bottom, top).value;
      RepeatMoves(next, adjusted, bottom, top, n - 1);
      assert (n as real) * adjusted == ((n - 1) as real) * adjusted + adjusted;
    }
  }

  /** Playback always ends: n ticks of `step` downward cannot all succeed once together they
      would cover the distance to the bottom limit. */
  lemma PlaybackStopsDown(offset: real, step: real, bottom: real, top: real, n: nat)
    requires step > 0.0 && n > 0
    ensures (n as real) * step >= offset + bottom ==> Repeat(offset, -step, bottom, top, n) == None
  {
    if Repeat(offset, -step, bottom, top, n).Some? {
      RepeatMoves(offset, -step, bottom, top, n);
      var travel := (n as real) * step;
      assert (n as real) * -step == -travel;
      assert -bottom < offset - travel;
    }
  }

  /** Mirrored playback moves up and ends the same way at the top limit. */
  lemma PlaybackStopsUp(offset: real, step: real, bottom: real, top: real, n: nat)
    requires step > 0.0 && n > 0
    ensures (n as real) * step > top - offset ==> Repeat(offset, step, bottom, top, n) == None
  {
    if Repeat(offset, step, bottom, top, n).Some? {
      RepeatMoves(offset, step, bottom, top, n);
    }
  }
}
