/** The browser viewer and the mini-program page state their per-axis
    boundary policy differently (the viewer tests "oversized" and clamps with
    Math.min(Math.max(...)); the page tests "undersized" and clamps with
    Math.max(min, Math.min(max, ...))). They are the same policy. */
module Agreement {
  import Web
  import MiniProgram

  /** Both corrections give the same translate for every input, including
      the image exactly as wide as the viewport. */
  lemma BoundaryPoliciesAgree(t: real, v: real, scaled: real)
    ensures Web.BoundAxis(t, v, scaled) == MiniProgram.ViewClamp(t, v, scaled)
  {
    if scaled == v {
      assert Web.BoundAxis(t, v, scaled) == 0.0;
    }
  }

  /** The page's correction leaves a position alone exactly when the
      position already obeys the viewer's boundary policy. */
  lemma ViewClampFixesExactlyPlaced(t: real, v: real, scaled: real)
    ensures MiniProgram.ViewClamp(t, v, scaled) == t <==> Web.Placed(t, v, scaled)
  {
    BoundaryPoliciesAgree(t, v, scaled);
  }
}
