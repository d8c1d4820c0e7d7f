/**
 * The card's animation lifecycle: the pending `requestAnimationFrame` handle
 * (`_animationFrame`), the viewport flag (`_isVisible`), the document-hidden
 * flag, and the canvas, 2D context and `hass` object that a frame needs. The
 * browser's side is the set of frame callbacks it still holds; handles are
 * positive, as `requestAnimationFrame` returns them.
 */
module Card {
  import opened Wrappers
  import Scene
  import P = Particles
  import Lightning

  type Handle = h: nat | h > 0 witness 1

  /**
   * The stars a (re)start leaves: the existing ones when there were any,
   * otherwise `StarCount` fresh ones, star k drawn from `draws` at 5k..5k+4.
   */
  ghost predicate Seeded(before: seq<P.Star>, after: seq<P.Star>, draws: P.Stream, w: real, h: real)
    requires P.Uniform(draws) && w >= 0.0 && h >= 0.0
  {
    && (before != [] ==> after == before)
    && (before == [] ==> |after| == P.StarCount)
    && (before == [] ==> forall k :: 0 <= k < |after| ==> after[k] == P.NewStar(draws, 5 * k, w, h))
  }

  class HouseCard {
    const engine: Scene.Engine
    /** `_animationFrame`: the last handle requested, or null. */
    var frame: Option<Handle>
    /** The frame callbacks the browser still holds. */
    var requested: set<Handle>
    /** The handle the next request returns. */
    var nextHandle: Handle
    var isVisible: bool
    var documentHidden: bool
    var hasCanvas: bool
    var hasCtx: bool
    var hasHass: bool

    /** Whether `_animate` passes its guard. */
    predicate Ready()
      reads this
    {
      hasCtx && hasHass && hasCanvas
    }

    /**
     * At most one frame callback is outstanding, and it is the one the card
     * holds; the handles given out so far are below `nextHandle`.
     */
    ghost predicate Valid()
      reads this, engine
    {
      && engine.Valid()
      && requested == (if frame.Some? then {frame.value} else {})
      && (frame.Some? ==> frame.value < nextHandle)
    }

    /** A new card; `hidden` is the browser's `document.hidden` at that moment (a background tab may already be hidden). */
    constructor (hidden: bool)
      ensures Valid() && fresh(engine)
      ensures frame == None && requested == {} && !isVisible && documentHidden == hidden
      ensures !hasCanvas && !hasCtx && !hasHass
      ensures engine.Snapshot() == Scene.SceneState([], [], [], [], [], 0, [], Lightning.Storm(0, None, 0.0), 0.0)
    {
      engine := new Scene.Engine();
      frame, requested, nextHandle := None, {}, 1;
      isVisible, documentHidden := false, hidden;
      hasCanvas, hasCtx, hasHass := false, false, false;
    }

    /** `_render` creates the canvas and its context and assumes the card is visible. */
    method Render()
      requires Valid()
      modifies this`hasCanvas, this`hasCtx, this`isVisible
      ensures Valid() && hasCanvas && hasCtx && isVisible
    {
      hasCanvas, hasCtx, isVisible := true, true, true;
    }

    /** `_stopAnimation`: cancel the held request, if any, and forget it. */
    method Stop()
      modifies this`frame, this`requested
      ensures frame == None
      ensures old(frame).Some? ==> requested == old(requested) - {old(frame).value}
      ensures old(frame).None? ==> requested == old(requested)
    {
      if frame.Some? {
        requested := requested - {frame.value};
        frame := None;
      }
    }

    /**
     * `_animate`: without canvas, context or `hass` it clears the handle and
     * schedules nothing; otherwise it runs one frame and requests the next.
     * It is only entered with no callback outstanding (the held handle, if any,
     * is the one that just fired).
     */
    method Animate(input: Scene.FrameInput)
      requires engine.Valid() && Scene.Fair(input.draws) && requested == {}
      requires frame.Some? ==> frame.value < nextHandle
      modifies this`frame, this`requested, this`nextHandle, engine
      ensures Valid()
      ensures !Ready() ==> frame == None && unchanged(engine) && nextHandle == old(nextHandle)
      ensures Ready() ==> frame == Some(old(nextHandle)) && nextHandle == old(nextHandle) + 1
      ensures Ready() ==> engine.Snapshot() == Scene.NextFrame(old(engine.Snapshot()), input)
    {
      if !hasCtx || !hasHass || !hasCanvas {
        frame := None;
        return;
      }
      engine.Frame(input);
      RequestFrame();
    }

    /** `requestAnimationFrame(() => this._animate())`: a fresh handle, now the only pending request. */
    method RequestFrame()
      requires requested == {}
      modifies this`frame, this`requested, this`nextHandle
      ensures frame == Some(old(nextHandle)) && requested == {old(nextHandle)}
      ensures nextHandle == old(nextHandle) + 1
    {
      frame := Some(nextHandle);
      requested := requested + {nextHandle};
      nextHandle := nextHandle + 1;
    }

    /** The browser runs the callback for handle `h`, which calls `_animate`. */
    method FrameFired(h: Handle, input: Scene.FrameInput)
      requires Valid() && h in requested && Scene.Fair(input.draws)
      modifies this`frame, this`requested, this`nextHandle, engine
      ensures Valid()
      ensures !Ready() ==> frame == None && unchanged(engine)
      ensures Ready() ==> frame == Some(old(nextHandle)) && engine.Snapshot() == Scene.NextFrame(old(engine.Snapshot()), input)
    {
      requested := requested - {h};
      Animate(input);
    }

    /** Seed the stars when there are none, then animate: the start shared by restart and auto-start. */
    method Start(input: Scene.FrameInput, starDraws: P.Stream)
      requires engine.Valid() && Scene.Fair(input.draws) && requested == {} && frame.None?
      requires P.Uniform(starDraws) && input.width >= 0.0 && input.height >= 0.0
      requires Ready()
      modifies this`frame, this`requested, this`nextHandle, engine
      ensures Valid() && frame == Some(old(nextHandle))
      ensures old(engine.stars) != [] ==> engine.stars == old(engine.stars)
      ensures old(engine.stars) == [] ==> |engine.stars| == P.StarCount
      ensures old(engine.stars) == [] ==>
        forall k :: 0 <= k < |engine.stars| ==> engine.stars[k] == P.NewStar(starDraws, 5 * k, input.width, input.height)
      ensures engine.Snapshot() == Scene.NextFrame(old(engine.Snapshot()).(stars := engine.stars), input)
    {
      if |engine.stars| == 0 {
        engine.InitStars(starDraws, input.width, input.height);
      }
      Animate(input);
    }

    /**
     * `_restartAnimation`: nothing while the document is hidden or the card is
     * out of view; otherwise cancel the held request first, then start when
     * canvas, context and `hass` are all there.
     */
    method Restart(input: Scene.FrameInput, starDraws: P.Stream)
      requires Valid() && Scene.Fair(input.draws)
      requires P.Uniform(starDraws) && input.width >= 0.0 && input.height >= 0.0
      modifies this`frame, this`requested, this`nextHandle, engine
      ensures Valid()
      ensures documentHidden || !isVisible ==>
        frame == old(frame) && requested == old(requested) && unchanged(engine)
      ensures !documentHidden && isVisible && !Ready() ==> frame == None && requested == {} && unchanged(engine)
      ensures !documentHidden && isVisible && Ready() ==> frame == Some(old(nextHandle)) && requested == {old(nextHandle)}
      ensures !documentHidden && isVisible && Ready() ==>
        engine.Snapshot() == Scene.NextFrame(old(engine.Snapshot()).(stars := engine.stars), input)
      ensures !documentHidden && isVisible && Ready() ==>
        Seeded(old(engine.stars), engine.stars, starDraws, input.width, input.height)
    {
      if documentHidden || !isVisible {
        return;
      }
      Stop();
      if hasCanvas && hasCtx && hasHass {
        Start(input, starDraws);
      }
    }

    /** `_onVisibilityChange`, with the document's new hidden state. */
    method OnVisibilityChange(hidden: bool, input: Scene.FrameInput, starDraws: P.Stream)
      requires Valid() && Scene.Fair(input.draws)
      requires P.Uniform(starDraws) && input.width >= 0.0 && input.height >= 0.0
      modifies this`documentHidden, this`frame, this`requested, this`nextHandle, engine
      ensures Valid() && documentHidden == hidden
      ensures hidden ==> frame == None && requested == {} && unchanged(engine)
      ensures !hidden && !isVisible ==> frame == old(frame) && requested == old(requested) && unchanged(engine)
      ensures !hidden && isVisible && !Ready() ==> frame == None && requested == {} && unchanged(engine)
      ensures !hidden && isVisible && Ready() ==> frame == Some(old(nextHandle)) && requested == {old(nextHandle)}
      ensures !hidden && isVisible && Ready() ==>
        engine.Snapshot() == Scene.NextFrame(old(engine.Snapshot()).(stars := engine.stars), input)
      ensures !hidden && isVisible && Ready() ==>
        Seeded(old(engine.stars), engine.stars, starDraws, input.width, input.height)
    {
      documentHidden := hidden;
      if documentHidden {
        Stop();
      } else if isVisible {
        Restart(input, starDraws);
      }
    }

    /** The intersection observer callback for one entry. */
    method OnIntersection(isIntersecting: bool, input: Scene.FrameInput, starDraws: P.Stream)
      requires Valid() && Scene.Fair(input.draws)
      requires P.Uniform(starDraws) && input.width >= 0.0 && input.height >= 0.0
      modifies this`isVisible, this`frame, this`requested, this`nextHandle, engine
      ensures Valid() && isVisible == isIntersecting
      ensures old(isVisible) == isIntersecting ==>
        frame == old(frame) && requested == old(requested) && unchanged(engine)
      ensures old(isVisible) && !isIntersecting ==> frame == None && requested == {} && unchanged(engine)
      ensures !old(isVisible) && isIntersecting && documentHidden ==>
        frame == old(frame) && requested == old(requested) && unchanged(engine)
      ensures !old(isVisible) && isIntersecting && !documentHidden && !Ready() ==>
        frame == None && requested == {} && unchanged(engine)
      ensures !old(isVisible) && isIntersecting && !documentHidden && Ready() ==>
        frame == Some(old(nextHandle)) && requested == {old(nextHandle)}
      ensures !old(isVisible) && isIntersecting && !documentHidden && Ready() ==>
        engine.Snapshot() == Scene.NextFrame(old(engine.Snapshot()).(stars := engine.stars), input)
      ensures !old(isVisible) && isIntersecting && !documentHidden && Ready() ==>
        Seeded(old(engine.stars), engine.stars, starDraws, input.width, input.height)
    {
      var wasVisible := isVisible;
      isVisible := isIntersecting;
      if isVisible && !wasVisible {
        Restart(input, starDraws);
      } else if !isVisible && wasVisible {
        Stop();
      }
    }

    /** `disconnectedCallback` stops the animation (the observers it also detaches are not modelled). */
    method Disconnected()
      requires Valid()
      modifies this`frame, this`requested
      ensures Valid() && frame == None && requested == {}
    {
      Stop();
    }

    /** `set hass` then the auto-start at the end of `_updateData`: start only when nothing is pending and the card is shown. */
    method SetHass(input: Scene.FrameInput, starDraws: P.Stream)
      requires Valid() && Scene.Fair(input.draws)
      requires P.Uniform(starDraws) && input.width >= 0.0 && input.height >= 0.0
      modifies this`hasHass, this`frame, this`requested, this`nextHandle, engine
      ensures Valid() && hasHass
      ensures old(frame).Some? ==> frame == old(frame) && requested == old(requested)
      ensures old(frame).None? && Ready() && isVisible && !documentHidden ==>
        frame == Some(old(nextHandle)) && requested == {old(nextHandle)}
      ensures !(old(frame).None? && hasCanvas && hasCtx && isVisible && !documentHidden) ==>
        frame == old(frame) && unchanged(engine)
      ensures old(frame).None? && hasCanvas && hasCtx && isVisible && !documentHidden ==>
        engine.Snapshot() == Scene.NextFrame(old(engine.Snapshot()).(stars := engine.stars), input)
      ensures old(frame).None? && hasCanvas && hasCtx && isVisible && !documentHidden ==>
        Seeded(old(engine.stars), engine.stars, starDraws, input.width, input.height)
    {
      hasHass := true;
      if frame.None? && hasCanvas && hasCtx && isVisible && !documentHidden {
        Start(input, starDraws);
      }
    }
  }
}
