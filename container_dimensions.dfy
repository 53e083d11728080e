/** The visualizer's container-size tracker: a width and height that start
    at 800 by 600 and take a new measurement only when both sides are
    positive, refreshed at most once per animation frame however many resize
    notifications arrive. The observer, the frame scheduler and the window
    listener become the step methods below. */
module ContainerDimensions {

  const DEFAULT_WIDTH: int := 800
  const DEFAULT_HEIGHT: int := 600

  /** One measured side: `client || offset`, the client size unless it is 0. */
  function Side(client: nat, offset: nat): (r: nat)
    ensures client != 0 ==> r == client
    ensures client == 0 ==> r == offset
  {
    if client != 0 then client else offset
  }

  /** The size a measurement leads to: the measured sides when both are
      positive, otherwise the size already held. */
  function Resized(width: int, height: int, clientW: nat, offsetW: nat, clientH: nat, offsetH: nat): (r: (int, int))
    ensures Side(clientW, offsetW) > 0 && Side(clientH, offsetH) > 0 ==> r == (Side(clientW, offsetW), Side(clientH, offsetH))
    ensures Side(clientW, offsetW) == 0 || Side(clientH, offsetH) == 0 ==> r == (width, height)
  {
    var w := Side(clientW, offsetW);
    var h := Side(clientH, offsetH);
    if w > 0 && h > 0 then (w, h) else (width, height)
  }

  /** A size that is already positive stays positive across any measurement. */
  lemma ResizedPositive(width: int, height: int, clientW: nat, offsetW: nat, clientH: nat, offsetH: nat)
    requires width > 0 && height > 0
    ensures Resized(width, height, clientW, offsetW, clientH, offsetH).0 > 0
    ensures Resized(width, height, clientW, offsetW, clientH, offsetH).1 > 0
  {
  }

  class Dimensions {
    var width: int
    var height: int
    /** Animation frames requested and not yet run or cancelled. */
    var pendingFrames: nat

    /** Both sides positive, and at most one frame pending. */
    predicate Valid()
      reads this
    {
      width > 0 && height > 0 && pendingFrames <= 1
    }

    /** The initial 800 by 600, nothing scheduled. */
    constructor ()
      ensures Valid()
      ensures width == DEFAULT_WIDTH && height == DEFAULT_HEIGHT && pendingFrames == 0
    {
      width := DEFAULT_WIDTH;
      height := DEFAULT_HEIGHT;
      pendingFrames := 0;
    }

    /** `updateSize`, with the element's four measurements. */
    method UpdateSize(clientW: nat, offsetW: nat, clientH: nat, offsetH: nat)
      requires Valid()
      modifies this
      ensures Valid()
      ensures (width, height) == Resized(old(width), old(height), clientW, offsetW, clientH, offsetH)
      ensures pendingFrames == old(pendingFrames)
    {
      var w := Side(clientW, offsetW);
      var h := Side(clientH, offsetH);
      if w > 0 && h > 0 {
        width, height := w, h;
      }
    }

    /** The resize observer's callback: cancel the pending frame, request a
        new one. */
    method Observed()
      requires Valid()
      modifies this
      ensures Valid()
      ensures pendingFrames == 1 && width == old(width) && height == old(height)
    {
      pendingFrames := 0;
      pendingFrames := pendingFrames + 1;
    }

    /** The requested frame runs `updateSize`. */
    method FrameFired(clientW: nat, offsetW: nat, clientH: nat, offsetH: nat)
      requires Valid() && pendingFrames == 1
      modifies this
      ensures Valid()
      ensures pendingFrames == 0
      ensures (width, height) == Resized(old(width), old(height), clientW, offsetW, clientH, offsetH)
    {
      pendingFrames := 0;
      UpdateSize(clientW, offsetW, clientH, offsetH);
    }

    /** Unmounting disconnects the observer and cancels the pending frame. */
    method Cleanup()
      requires Valid()
      modifies this
      ensures Valid()
      ensures pendingFrames == 0 && width == old(width) && height == old(height)
    {
      pendingFrames := 0;
    }
  }
}
