/** The game-over overlay (src/game/GameOverScreen.ts): a restart button drawn below the
    centre of the canvas, and a click handler on the canvas that restarts the game when a
    click lands on the button. `activate` installs the handler at most once; clearing it
    removes the handler so that a later activation installs it again.

    The canvas is a class of its own because the screen shares it with the rest of the
    game: its size can change between the drawing and the click, and its `onclick` slot
    belongs to the canvas, not to the screen. The restart callback is recorded as the number
    of times it has been called. */
module GameOverScreens {
  import opened Wrappers

  const ButtonWidth: real := 200.0
  const ButtonHeight: real := 60.0
  /** How far below the canvas centre the button's top edge lies. */
  const ButtonDrop: real := 70.0

  /** An axis-aligned rectangle as `fillRect(x, y, width, height)` takes it. */
  datatype Rect = Rect(x: real, y: real, width: real, height: real)

  /** Whether a point lies on a rectangle, its edges included. */
  predicate Inside(r: Rect, px: real, py: real) {
    r.x <= px <= r.x + r.width && r.y <= py <= r.y + r.height
  }

  /** The rectangle `draw` fills for the restart button on a canvas of the given size: as
      wide as the button, centred horizontally, its top edge `ButtonDrop` below the middle. */
  function ButtonRect(canvasWidth: real, canvasHeight: real): (r: Rect)
    ensures r.width == 200.0 && r.height == 60.0
    ensures r.x + r.width / 2.0 == canvasWidth / 2.0
    ensures r.y == canvasHeight / 2.0 + 70.0
  {
    Rect(canvasWidth / 2.0 - ButtonWidth / 2.0, canvasHeight / 2.0 + ButtonDrop, ButtonWidth, ButtonHeight)
  }

  /** The click handler's own hit test, which works the button's place out again from the
      canvas size at the time of the click. */
  function ClickHits(canvasWidth: real, canvasHeight: real, mouseX: real, mouseY: real): (hit: bool)
    ensures hit <==> canvasWidth / 2.0 - 100.0 <= mouseX <= canvasWidth / 2.0 + 100.0
                     && canvasHeight / 2.0 + 70.0 <= mouseY <= canvasHeight / 2.0 + 130.0
  {
    var buttonX := canvasWidth / 2.0 - ButtonWidth / 2.0;
    var buttonY := canvasHeight / 2.0 + 70.0;
    mouseX >= buttonX && mouseX <= buttonX + ButtonWidth && mouseY >= buttonY && mouseY <= buttonY + ButtonHeight
  }

  /** A click restarts the game exactly when it lands on the button that was drawn, as long
      as the canvas has kept its size in between. */
  lemma DrawnButtonIsHitArea(canvasWidth: real, canvasHeight: real, mouseX: real, mouseY: real)
    ensures ClickHits(canvasWidth, canvasHeight, mouseX, mouseY) <==> Inside(ButtonRect(canvasWidth, canvasHeight), mouseX, mouseY)
  {
  }

  class Canvas {
    var width: real
    var height: real
    /** `canvas.onclick`: the handler installed by a game-over screen, or none. */
    var onclick: Option<GameOverScreen>

    constructor (width: real, height: real)
      ensures this.width == width && this.height == height && onclick == None
    {
      this.width := width;
      this.height := height;
      onclick := None;
    }
  }

  class GameOverScreen {
    const canvas: Canvas
    /** `isListenerActive`. */
    var listenerActive: bool
    /** How many times the restart callback has been called. */
    var restarts: nat

    constructor (canvas: Canvas)
      ensures this.canvas == canvas && !listenerActive && restarts == 0
    {
      this.canvas := canvas;
      listenerActive := false;
      restarts := 0;
    }

    /** `activate()`: the first call installs the click handler on the canvas; a call while
        the handler is active changes nothing. */
    method Activate()
      modifies this`listenerActive, canvas`onclick
      ensures listenerActive
      ensures old(listenerActive) ==> canvas.onclick == old(canvas.onclick)
      ensures !old(listenerActive) ==> canvas.onclick == Some(this)
    {
      if listenerActive {
        return;
      }
      listenerActive := true;
      canvas.onclick := Some(this);
    }

    /** `clearClickListener()`: the canvas loses its handler and the screen may install it
        again. */
    method ClearClickListener()
      modifies this`listenerActive, canvas`onclick
      ensures !listenerActive && canvas.onclick == None
    {
      canvas.onclick := None;
      listenerActive := false;
    }

    /** A click on the canvas at a client position, with the canvas's bounding box at
        `(left, top)`. When this screen's handler is the canvas's, the game restarts exactly
        when the click lands on the button; otherwise nothing happens. */
    method Click(clientX: real, clientY: real, left: real, top: real)
      modifies this`restarts
      ensures restarts == old(restarts) +
        if canvas.onclick == Some(this) && ClickHits(canvas.width, canvas.height, clientX - left, clientY - top) then 1 else 0
    {
      if canvas.onclick != Some(this) {
        return;
      }
      var mouseX := clientX - left;
      var mouseY := clientY - top;
      if ClickHits(canvas.width, canvas.height, mouseX, mouseY) {
        restarts := restarts + 1;
      }
    }
  }
}
