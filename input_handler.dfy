/** Keyboard and touch input (src/game/InputHandler.ts): a set of pressed key names, a second
    set of the keys pressed through the on-screen buttons, and a touch movement vector. The
    movement vector the player follows never has a magnitude above 1.

    Key names are lower-cased as JavaScript's `toLowerCase` does on ASCII letters; the window
    listeners are a flag that construction sets and `destroy` clears. */
module InputHandlers {
  import opened Geometry

  /** `toLowerCase` on one character (ASCII letters only). */
  function LowerChar(c: char): (r: char)
    ensures !('A' <= r <= 'Z')
    ensures !('A' <= c <= 'Z') ==> r == c
    ensures 'A' <= c <= 'Z' ==> 'a' <= r <= 'z' && r as int - c as int == 'a' as int - 'A' as int
  {
    if 'A' <= c <= 'Z' then (c as int + 32) as char else c
  }

  /** A key name without upper-case letters. */
  predicate IsLowerCase(s: string) {
    forall i :: 0 <= i < |s| ==> !('A' <= s[i] <= 'Z')
  }

  /** `key.toLowerCase()`. */
  function Lower(s: string): (r: string)
    ensures |r| == |s| && IsLowerCase(r)
    ensures forall i :: 0 <= i < |s| ==> r[i] == LowerChar(s[i])
  {
    seq(|s|, i requires 0 <= i < |s| => LowerChar(s[i]))
  }

  /** A name that is already lower case is left as it is. */
  lemma LowerKeepsLowerCase(s: string)
    requires IsLowerCase(s)
    ensures Lower(s) == s
  {
    assert forall i :: 0 <= i < |s| ==> Lower(s)[i] == s[i];
  }

  /** Lower-casing twice is lower-casing once. */
  lemma LowerIdempotent(s: string)
    ensures Lower(Lower(s)) == Lower(s)
  {
    LowerKeepsLowerCase(Lower(s));
  }

  /** The key set after a key goes down. */
  function KeyDown(keys: set<string>, key: string): (r: set<string>)
    ensures Lower(key) in r && r - {Lower(key)} == keys - {Lower(key)}
  {
    keys + {Lower(key)}
  }

  /** The key set after a key goes up. */
  function KeyUp(keys: set<string>, key: string): (r: set<string>)
    ensures Lower(key) !in r && r + {Lower(key)} == keys + {Lower(key)}
  {
    keys - {Lower(key)}
  }

  /** `isPressed(key)` on a key set. */
  predicate Pressed(keys: set<string>, key: string) {
    Lower(key) in keys
  }

  /** Every name in the set is lower case. */
  predicate AllLowerCase(keys: set<string>) {
    forall k <- keys :: IsLowerCase(k)
  }

  /** Asking about a key in any case gives the same answer. */
  lemma PressedIgnoresCase(keys: set<string>, key: string)
    ensures Pressed(keys, Lower(key)) == Pressed(keys, key)
  {
    LowerIdempotent(key);
  }

  /** A key that went down is pressed, whatever case it is asked about in. */
  lemma PressedAfterDown(keys: set<string>, down: string, asked: string)
    requires Lower(down) == Lower(asked)
    ensures Pressed(KeyDown(keys, down), asked)
  {
  }

  /** A down and then an up of the same key, in any cases, leaves the key unpressed. When it
      was not pressed before, the set is as it was. */
  lemma DownThenUp(keys: set<string>, down: string, up: string, asked: string)
    requires Lower(down) == Lower(up) && Lower(up) == Lower(asked)
    ensures !Pressed(KeyUp(KeyDown(keys, down), up), asked)
    ensures !Pressed(keys, down) ==> KeyUp(KeyDown(keys, down), up) == keys
  {
  }

  /** Pressing and releasing keep every name in the set lower case. */
  lemma KeyStepsKeepLowerCase(keys: set<string>, key: string)
    requires AllLowerCase(keys)
    ensures AllLowerCase(KeyDown(keys, key)) && AllLowerCase(KeyUp(keys, key))
  {
  }

  /** One keyboard axis: -1 for the negative key, +1 for the positive one, summed. */
  function Axis(neg: bool, pos: bool): (r: real)
    ensures -1.0 <= r <= 1.0
    ensures r == 0.0 <==> neg == pos
    ensures r < 0.0 <==> neg && !pos
    ensures r > 0.0 <==> pos && !neg
  {
    (if neg then -1.0 else 0.0) + (if pos then 1.0 else 0.0)
  }

  /** Up: `w` or the up arrow. */
  predicate Up(keys: set<string>) { "w" in keys || "arrowup" in keys }

  /** Down: `s` or the down arrow. */
  predicate Down(keys: set<string>) { "s" in keys || "arrowdown" in keys }

  /** Left: `a` or the left arrow. */
  predicate Left(keys: set<string>) { "a" in keys || "arrowleft" in keys }

  /** Right: `d` or the right arrow. */
  predicate Right(keys: set<string>) { "d" in keys || "arrowright" in keys }

  /** The keyboard vector before normalisation; y grows downwards. */
  function KeyboardX(keys: set<string>): real { Axis(Left(keys), Right(keys)) }

  function KeyboardY(keys: set<string>): real { Axis(Up(keys), Down(keys)) }

  /** Opposing keys cancel and a lone key gives a unit step along its axis. */
  lemma KeyboardAxes(keys: set<string>)
    ensures KeyboardX(keys) == 0.0 <==> Left(keys) == Right(keys)
    ensures KeyboardY(keys) == 0.0 <==> Up(keys) == Down(keys)
    ensures Right(keys) && !Left(keys) ==> KeyboardX(keys) == 1.0
    ensures Left(keys) && !Right(keys) ==> KeyboardX(keys) == -1.0
    ensures Down(keys) && !Up(keys) ==> KeyboardY(keys) == 1.0
    ensures Up(keys) && !Down(keys) ==> KeyboardY(keys) == -1.0
  {
  }

  /** The vector scaled down to length 1 when it is longer than 1, else unchanged. */
  function LimitedX(m: MathLib, x: real, y: real): real
    requires m.Valid()
  {
    var d := m.Dist(x, y);
    if d > 1.0 then x / d else x
  }

  function LimitedY(m: MathLib, x: real, y: real): real
    requires m.Valid()
  {
    var d := m.Dist(x, y);
    if d > 1.0 then y / d else y
  }

  /** The limited vector has length at most 1; a vector no longer than 1 is returned as it
      is, a longer one keeps its direction and gets length exactly 1. */
  lemma {:induction false} LimitedLength(m: MathLib, x: real, y: real)
    requires m.Valid()
    ensures m.Dist(LimitedX(m, x, y), LimitedY(m, x, y)) <= 1.0
    ensures m.Dist(x, y) <= 1.0 ==> LimitedX(m, x, y) == x && LimitedY(m, x, y) == y
    ensures m.Dist(x, y) > 1.0 ==> m.Dist(LimitedX(m, x, y), LimitedY(m, x, y)) == 1.0
    ensures m.Dist(x, y) > 1.0 ==> LimitedX(m, x, y) * m.Dist(x, y) == x && LimitedY(m, x, y) * m.Dist(x, y) == y
  {
    var d := m.Dist(x, y);
    if d > 1.0 {
      UnitVector(m, x, y);
      DistOfSquare(m, x / d, y / d, 1.0);
    }
  }

  /** The raw vector `getMovementVector` starts from: the touch vector when either of its
      components is non-zero, else the keyboard vector. */
  function RawX(keys: set<string>, tx: real, ty: real): real {
    if tx != 0.0 || ty != 0.0 then tx else KeyboardX(keys)
  }

  function RawY(keys: set<string>, tx: real, ty: real): real {
    if tx != 0.0 || ty != 0.0 then ty else KeyboardY(keys)
  }

  /** A non-zero touch vector overrides the keyboard entirely: the keys make no difference. */
  lemma TouchOverridesKeys(keys1: set<string>, keys2: set<string>, tx: real, ty: real)
    requires tx != 0.0 || ty != 0.0
    ensures RawX(keys1, tx, ty) == RawX(keys2, tx, ty) == tx
    ensures RawY(keys1, tx, ty) == RawY(keys2, tx, ty) == ty
  {
  }

  /** Pressing up and right together gives the diagonal scaled to length 1. */
  lemma {:induction false} DiagonalIsUnit(m: MathLib, keys: set<string>)
    requires m.Valid() && Up(keys) && !Down(keys) && Right(keys) && !Left(keys)
    ensures m.Dist(LimitedX(m, RawX(keys, 0.0, 0.0), RawY(keys, 0.0, 0.0)),
                   LimitedY(m, RawX(keys, 0.0, 0.0), RawY(keys, 0.0, 0.0))) == 1.0
    ensures LimitedX(m, RawX(keys, 0.0, 0.0), RawY(keys, 0.0, 0.0)) > 0.0
    ensures LimitedY(m, RawX(keys, 0.0, 0.0), RawY(keys, 0.0, 0.0)) < 0.0
  {
    var x, y := RawX(keys, 0.0, 0.0), RawY(keys, 0.0, 0.0);
    assert x == 1.0 && y == -1.0;
    var d := m.Dist(x, y);
    DistSquare(m, x, y);
    assert d * d == 2.0;
    DistLessIff(m, x, y, 1.0);
    assert d != 1.0 by {
      assert d * d != 1.0 * 1.0;
    }
    LimitedLength(m, x, y);
  }

  class InputHandler {
    var keys: set<string>
    var activeTouchKeys: set<string>
    var touchMoveX: real
    var touchMoveY: real
    /** Whether the window key listeners are installed. */
    var listening: bool

    /** Both key sets hold lower-case names only. */
    ghost predicate Valid()
      reads this
    {
      AllLowerCase(keys) && AllLowerCase(activeTouchKeys)
    }

    constructor ()
      ensures Valid()
      ensures keys == {} && activeTouchKeys == {}
      ensures touchMoveX == 0.0 && touchMoveY == 0.0 && listening
    {
      keys := {};
      activeTouchKeys := {};
      touchMoveX := 0.0;
      touchMoveY := 0.0;
      listening := true;
    }

    /** The window `keydown` listener. */
    method HandleKeyDown(key: string)
      requires Valid()
      modifies this`keys
      ensures Valid()
      ensures keys == KeyDown(old(keys), key)
    {
      keys := keys + {Lower(key)};
    }

    /** The window `keyup` listener. */
    method HandleKeyUp(key: string)
      requires Valid()
      modifies this`keys
      ensures Valid()
      ensures keys == KeyUp(old(keys), key)
    {
      keys := keys - {Lower(key)};
    }

    /** An on-screen button goes down: the key joins both sets. */
    method SimulateKeyDown(key: string)
      requires Valid()
      modifies this`keys, this`activeTouchKeys
      ensures Valid()
      ensures keys == KeyDown(old(keys), key)
      ensures activeTouchKeys == KeyDown(old(activeTouchKeys), key)
    {
      var lowerKey := Lower(key);
      keys := keys + {lowerKey};
      activeTouchKeys := activeTouchKeys + {lowerKey};
    }

    /** An on-screen button goes up: the key leaves both sets. */
    method SimulateKeyUp(key: string)
      requires Valid()
      modifies this`keys, this`activeTouchKeys
      ensures Valid()
      ensures keys == KeyUp(old(keys), key)
      ensures activeTouchKeys == KeyUp(old(activeTouchKeys), key)
    {
      var lowerKey := Lower(key);
      keys := keys - {lowerKey};
      activeTouchKeys := activeTouchKeys - {lowerKey};
    }

    /** The touch vector is stored as given. */
    method SetTouchMove(x: real, y: real)
      modifies this`touchMoveX, this`touchMoveY
      ensures touchMoveX == x && touchMoveY == y
    {
      touchMoveX := x;
      touchMoveY := y;
    }

    predicate IsPressed(key: string)
      reads this
    {
      Pressed(keys, key)
    }

    /** `getMovementVector()`: the touch vector when it is non-zero, else the keyboard axes,
        scaled down to length 1 when longer. */
    method MovementVector(m: MathLib) returns (moveX: real, moveY: real)
      requires m.Valid()
      ensures m.Dist(moveX, moveY) <= 1.0
      ensures moveX == LimitedX(m, RawX(keys, touchMoveX, touchMoveY), RawY(keys, touchMoveX, touchMoveY))
      ensures moveY == LimitedY(m, RawX(keys, touchMoveX, touchMoveY), RawY(keys, touchMoveX, touchMoveY))
    {
      moveX := 0.0;
      moveY := 0.0;
      if touchMoveX != 0.0 || touchMoveY != 0.0 {
        moveX := touchMoveX;
        moveY := touchMoveY;
      } else {
        if "w" in keys || "arrowup" in keys {
          moveY := moveY - 1.0;
        }
        if "s" in keys || "arrowdown" in keys {
          moveY := moveY + 1.0;
        }
        if "a" in keys || "arrowleft" in keys {
          moveX := moveX - 1.0;
        }
        if "d" in keys || "arrowright" in keys {
          moveX := moveX + 1.0;
        }
      }
      LimitedLength(m, moveX, moveY);
      var magnitude := m.Dist(moveX, moveY);
      if magnitude > 1.0 {
        moveX := moveX / magnitude;
        moveY := moveY / magnitude;
      }
    }

    /** `destroy()`: the window listeners are removed. */
    method Destroy()
      modifies this`listening
      ensures !listening
    {
      listening := false;
    }
  }
}
