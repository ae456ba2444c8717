/** The stick-figure characters of src/character.py: their state as a value (`Body`),
    the bounding box used for collision tests, and the mutable `Character` object the
    animation drives. Drawing is not modelled. */
module Characters {
  import opened Config

  /** `pygame.Rect(x, y, w, h)`: left edge, top edge, width and height in pixels. */
  datatype Rect = Rect(left: int, top: int, width: int, height: int)

  /** `Rect.colliderect`, taken to be overlap of the two open rectangles: rectangles that
      only touch along an edge do not collide. This is an assumption about pygame. */
  predicate Collides(a: Rect, b: Rect)
  {
    && a.left < b.left + b.width && b.left < a.left + a.width
    && a.top < b.top + b.height && b.top < a.top + a.height
  }

  /** Everything about a character that the core reads or writes. Positions and speeds are
      integers: every speed the animation sets (3, 2, 0) and every nudge (5 px) is. */
  datatype Body = Body(
    x: int, y: int, width: int, height: int,
    speed: int, direction: int,
    walking: bool, smiling: bool, talking: bool,
    walkFrame: int, talkFrame: int)
  {
    /** `move`: one step of `speed` pixels in the current direction. */
    function Moved(): Body
    {
      this.(x := x + speed * direction)
    }

    /** `get_center_x`: `x + width // 2` (floor division by 2, which Dafny's `/` agrees with). */
    function CenterX(): int
    {
      x + width / 2
    }

    /** `get_rect`. */
    function Bounds(): Rect
    {
      Rect(x, y, width, height)
    }

    /** `set_talking`: stopping to talk also rewinds the mouth animation. */
    function WithTalking(on: bool): Body
    {
      if on then this.(talking := true) else this.(talking := false, talkFrame := 0)
    }

    /** `reverse_direction`. */
    function Reversed(): Body
    {
      this.(direction := -direction)
    }
  }

  /** The state `Character.__init__` gives a character placed at (x, y). */
  function NewBody(x: int, y: int): Body
  {
    Body(x, y, CharacterWidth, CharacterHeight, CharacterSpeed, 1, false, false, false, 0, 0)
  }

  /** A character faces left or right. */
  predicate Facing(b: Body)
  {
    b.direction == 1 || b.direction == -1
  }

  lemma MovedShiftsOnlyX(b: Body)
    ensures b.Moved().x - b.x == b.speed * b.direction
    ensures b.Moved().(x := b.x) == b
  {
  }

  lemma ReversedTwiceIsIdentity(b: Body)
    ensures b.Reversed().Reversed() == b
    ensures Facing(b) ==> Facing(b.Reversed()) && b.Reversed().direction != b.direction
  {
  }

  lemma WithTalkingEffect(b: Body, on: bool)
    ensures b.WithTalking(on).talking == on
    ensures on ==> b.WithTalking(on) == b.(talking := true)
    ensures !on ==> b.WithTalking(on).talkFrame == 0
    ensures b.WithTalking(on).(talking := b.talking, talkFrame := b.talkFrame) == b
  {
  }

  lemma CenterLiesInBounds(b: Body)
    requires b.width >= 0
    ensures b.Bounds().left <= b.CenterX() <= b.Bounds().left + b.Bounds().width
    ensures 0 <= 2 * (b.CenterX() - b.x) <= b.width <= 2 * (b.CenterX() - b.x) + 1
  {
  }

  lemma CollidesSymmetric(a: Rect, b: Rect)
    ensures Collides(a, b) == Collides(b, a)
  {
  }

  /** A character object. Its colour is only used for drawing and is not modelled. */
  class Character {
    var x: int
    var y: int
    const width: int
    const height: int
    var speed: int
    var direction: int
    var isSmiling: bool
    var isWalking: bool
    var isTalking: bool
    var walkFrame: int
    var talkFrame: int
    const name: string
    const voice: string

    /** The character's state as a value. */
    function State(): Body
      reads this
    {
      Body(x, y, width, height, speed, direction, isWalking, isSmiling, isTalking, walkFrame, talkFrame)
    }

    constructor (x: int, y: int, name: string, voice: string)
      ensures State() == NewBody(x, y)
      ensures this.name == name && this.voice == voice
    {
      this.x := x;
      this.y := y;
      this.name := name;
      this.voice := voice;
      width := CharacterWidth;
      height := CharacterHeight;
      speed := CharacterSpeed;
      direction := 1;
      isSmiling := false;
      isWalking := false;
      isTalking := false;
      walkFrame := 0;
      talkFrame := 0;
    }

    method Move()
      modifies this
      ensures x == old(x) + old(speed) * old(direction)
      ensures State() == old(State()).Moved()
    {
      x := x + speed * direction;
    }

    /** The midpoint of the character's span, rounded down. */
    function GetCenterX(): (c: int)
      reads this
      ensures 2 * (c - x) <= width <= 2 * (c - x) + 1
    {
      State().CenterX()
    }

    function GetRect(): Rect
      reads this
    {
      State().Bounds()
    }

    method SetWalking(walking: bool)
      modifies this
      ensures State() == old(State()).(walking := walking)
    {
      isWalking := walking;
    }

    method SetSmiling(smiling: bool)
      modifies this
      ensures State() == old(State()).(smiling := smiling)
    {
      isSmiling := smiling;
    }

    method SetTalking(talking: bool)
      modifies this
      ensures isTalking == talking
      ensures talking ==> talkFrame == old(talkFrame)
      ensures !talking ==> talkFrame == 0
      ensures State() == old(State()).WithTalking(talking)
    {
      isTalking := talking;
      if !talking {
        talkFrame := 0;
      }
    }

    method SetSpeed(speed: int)
      modifies this
      ensures State() == old(State()).(speed := speed)
    {
      this.speed := speed;
    }

    method ReverseDirection()
      modifies this
      ensures direction == -old(direction)
      ensures State() == old(State()).Reversed()
    {
      direction := direction * -1;
    }
  }
}
