/** The per-frame game loop: four mutually exclusive phases, five "egg
    burned" flags, the spider that chases the player, and the reset rules
    that tie them together. Every query the engine answers (GUI buttons,
    the mouse, sphere/box intersections, the frame's movement) is an input. */
module Game {
  import opened Geometry
  import opened Player

  /** The phases of the game. */
  datatype GameState = Title | Gameplay | GameOver | GameClear

  /** The number of eggs, one "burned" flag each. */
  const EggCount: nat := 5

  /** The number of wall boxes: 25 double walls and 7 single walls. */
  const WallCount: nat := 32

  /** The level geometry, fixed when the game starts. Each predicate says
      whether the player sphere (radius 0.5) centred at the given point
      intersects a box: the level's bounding box, egg box `i`, wall box `j`,
      or the spider's box when the spider stands at the second point. */
  datatype World = World(
    levelHit: Vec3 -> bool,
    eggHit: (nat, Vec3) -> bool,
    wallHit: (nat, Vec3) -> bool,
    spiderHit: (Vec3, Vec3) -> bool)

  /** What the engine reports in one frame: whether the phase's button was
      clicked, whether the left mouse button went down, the cursor and window
      size, the displacement the movement keys ask for, and the displacement
      of the spider's chase step. */
  datatype Frame = Frame(
    buttonPressed: bool,
    mouseLDown: bool,
    cursor: Point,
    width: nat,
    height: nat,
    move: Vec3,
    spiderStep: Vec3)

  /** Everything the game loop updates from frame to frame. */
  datatype Snapshot = Snapshot(
    state: GameState,
    eggs: seq<bool>,
    spider: Vec3,
    previous: Vec3,
    eye: Vec3,
    angle: real,
    pitch: real,
    lastMousePos: Point)

  /** No egg burned. */
  function NoEggs(): seq<bool>
  {
    [false, false, false, false, false]
  }

  predicate AllBurned(eggs: seq<bool>)
  {
    forall i :: 0 <= i < |eggs| ==> eggs[i]
  }

  /** The flags after the egg checks: egg `i` is set when the player sphere
      at `eye` touches egg box `i` and the left mouse button went down. */
  function Burned(eggs: seq<bool>, w: World, eye: Vec3, down: bool): seq<bool>
  {
    seq(|eggs|, i requires 0 <= i < |eggs| => eggs[i] || (down && w.eggHit(i, eye)))
  }

  predicate AnyWallHit(w: World, eye: Vec3)
  {
    exists j :: 0 <= j < WallCount && w.wallHit(j, eye)
  }

  /** The state right after the game starts. */
  function Initial(cursor: Point): Snapshot
  {
    Snapshot(Title, NoEggs(), SpiderStart, PlayerStart, PlayerStart, 0.0, 0.0, cursor)
  }

  /** The eye position after the first movement of a Gameplay frame; the
      egg, spider and wall checks of that frame all use a sphere here. */
  function FirstEye(s: Snapshot, w: World, f: Frame): Vec3
  {
    MovedTo(s.eye, f.move, w.levelHit)
  }

  /** The spider's position after its chase step in a Gameplay frame. */
  function ChasedSpider(s: Snapshot, f: Frame): Vec3
  {
    Add(s.spider, f.spiderStep)
  }

  predicate TouchesSpider(s: Snapshot, w: World, f: Frame)
  {
    w.spiderHit(FirstEye(s, w, f), ChasedSpider(s, f))
  }

  /** One Gameplay frame, stage by stage. */
  function GameplayFrame(s: Snapshot, w: World, f: Frame): Snapshot
  {
    var phase := if AllBurned(s.eggs) then GameClear else s.state;
    var delta := Sub(f.cursor, s.lastMousePos);
    var eye1 := FirstEye(s, w, f);
    var spider1 := ChasedSpider(s, f);
    var eggs1 := Burned(s.eggs, w, eye1, f.mouseLDown);
    var touched := w.spiderHit(eye1, spider1);
    var eye2 := if touched then PlayerStart else eye1;
    var eye3 := MovedTo(eye2, f.move, w.levelHit);
    var eye4 := if AnyWallHit(w, eye1) then s.previous else eye3;
    Snapshot(
      if touched then GameOver else phase,
      if touched then NoEggs() else eggs1,
      if touched then SpiderStart else spider1,
      eye4,
      eye4,
      AngleAfter(s.angle, delta.x),
      PitchAfter(s.pitch, delta.y),
      WindowCentre(f.width, f.height))
  }

  /** The reference definition of one pass of the game loop. */
  function Next(s: Snapshot, w: World, f: Frame): Snapshot
  {
    match s.state
    case Title =>
      if f.buttonPressed then s.(state := Gameplay) else s
    case GameOver =>
      if f.buttonPressed then s.(state := Gameplay) else s
    case GameClear =>
      if f.buttonPressed then
        s.(state := Title, eggs := NoEggs(), spider := SpiderStart, eye := PlayerStart)
      else s
    case Gameplay =>
      GameplayFrame(s, w, f)
  }

  /** The state after running the game loop over `frames`. */
  function Run(s: Snapshot, w: World, frames: seq<Frame>): Snapshot
    decreases |frames|
  {
    if frames == [] then s else Run(Next(s, w, frames[0]), w, frames[1..])
  }

  /** The state of the game loop; the player controller is its own object. */
  class GameLoop {
    var state: GameState
    var eggs: seq<bool>
    var spider: Vec3
    var previous: Vec3
    const player: PlayerController
    const world: World

    ghost predicate Valid()
      reads this, player
    {
      |eggs| == EggCount && -PitchLimit <= player.pitch <= PitchLimit
    }

    function View(): Snapshot
      reads this, player
    {
      Snapshot(state, eggs, spider, previous,
               player.eyePosition, player.angle, player.pitch, player.lastMousePos)
    }

    constructor (world: World, cursor: Point)
      ensures Valid() && fresh(player)
      ensures this.world == world
      ensures View() == Initial(cursor)
    {
      this.world := world;
      state := Title;
      eggs := NoEggs();
      spider := SpiderStart;
      player := new PlayerController(cursor);
      previous := PlayerStart;
    }

    /** One pass of the game loop: the branch of the current phase. */
    method Step(f: Frame)
      requires Valid()
      modifies this, player
      ensures Valid()
      ensures View() == Next(old(View()), world, f)
    {
      match state
      case Title =>
        if f.buttonPressed {
          state := Gameplay;
        }
      case GameOver =>
        if f.buttonPressed {
          state := Gameplay;
        }
      case GameClear =>
        if f.buttonPressed {
          eggs := NoEggs();
          spider := SpiderStart;
          player.eyePosition := PlayerStart;
          state := Title;
        }
      case Gameplay =>
        GameplayStep(f);
    }

    /** The Gameplay branch, statement by statement in the order of the loop
        body: win check, mouse look, first move, chase, egg checks, spider
        contact, second move, wall checks, remembering the position. */
    method GameplayStep(f: Frame)
      requires Valid() && state == Gameplay
      modifies this, player
      ensures Valid()
      ensures View() == GameplayFrame(old(View()), world, f)
    {
      if AllBurned(eggs) {
        state := GameClear;
      }
      player.HandleMouse(f.cursor, f.width, f.height);
      var eyePosition := player.UpdatePosition(f.move, world.levelHit);
      spider := Add(spider, f.spiderStep);
      BurnEggs(eyePosition, f.mouseLDown);

      // touching the spider resets the round
      if world.spiderHit(eyePosition, spider) {
        eggs := NoEggs();
        spider := SpiderStart;
        player.eyePosition := PlayerStart;
        state := GameOver;
      }

      var _ := player.UpdatePosition(f.move, world.levelHit);
      RevertOnWalls(eyePosition);
      previous := player.eyePosition;
    }

    /** The egg checks, one per egg box, against the player sphere at `eye`. */
    method BurnEggs(eye: Vec3, mouseLDown: bool)
      requires |eggs| == EggCount
      modifies this`eggs
      ensures eggs == Burned(old(eggs), world, eye, mouseLDown)
    {
      var i := 0;
      while i < EggCount
        invariant 0 <= i <= EggCount && |eggs| == EggCount
        invariant forall k :: 0 <= k < EggCount ==>
          eggs[k] == if k < i then old(eggs)[k] || (mouseLDown && world.eggHit(k, eye)) else old(eggs)[k]
      {
        if world.eggHit(i, eye) && mouseLDown {
          eggs := eggs[i := true];
        }
        i := i + 1;
      }
    }

    /** The wall checks, one per wall box: each one the player sphere at
        `eye` touches puts the eye back where it was at the end of the
        previous frame. */
    method RevertOnWalls(eye: Vec3)
      modifies player`eyePosition
      ensures player.eyePosition ==
        if AnyWallHit(world, eye) then previous else old(player.eyePosition)
    {
      var j := 0;
      while j < WallCount
        invariant 0 <= j <= WallCount
        invariant player.eyePosition ==
          if exists k :: 0 <= k < j && world.wallHit(k, eye) then previous else old(player.eyePosition)
      {
        if world.wallHit(j, eye) {
          player.eyePosition := previous;
        }
        j := j + 1;
      }
    }

    /** The game loop itself: one Step per frame the system delivers. */
    method Play(frames: seq<Frame>)
      requires Valid()
      modifies this, player
      ensures Valid()
      ensures View() == Run(old(View()), world, frames)
    {
      var n := 0;
      while n < |frames|
        invariant 0 <= n <= |frames| && Valid()
        invariant Run(old(View()), world, frames) == Run(View(), world, frames[n..])
      {
        assert frames[n..][1..] == frames[n + 1..];
        Step(frames[n]);
        n := n + 1;
      }
    }
  }
}
