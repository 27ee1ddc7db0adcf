/** What the game loop promises, stated about its reference definition
    `Next` and about runs of many frames. */
module GameProperties {
  import opened Geometry
  import opened Player
  import opened Game

  /** A frame that clears the egg flags: spider contact in Gameplay, or the
      BacktoTitle button on the clear screen. */
  predicate Resets(s: Snapshot, w: World, f: Frame)
  {
    (s.state == Gameplay && TouchesSpider(s, w, f)) || (s.state == GameClear && f.buttonPressed)
  }

  /** No flag set in `a` is cleared in `b`. */
  predicate Monotone(a: seq<bool>, b: seq<bool>)
  {
    |a| == |b| && forall i :: 0 <= i < |a| && a[i] ==> b[i]
  }

  /** Running `frames` from `s` never passes through a resetting frame. */
  predicate NoResets(s: Snapshot, w: World, frames: seq<Frame>)
    decreases |frames|
  {
    frames == [] || (!Resets(s, w, frames[0]) && NoResets(Next(s, w, frames[0]), w, frames[1..]))
  }

  /** The player sphere and the remembered position both stay clear of the
      level's bounding box. */
  predicate Clear(s: Snapshot, w: World)
  {
    !w.levelHit(s.eye) && !w.levelHit(s.previous)
  }

  /** A Gameplay frame that starts with all five eggs burned ends in
      GameClear, unless the player touches the spider in the same frame; and
      GameClear is reached in no other way than that or by staying there. */
  lemma WinCheck(s: Snapshot, w: World, f: Frame)
    ensures s.state == Gameplay && AllBurned(s.eggs) && !TouchesSpider(s, w, f)
            ==> Next(s, w, f).state == GameClear
    ensures Next(s, w, f).state == GameClear ==>
            (s.state == Gameplay && AllBurned(s.eggs) && !TouchesSpider(s, w, f))
            || (s.state == GameClear && !f.buttonPressed)
  {
  }

  /** Touching the spider ends the round: GameOver, every flag cleared, the
      spider back at its start. The player is put back at its start too, but
      the second movement of the frame and the wall checks still run, so the
      eye ends where those leave it. */
  lemma SpiderContact(s: Snapshot, w: World, f: Frame)
    requires s.state == Gameplay && TouchesSpider(s, w, f)
    ensures Next(s, w, f).state == GameOver
    ensures Next(s, w, f).eggs == NoEggs() && !AllBurned(Next(s, w, f).eggs)
    ensures Next(s, w, f).spider == SpiderStart
    ensures Next(s, w, f).eye ==
      if AnyWallHit(w, FirstEye(s, w, f)) then s.previous
      else MovedTo(PlayerStart, f.move, w.levelHit)
    ensures Next(s, w, f).previous == Next(s, w, f).eye
  {
    assert Next(s, w, f).eggs[0] == false;
  }

  /** With no movement and no wall touched, spider contact leaves the
      player exactly at the start position. */
  lemma SpiderContactAtRest(s: Snapshot, w: World, f: Frame)
    requires s.state == Gameplay && TouchesSpider(s, w, f)
    requires f.move == Vec3(0.0, 0.0, 0.0) && !AnyWallHit(w, FirstEye(s, w, f))
    ensures Next(s, w, f).eye == PlayerStart && Next(s, w, f).previous == PlayerStart
  {
    SpiderContact(s, w, f);
    assert Add(PlayerStart, f.move) == PlayerStart;
  }

  /** After spider contact the eye ends exactly at the start position in
      two ways: a wall was touched and the previous frame ended there, or no
      wall was touched and the second move stays there (it is refused, or
      asks for no movement). */
  lemma SpiderContactEndsAtStart(s: Snapshot, w: World, f: Frame)
    requires s.state == Gameplay && TouchesSpider(s, w, f)
    ensures Next(s, w, f).eye == PlayerStart <==>
      (AnyWallHit(w, FirstEye(s, w, f)) && s.previous == PlayerStart)
      || (!AnyWallHit(w, FirstEye(s, w, f)) && MovedTo(PlayerStart, f.move, w.levelHit) == PlayerStart)
  {
    SpiderContact(s, w, f);
  }

  /** The win check runs before the spider check: a frame that does both
      ends in GameOver with every flag cleared. */
  lemma WinThenSpider(s: Snapshot, w: World, f: Frame)
    requires s.state == Gameplay && AllBurned(s.eggs) && TouchesSpider(s, w, f)
    ensures Next(s, w, f).state == GameOver
    ensures forall i :: 0 <= i < |Next(s, w, f).eggs| ==> !Next(s, w, f).eggs[i]
  {
  }

  /** Outside spider contact, egg flag `i` is set after a Gameplay frame
      exactly when it was set before, or the frame's player sphere touched
      egg box `i` while the left mouse button went down. */
  lemma EggFlag(s: Snapshot, w: World, f: Frame, i: nat)
    requires s.state == Gameplay && !TouchesSpider(s, w, f) && i < |s.eggs|
    ensures |Next(s, w, f).eggs| == |s.eggs|
    ensures Next(s, w, f).eggs[i] <==>
            s.eggs[i] || (f.mouseLDown && w.eggHit(i, FirstEye(s, w, f)))
  {
  }

  /** A frame that is not a reset clears no flag; a reset clears them all. */
  lemma FlagsClearedOnlyByReset(s: Snapshot, w: World, f: Frame)
    requires |s.eggs| == EggCount
    ensures !Resets(s, w, f) ==> Monotone(s.eggs, Next(s, w, f).eggs)
    ensures Resets(s, w, f) ==> Next(s, w, f).eggs == NoEggs()
  {
  }

  /** Between resets the flags only grow, over any number of frames. */
  lemma {:induction false} FlagsMonotoneBetweenResets(s: Snapshot, w: World, frames: seq<Frame>)
    requires |s.eggs| == EggCount && NoResets(s, w, frames)
    ensures Monotone(s.eggs, Run(s, w, frames).eggs)
    decreases |frames|
  {
    if frames != [] {
      var t := Next(s, w, frames[0]);
      FlagsClearedOnlyByReset(s, w, frames[0]);
      FlagsMonotoneBetweenResets(t, w, frames[1..]);
    }
  }

  /** The title screen moves to Gameplay only on StartGame, changing
      nothing else. */
  lemma TitleFrame(s: Snapshot, w: World, f: Frame)
    requires s.state == Title
    ensures Next(s, w, f).state == (if f.buttonPressed then Gameplay else Title)
    ensures Next(s, w, f) == s.(state := Next(s, w, f).state)
  {
  }

  /** The game-over screen moves to Gameplay only on RestartGame, with no
      further reset: flags, spider and player stay as the contact left them. */
  lemma GameOverFrame(s: Snapshot, w: World, f: Frame)
    requires s.state == GameOver
    ensures Next(s, w, f).state == (if f.buttonPressed then Gameplay else GameOver)
    ensures Next(s, w, f) == s.(state := Next(s, w, f).state)
  {
  }

  /** The clear screen moves to Title only on BacktoTitle, clearing every
      flag and putting spider and player back at their starts. The
      remembered position, the view angles and the cursor are kept. */
  lemma GameClearFrame(s: Snapshot, w: World, f: Frame)
    requires s.state == GameClear
    ensures f.buttonPressed ==>
      Next(s, w, f) == Snapshot(Title, NoEggs(), SpiderStart, s.previous, PlayerStart,
                                s.angle, s.pitch, s.lastMousePos)
    ensures !f.buttonPressed ==> Next(s, w, f) == s
  {
  }

  /** The movement of a Gameplay frame is applied twice: once before the
      checks and once after the spider check. When neither move is refused
      and no spider or wall is touched, the eye moves by twice the step. */
  lemma DoubleMove(s: Snapshot, w: World, f: Frame)
    requires s.state == Gameplay && !TouchesSpider(s, w, f)
    requires !w.levelHit(Add(s.eye, f.move)) && !w.levelHit(Add(Add(s.eye, f.move), f.move))
    requires !AnyWallHit(w, Add(s.eye, f.move))
    ensures Next(s, w, f).eye == Add(Add(s.eye, f.move), f.move)
    ensures Next(s, w, f).previous == Next(s, w, f).eye
  {
  }

  /** After a Gameplay frame the remembered position is the eye position;
      if the frame's player sphere touched any wall box, that is the
      position remembered at the end of the previous frame. */
  lemma WallResolution(s: Snapshot, w: World, f: Frame)
    requires s.state == Gameplay
    ensures Next(s, w, f).previous == Next(s, w, f).eye
    ensures AnyWallHit(w, FirstEye(s, w, f)) ==> Next(s, w, f).eye == s.previous
    ensures !AnyWallHit(w, FirstEye(s, w, f)) ==>
      Next(s, w, f).eye == MovedTo(if TouchesSpider(s, w, f) then PlayerStart else FirstEye(s, w, f),
                                   f.move, w.levelHit)
  {
  }

  /** The pitch stays within [-80, 80] degrees over any run of frames. */
  lemma {:induction false} PitchStaysClamped(s: Snapshot, w: World, frames: seq<Frame>)
    requires -PitchLimit <= s.pitch <= PitchLimit
    ensures -PitchLimit <= Run(s, w, frames).pitch <= PitchLimit
    decreases |frames|
  {
    if frames != [] {
      PitchStaysClamped(Next(s, w, frames[0]), w, frames[1..]);
    }
  }

  /** When the start position is clear of the level's bounding box, a frame
      keeps the player and the remembered position clear of it. */
  lemma ClearPreserved(s: Snapshot, w: World, f: Frame)
    requires !w.levelHit(PlayerStart) && Clear(s, w)
    ensures Clear(Next(s, w, f), w)
  {
  }

  /** ... and so does every run of frames from any clear state, the
      initial state among them (`InitialClear`). */
  lemma {:induction false} ClearForever(s: Snapshot, w: World, frames: seq<Frame>)
    requires !w.levelHit(PlayerStart) && Clear(s, w)
    ensures Clear(Run(s, w, frames), w)
    decreases |frames|
  {
    if frames != [] {
      ClearPreserved(s, w, frames[0]);
      ClearForever(Next(s, w, frames[0]), w, frames[1..]);
    }
  }

  /** The initial state is clear when the start position is. */
  lemma InitialClear(w: World, cursor: Point)
    requires !w.levelHit(PlayerStart)
    ensures Clear(Initial(cursor), w)
    ensures Initial(cursor).state == Title && !AllBurned(Initial(cursor).eggs)
    ensures Initial(cursor).eggs == NoEggs()
  {
    assert Initial(cursor).eggs[0] == false;
  }
}
