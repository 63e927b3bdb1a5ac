/** The rules of the Love Run race in game.js, without the canvas: collision
    of axis-aligned boxes, the jump guard, the horizontal clamp, the sweep
    that moves hearts and obstacles and scores them, the resets of initGame,
    the copy of the partner's state, the feedback line and the final verdict.
    Coordinates, sizes and times are integers (pixels and milliseconds). */
module Game {
  import opened Wire

  // ---------------------------------------------------------------------------
  // Boxes and collision

  /** Anything with a position and a size: a player, a heart, an obstacle. */
  datatype Rect = Rect(x: int, y: int, width: int, height: int)

  /** checkCollision: strict overlap on both axes. */
  predicate Collides(a: Rect, b: Rect): (c: bool)
    ensures c ==> a.width + b.width > 0 && a.height + b.height > 0
  {
    a.x < b.x + b.width && a.x + a.width > b.x &&
    a.y < b.y + b.height && a.y + a.height > b.y
  }

  predicate HasSize(r: Rect) {
    r.width > 0 && r.height > 0
  }

  /** The pixel cell with top-left corner (px, py) lies inside `r`. */
  predicate Covers(r: Rect, px: int, py: int) {
    r.x <= px < r.x + r.width && r.y <= py < r.y + r.height
  }

  /** Two boxes with a size collide exactly when some pixel cell lies in
      both; hence collision is symmetric and boxes that only share an edge
      or a corner do not collide. */
  lemma CollidesIffSharedCell(a: Rect, b: Rect)
    requires HasSize(a) && HasSize(b)
    ensures Collides(a, b) <==> exists px, py :: Covers(a, px, py) && Covers(b, px, py)
    ensures Collides(a, b) <==> Collides(b, a)
    ensures a.x + a.width == b.x || b.y + b.height == a.y ==> !Collides(a, b)
  {
    if Collides(a, b) {
      var px := if a.x < b.x then b.x else a.x;
      var py := if a.y < b.y then b.y else a.y;
      assert Covers(a, px, py) && Covers(b, px, py);
    }
  }

  // ---------------------------------------------------------------------------
  // Players

  const PlayerWidth: int := 40
  const PlayerHeight: int := 60
  const Speed: int := 5
  const JumpForce: int := 15

  datatype Color = Blue | Pink   // '#4b9eff' and '#ff4b6e'

  /** The colour initGame gives a player of the given gender. */
  function ColorFor(gender: Text): (c: Color)
    ensures c == Blue <==> gender == Some("male")
  {
    if gender == Some("male") then Blue else Pink
  }

  /** One entry of `players`; width, height, speed and jump force are the
      constants above, the same for both players. */
  datatype Player = Player(
    name: Text, gender: Text, color: Color,
    x: int, y: int, isJumping: bool, velocity: int, score: int)

  function Box(p: Player): Rect {
    Rect(p.x, p.y, PlayerWidth, PlayerHeight)
  }

  /** jump: takes off only from the ground. */
  function Jumped(p: Player): (q: Player)
    ensures q.isJumping
    ensures p.isJumping ==> q == p
    ensures !p.isJumping ==> q == p.(isJumping := true, velocity := -JumpForce)
  {
    if p.isJumping then p else p.(isJumping := true, velocity := -JumpForce)
  }

  /** A second jump while airborne changes nothing. */
  lemma JumpIdempotent(p: Player)
    ensures Jumped(Jumped(p)) == Jumped(p)
  {
  }

  /** The horizontal clamp of updatePlayer: first at the left edge, then at
      the right edge, so a canvas narrower than the player leaves it at
      `canvasWidth - width`, left of the canvas. */
  function ClampX(x: int, width: int, canvasWidth: int): (r: int)
    ensures width <= canvasWidth ==> 0 <= r <= canvasWidth - width
    ensures width <= canvasWidth && 0 <= x <= canvasWidth - width ==> r == x
    ensures width <= canvasWidth && x < 0 ==> r == 0
    ensures x + width > canvasWidth ==> r == canvasWidth - width
    ensures width > canvasWidth ==> r == canvasWidth - width
  {
    var left := if x < 0 then 0 else x;
    if left + width > canvasWidth then canvasWidth - width else left
  }

  lemma ClampXIdempotent(x: int, width: int, canvasWidth: int)
    requires width <= canvasWidth
    ensures ClampX(ClampX(x, width, canvasWidth), width, canvasWidth) == ClampX(x, width, canvasWidth)
  {
  }

  // ---------------------------------------------------------------------------
  // The sweep over hearts and obstacles

  const GameSpeed: int := 5
  const HeartSize: int := 30
  const ObstacleWidth: int := 30

  /** An item after one frame: shifted left by `speed`. */
  function Moved(r: Rect, speed: int): Rect {
    r.(x := r.x - speed)
  }

  /** Entirely left of the canvas. */
  predicate OffScreen(r: Rect) {
    r.x + r.width < 0
  }

  /** The item stays after the frame: once moved it neither touches the
      player nor has left the canvas. */
  predicate Kept(r: Rect, player: Rect, speed: int) {
    !Collides(player, Moved(r, speed)) && !OffScreen(Moved(r, speed))
  }

  /** The items a sweep keeps, moved, in their order. */
  function Survivors(items: seq<Rect>, player: Rect, speed: int): seq<Rect> {
    if items == [] then []
    else
      (if Kept(items[0], player, speed) then [Moved(items[0], speed)] else [])
      + Survivors(items[1..], player, speed)
  }

  /** How many items the player touches once they have moved. */
  function Hits(items: seq<Rect>, player: Rect, speed: int): nat {
    if items == [] then 0
    else
      (if Collides(player, Moved(items[0], speed)) then 1 else 0)
      + Hits(items[1..], player, speed)
  }

  /** How many items leave the canvas without touching the player. */
  function Dropped(items: seq<Rect>, player: Rect, speed: int): nat {
    if items == [] then 0
    else
      (if !Collides(player, Moved(items[0], speed)) && OffScreen(Moved(items[0], speed)) then 1 else 0)
      + Dropped(items[1..], player, speed)
  }

  /** Every item is kept, collected or dropped, exactly one of the three. */
  lemma {:induction false} SweepAccounts(items: seq<Rect>, player: Rect, speed: int)
    ensures |Survivors(items, player, speed)| + Hits(items, player, speed) + Dropped(items, player, speed) == |items|
  {
    if items != [] {
      SweepAccounts(items[1..], player, speed);
    }
  }

  /** What a sweep keeps is exactly the moved images of the items it keeps. */
  lemma {:induction false} SurvivorsExactly(items: seq<Rect>, player: Rect, speed: int)
    ensures forall r :: r in Survivors(items, player, speed) <==>
      exists j :: 0 <= j < |items| && Kept(items[j], player, speed) && r == Moved(items[j], speed)
  {
    if items != [] {
      SurvivorsExactly(items[1..], player, speed);
      forall r
        ensures r in Survivors(items, player, speed) <==>
          exists j :: 0 <= j < |items| && Kept(items[j], player, speed) && r == Moved(items[j], speed)
      {
        if r in Survivors(items[1..], player, speed) {
          var j :| 0 <= j < |items[1..]| && Kept(items[1..][j], player, speed) && r == Moved(items[1..][j], speed);
          assert items[j + 1] == items[1..][j];
        }
        if exists j :: 0 <= j < |items| && Kept(items[j], player, speed) && r == Moved(items[j], speed) {
          var j :| 0 <= j < |items| && Kept(items[j], player, speed) && r == Moved(items[j], speed);
          if j > 0 {
            assert items[1..][j - 1] == items[j];
          }
        }
      }
    }
  }

  /** A survivor never overlaps the player and is still on the canvas. */
  lemma {:induction false} SurvivorsClear(items: seq<Rect>, player: Rect, speed: int)
    ensures forall i :: 0 <= i < |Survivors(items, player, speed)| ==>
      !Collides(player, Survivors(items, player, speed)[i]) && !OffScreen(Survivors(items, player, speed)[i])
  {
    if items != [] {
      SurvivorsClear(items[1..], player, speed);
    }
  }

  /** One obstacle hit: the score drops by one unless it is already zero. */
  function Decremented(score: int): (r: int)
    ensures score > 0 ==> r == score - 1
    ensures score <= 0 ==> r == score
  {
    if score > 0 then score - 1 else score
  }

  /** The score after `hits` obstacle hits, one after the other. */
  function Penalised(score: int, hits: nat): int {
    if hits == 0 then score else Decremented(Penalised(score, hits - 1))
  }

  /** From a score that is not negative, `hits` hits leave the score less
      `hits` but never below zero. */
  lemma {:induction false} PenalisedFloor(score: int, hits: nat)
    requires score >= 0
    ensures Penalised(score, hits) == if score >= hits then score - hits else 0
  {
    if hits > 0 {
      PenalisedFloor(score, hits - 1);
    }
  }

  // ---------------------------------------------------------------------------
  // Feedback and results

  /** The four lines of the in-game feedback element. */
  datatype Feedback = PullingAhead | CatchingUp | NeckAndNeck | DontGiveUp

  /** updateGameFeedback, on the difference own score less partner's. */
  function FeedbackFor(diff: int): (f: Feedback)
    ensures f == PullingAhead <==> diff > 5
    ensures f == CatchingUp <==> diff < -5
    ensures f == NeckAndNeck <==> 0 <= diff <= 5
    ensures f == DontGiveUp <==> -5 <= diff < 0
  {
    if diff > 5 then PullingAhead
    else if diff < -5 then CatchingUp
    else if diff >= 0 then NeckAndNeck
    else DontGiveUp
  }

  /** What the two players see of the same scores: a lead of more than five
      reads as a lead on one side and a chase on the other, but a small lead
      reads as neck and neck to the leader only. */
  lemma FeedbackBothSides(diff: int)
    ensures FeedbackFor(diff) == PullingAhead <==> FeedbackFor(-diff) == CatchingUp
    ensures FeedbackFor(diff) == NeckAndNeck && FeedbackFor(-diff) == NeckAndNeck <==> diff == 0
    ensures 0 < diff <= 5 ==> FeedbackFor(diff) == NeckAndNeck && FeedbackFor(-diff) == DontGiveUp
  {
  }

  /** The compatibility percentage endGame shows: the total of the scores,
      capped at 100. Math.round of total / 100 * 100 gives back the integer
      total. */
  function Compatibility(total: int): (c: int)
    ensures c <= 100
    ensures total <= 100 ==> c == total
    ensures total >= 100 ==> c == 100
  {
    if total < 100 then total else 100
  }

  /** The five result messages of endGame, best first. */
  datatype Verdict = PerfectCouple | AmazingChemistry | LovelyCouple | Potential | KeepWorking

  function VerdictFor(compatibility: int): (v: Verdict)
    ensures v == PerfectCouple <==> compatibility >= 90
    ensures v == AmazingChemistry <==> 70 <= compatibility < 90
    ensures v == LovelyCouple <==> 50 <= compatibility < 70
    ensures v == Potential <==> 30 <= compatibility < 50
    ensures v == KeepWorking <==> compatibility < 30
  {
    if compatibility >= 90 then PerfectCouple
    else if compatibility >= 70 then AmazingChemistry
    else if compatibility >= 50 then LovelyCouple
    else if compatibility >= 30 then Potential
    else KeepWorking
  }

  /** Position of a verdict, 0 for the best. */
  function Rank(v: Verdict): nat {
    match v
    case PerfectCouple => 0
    case AmazingChemistry => 1
    case LovelyCouple => 2
    case Potential => 3
    case KeepWorking => 4
  }

  /** More hearts between the two never earn a worse verdict. */
  lemma VerdictMonotone(total1: int, total2: int)
    requires total1 <= total2
    ensures Rank(VerdictFor(Compatibility(total2))) <= Rank(VerdictFor(Compatibility(total1)))
  {
  }

  // ---------------------------------------------------------------------------
  // The game

  datatype Side = SelfSide | PartnerSide

  /** What initGame receives. */
  datatype PlayerData = PlayerData(selfName: Text, selfGender: Text, partnerName: Text, partnerGender: Text)

  /** The payload of onGameUpdate, and of updatePartnerState on the other side. */
  datatype PlayerUpdate = PlayerUpdate(playerX: int, playerY: int, score: int, isJumping: bool)

  /** The payload of onGameOver. */
  datatype GameResults = GameResults(
    compatibility: int, verdict: Verdict,
    selfScore: int, partnerScore: int, selfName: Text, partnerName: Text)

  /** What the environment supplies for one frame: the arrow keys held, and
      the two Math.random draws, already scaled (the heart's height on the
      canvas and the obstacle's height). */
  datatype Input = Input(rightHeld: bool, leftHeld: bool, heartY: int, obstacleHeight: int)

  /** `items` plus `r` when `due`. */
  function Spawned(items: seq<Rect>, due: bool, r: Rect): seq<Rect> {
    if due then items + [r] else items
  }

  // ---------------------------------------------------------------------------
  // Construction and resizeCanvas's guard

  /** The two entries of `this.players`. */
  datatype Roster = Roster(self: Player, partner: Player)

  /** What the constructor's field initialisers give the players. */
  const InitialRoster: Roster := Roster(
    Player(Some(""), Some(""), Pink, 50, 0, false, 0, 0),
    Player(Some(""), Some(""), Blue, 50, 0, false, 0, 0))

  /** The part of the object resizeCanvas reads and writes: the ground, and
      `this.players`, None while it is still undefined. */
  datatype Frame = Frame(ground: int, players: Option<Roster>)

  /** resizeCanvas as written: its guard reads `this.players.self`, which
      throws (None) while `this.players` is undefined. Otherwise the ground
      lies 80 pixels above the bottom and both players stand on it. */
  function ResizeAsWritten(f: Frame, height: int): (r: Option<Frame>)
    ensures r.None? <==> f.players.None?
    ensures r.Some? ==> r.value.ground == height - 80
    ensures r.Some? ==> r.value.players == Some(Roster(
      f.players.value.self.(y := height - 80 - PlayerHeight),
      f.players.value.partner.(y := height - 80 - PlayerHeight)))
  {
    match f.players
    case None => None
    case Some(roster) =>
      var ground := height - 80;
      Some(Frame(ground, Some(Roster(roster.self.(y := ground - PlayerHeight),
                                     roster.partner.(y := ground - PlayerHeight)))))
  }

  /** resizeCanvas with the guard it evidently means (`this.players &&
      this.players.self`): it never throws, skips the players while they are
      undefined, and otherwise does what the code as written does. */
  function ResizeGuarded(f: Frame, height: int): (r: Frame)
    ensures r.ground == height - 80
    ensures f.players.None? ==> r.players.None?
    ensures f.players.Some? ==> ResizeAsWritten(f, height) == Some(r)
  {
    if f.players.None? then Frame(height - 80, None) else ResizeAsWritten(f, height).value
  }

  /** The constructor as written: resizeCanvas runs before `this.players` is
      assigned, then the initialisers set the players and reset the ground to
      0. None when it throws. */
  function ConstructedAsWritten(height: int): Option<Frame> {
    match ResizeAsWritten(Frame(0, None), height)
    case None => None
    case Some(_) => Some(Frame(0, Some(InitialRoster)))
  }

  /** The same constructor with the guard corrected. */
  function ConstructedGuarded(height: int): Frame {
    var _ := ResizeGuarded(Frame(0, None), height);
    Frame(0, Some(InitialRoster))
  }

  /** As written, `new LoveRunGame(...)` throws on every canvas, so the
      global instance of game.js is never created. */
  lemma ConstructorThrows(height: int)
    ensures ConstructedAsWritten(height).None?
  {
  }

  /** With the guard corrected, construction succeeds on every canvas; the
      ground the resize computed is overwritten by the initialiser, and the
      players are as initialised. */
  lemma GuardedConstructorSucceeds(height: int)
    ensures ConstructedGuarded(height) == Frame(0, Some(InitialRoster))
    ensures ResizeGuarded(Frame(0, None), height).ground == height - 80
  {
  }

  class LoveRunGame {
    var canvasWidth: int
    var ground: int
    var isRunning: bool
    const gameTime: int := 60
    /** Milliseconds left; the source counts seconds. */
    var timeRemaining: int
    var lastTimestamp: int

    var self: Player
    var partner: Player

    var hearts: seq<Rect>
    var obstacles: seq<Rect>
    const heartSpawnRate: int := 1000
    const obstacleSpawnRate: int := 2000
    var lastHeartSpawn: int
    var lastObstacleSpawn: int

    /** The line last written to the feedback element; None before the first. */
    var feedback: Option<Feedback>
    /** onGameUpdate and onGameOver calls, oldest first. */
    var updates: seq<PlayerUpdate>
    var outcomes: seq<GameResults>

    ghost predicate Valid()
      reads this
    {
      self.score >= 0
    }

    /** The state the constructor, with resizeCanvas's guard corrected,
        sets up on a canvas of the given size: the field initialisers leave
        `ground` at 0 and both players at y = 0 (`ConstructedGuarded`). */
    constructor (width: int, height: int)
      ensures Valid()
      ensures canvasWidth == width && ground == 0 && !isRunning && timeRemaining == 60 * 1000 && lastTimestamp == 0
      ensures Frame(ground, Some(Roster(self, partner))) == ConstructedGuarded(height)
      ensures self == InitialRoster.self && partner == InitialRoster.partner
      ensures hearts == [] && obstacles == [] && lastHeartSpawn == 0 && lastObstacleSpawn == 0
      ensures feedback.None? && updates == [] && outcomes == []
    {
      canvasWidth, ground := width, 0;
      isRunning, timeRemaining, lastTimestamp := false, 60 * 1000, 0;
      self := InitialRoster.self;
      partner := InitialRoster.partner;
      hearts, obstacles := [], [];
      lastHeartSpawn, lastObstacleSpawn := 0, 0;
      feedback, updates, outcomes := None, [], [];
    }

    /** resizeCanvas: the ground lies 80 pixels above the bottom and both
        players are put back on it. */
    method Resize(width: int, height: int)
      modifies this`canvasWidth, this`ground, this`self, this`partner
      ensures canvasWidth == width && ground == height - 80
      ensures self == old(self).(y := ground - PlayerHeight)
      ensures partner == old(partner).(y := ground - PlayerHeight)
    {
      canvasWidth := width;
      ground := height - 80;
      self := self.(y := ground - PlayerHeight);
      partner := partner.(y := ground - PlayerHeight);
    }

    /** initGame: names, genders and colours from `data`, both players back
        on the ground at x = 50 and x = 150 with no score, no hearts, no
        obstacles and the full time. Jump state, spawn times and the running
        flag are left as they were. */
    method InitGame(data: PlayerData)
      modifies this`self, this`partner, this`hearts, this`obstacles, this`timeRemaining, this`feedback
      ensures Valid()
      ensures self == old(self).(name := data.selfName, gender := data.selfGender, color := ColorFor(data.selfGender),
                                 x := 50, y := ground - PlayerHeight, score := 0)
      ensures partner == old(partner).(name := data.partnerName, gender := data.partnerGender, color := ColorFor(data.partnerGender),
                                       x := 150, y := ground - PlayerHeight, score := 0)
      ensures hearts == [] && obstacles == [] && timeRemaining == gameTime * 1000
      ensures feedback == Some(NeckAndNeck)
    {
      self := self.(name := data.selfName, gender := data.selfGender, color := ColorFor(data.selfGender));
      partner := partner.(name := data.partnerName, gender := data.partnerGender, color := ColorFor(data.partnerGender));
      self := self.(x := 50, y := ground - PlayerHeight);
      partner := partner.(x := 150, y := ground - PlayerHeight);
      self := self.(score := 0);
      partner := partner.(score := 0);
      hearts, obstacles := [], [];
      timeRemaining := gameTime * 1000;
      UpdateGameFeedback();
    }

    /** startGame: starts the clock unless the game already runs. */
    method StartGame(now: int)
      modifies this`isRunning, this`lastTimestamp
      ensures isRunning
      ensures lastTimestamp == if old(isRunning) then old(lastTimestamp) else now
    {
      if !isRunning {
        isRunning := true;
        lastTimestamp := now;
      }
    }

    method StopGame()
      modifies this`isRunning
      ensures !isRunning
    {
      isRunning := false;
    }

    /** updateGameFeedback, with the element reduced to the line it shows. */
    method UpdateGameFeedback()
      modifies this`feedback
      ensures feedback == Some(FeedbackFor(self.score - partner.score))
    {
      feedback := Some(FeedbackFor(self.score - partner.score));
    }

    /** jump: only a player on the ground takes off. */
    method Jump(side: Side)
      modifies this`self, this`partner
      ensures side == SelfSide ==> self == Jumped(old(self)) && partner == old(partner)
      ensures side == PartnerSide ==> partner == Jumped(old(partner)) && self == old(self)
      ensures old((side == SelfSide && self.isJumping) || (side == PartnerSide && partner.isJumping)) ==> unchanged(this)
    {
      if side == SelfSide {
        if !self.isJumping {
          self := self.(isJumping := true, velocity := -JumpForce);
        }
      } else {
        if !partner.isJumping {
          partner := partner.(isJumping := true, velocity := -JumpForce);
        }
      }
    }

    /** The horizontal part of updatePlayer for the own player: a step right
        and/or a step left, then the clamp to the canvas. */
    method MoveSelf(rightHeld: bool, leftHeld: bool)
      modifies this`self
      ensures self == old(self).(x := ClampX(old(self.x) + (if rightHeld then Speed else 0) - (if leftHeld then Speed else 0),
                                             PlayerWidth, canvasWidth))
      ensures PlayerWidth <= canvasWidth ==> 0 <= self.x <= canvasWidth - PlayerWidth
    {
      var x := self.x;
      if rightHeld {
        x := x + Speed;
      }
      if leftHeld {
        x := x - Speed;
      }
      if x < 0 {
        x := 0;
      }
      if x + PlayerWidth > canvasWidth {
        x := canvasWidth - PlayerWidth;
      }
      self := self.(x := x);
    }

    /** spawnHeart: a 30 x 30 heart at the right edge, at height `y`. */
    method SpawnHeart(y: int)
      modifies this`hearts
      ensures hearts == old(hearts) + [Rect(canvasWidth, y, HeartSize, HeartSize)]
    {
      hearts := hearts + [Rect(canvasWidth, y, HeartSize, HeartSize)];
    }

    /** spawnObstacle: an obstacle 30 wide and `height` tall standing on the
        ground at the right edge. */
    method SpawnObstacle(height: int)
      modifies this`obstacles
      ensures obstacles == old(obstacles) + [Rect(canvasWidth, ground - height, ObstacleWidth, height)]
    {
      obstacles := obstacles + [Rect(canvasWidth, ground - height, ObstacleWidth, height)];
    }

    /** The heart loop of update: from the last heart to the first, move it,
        collect it if it touches the own player, drop it if it left the
        canvas. Each collected heart scores one and refreshes the feedback. */
    method SweepHearts()
      requires Valid()
      modifies this`hearts, this`self, this`feedback
      ensures Valid()
      ensures hearts == Survivors(old(hearts), Box(old(self)), GameSpeed)
      ensures self == old(self).(score := old(self.score) + Hits(old(hearts), Box(old(self)), GameSpeed))
      ensures feedback == if Hits(old(hearts), Box(old(self)), GameSpeed) > 0
        then Some(FeedbackFor(self.score - partner.score)) else old(feedback)
    {
      ghost var items := hearts;
      ghost var player := Box(self);
      ghost var start := self;
      var i := |hearts|;
      while i > 0
        invariant 0 <= i <= |items|
        invariant hearts == items[..i] + Survivors(items[i..], player, GameSpeed)
        invariant self == start.(score := start.score + Hits(items[i..], player, GameSpeed))
        invariant feedback == if Hits(items[i..], player, GameSpeed) > 0
          then Some(FeedbackFor(self.score - partner.score)) else old(feedback)
      {
        i := i - 1;
        assert items[i..][1..] == items[i + 1..];
        assert hearts[..i] == items[..i] && hearts[i] == items[i];
        var heart := hearts[i].(x := hearts[i].x - GameSpeed);
        if Collides(Box(self), heart) {
          self := self.(score := self.score + 1);
          hearts := hearts[..i] + hearts[i + 1..];
          UpdateGameFeedback();
          continue;
        }
        if OffScreen(heart) {
          hearts := hearts[..i] + hearts[i + 1..];
        } else {
          hearts := hearts[..i] + [heart] + hearts[i + 1..];
        }
      }
      assert items[0..] == items;
    }

    /** The obstacle loop of update: like the heart loop, but a hit costs a
        point, and only while the score is positive. */
    method SweepObstacles()
      requires Valid()
      modifies this`obstacles, this`self, this`feedback
      ensures Valid()
      ensures obstacles == Survivors(old(obstacles), Box(old(self)), GameSpeed)
      ensures self == old(self).(score := Penalised(old(self.score), Hits(old(obstacles), Box(old(self)), GameSpeed)))
      ensures feedback == if Hits(old(obstacles), Box(old(self)), GameSpeed) > 0
        then Some(FeedbackFor(self.score - partner.score)) else old(feedback)
    {
      ghost var items := obstacles;
      ghost var player := Box(self);
      ghost var start := self;
      var i := |obstacles|;
      while i > 0
        invariant 0 <= i <= |items|
        invariant obstacles == items[..i] + Survivors(items[i..], player, GameSpeed)
        invariant self == start.(score := Penalised(start.score, Hits(items[i..], player, GameSpeed)))
        invariant self.score >= 0
        invariant feedback == if Hits(items[i..], player, GameSpeed) > 0
          then Some(FeedbackFor(self.score - partner.score)) else old(feedback)
      {
        i := i - 1;
        assert items[i..][1..] == items[i + 1..];
        assert obstacles[..i] == items[..i] && obstacles[i] == items[i];
        var obstacle := obstacles[i].(x := obstacles[i].x - GameSpeed);
        if Collides(Box(self), obstacle) {
          if self.score > 0 {
            self := self.(score := self.score - 1);
          }
          obstacles := obstacles[..i] + obstacles[i + 1..];
          UpdateGameFeedback();
          continue;
        }
        if OffScreen(obstacle) {
          obstacles := obstacles[..i] + obstacles[i + 1..];
        } else {
          obstacles := obstacles[..i] + [obstacle] + obstacles[i + 1..];
        }
      }
      assert items[0..] == items;
    }

    /** The state one frame of update leaves, at `now` by performance.now():
        the own player has moved and been clamped, a heart and an obstacle
        have been spawned where due, both sweeps have run on the moved player,
        the score has gained the hearts collected and lost the obstacles hit
        (never below zero), the feedback line is refreshed exactly when
        something was hit, and the own player has been reported. The partner,
        the canvas and the clock are not part of it. */
    twostate predicate Stepped(now: int, input: Input)
      reads this
    {
      var heartDue := now - old(lastHeartSpawn) > heartSpawnRate;
      var obstacleDue := now - old(lastObstacleSpawn) > obstacleSpawnRate;
      var moved := old(self).(x := ClampX(old(self.x) + (if input.rightHeld then Speed else 0)
                                          - (if input.leftHeld then Speed else 0), PlayerWidth, canvasWidth));
      var newHearts := Spawned(old(hearts), heartDue, Rect(canvasWidth, input.heartY, HeartSize, HeartSize));
      var newObstacles := Spawned(old(obstacles), obstacleDue,
                                  Rect(canvasWidth, ground - input.obstacleHeight, ObstacleWidth, input.obstacleHeight));
      && lastHeartSpawn == (if heartDue then now else old(lastHeartSpawn))
      && lastObstacleSpawn == (if obstacleDue then now else old(lastObstacleSpawn))
      && hearts == Survivors(newHearts, Box(moved), GameSpeed)
      && obstacles == Survivors(newObstacles, Box(moved), GameSpeed)
      && self == moved.(score := Penalised(moved.score + Hits(newHearts, Box(moved), GameSpeed),
                                           Hits(newObstacles, Box(moved), GameSpeed)))
      && feedback == (if Hits(newHearts, Box(moved), GameSpeed) + Hits(newObstacles, Box(moved), GameSpeed) > 0
                      then Some(FeedbackFor(self.score - partner.score)) else old(feedback))
      && updates == old(updates) + [PlayerUpdate(self.x, self.y, self.score, self.isJumping)]
    }

    /** The spawning part of update: a heart once more than heartSpawnRate
        ms have passed since the last one, an obstacle once more than
        obstacleSpawnRate ms have. */
    method SpawnDue(now: int, input: Input)
      modifies this`hearts, this`obstacles, this`lastHeartSpawn, this`lastObstacleSpawn
      ensures var heartDue := now - old(lastHeartSpawn) > heartSpawnRate;
        && hearts == Spawned(old(hearts), heartDue, Rect(canvasWidth, input.heartY, HeartSize, HeartSize))
        && lastHeartSpawn == (if heartDue then now else old(lastHeartSpawn))
      ensures var obstacleDue := now - old(lastObstacleSpawn) > obstacleSpawnRate;
        && obstacles == Spawned(old(obstacles), obstacleDue,
                                Rect(canvasWidth, ground - input.obstacleHeight, ObstacleWidth, input.obstacleHeight))
        && lastObstacleSpawn == (if obstacleDue then now else old(lastObstacleSpawn))
    {
      if now - lastHeartSpawn > heartSpawnRate {
        SpawnHeart(input.heartY);
        lastHeartSpawn := now;
      }
      if now - lastObstacleSpawn > obstacleSpawnRate {
        SpawnObstacle(input.obstacleHeight);
        lastObstacleSpawn := now;
      }
    }

    /** update: move the own player, spawn what is due, sweep hearts then
        obstacles, and report the own player. */
    method Update(now: int, input: Input)
      requires Valid()
      modifies this`self, this`hearts, this`obstacles, this`lastHeartSpawn, this`lastObstacleSpawn
      modifies this`feedback, this`updates
      ensures Valid()
      ensures Stepped(now, input)
    {
      MoveSelf(input.rightHeld, input.leftHeld);
      ghost var moved := self;
      SpawnDue(now, input);
      ghost var heartHits := Hits(hearts, Box(moved), GameSpeed);
      ghost var obstacleHits := Hits(obstacles, Box(moved), GameSpeed);
      SweepHearts();
      ghost var collected := self;
      SweepObstacles();
      assert obstacleHits == 0 ==> self == collected;
      updates := updates + [PlayerUpdate(self.x, self.y, self.score, self.isJumping)];
    }

    /** One frame of gameLoop at `timestamp`: nothing when stopped; the clock
        runs down by the time since the last frame, and the game ends when it
        reaches zero, otherwise it is updated. */
    method GameLoop(timestamp: int, now: int, input: Input)
      requires Valid()
      modifies this`lastTimestamp, this`timeRemaining, this`isRunning
      modifies this`self, this`hearts, this`obstacles, this`lastHeartSpawn, this`lastObstacleSpawn
      modifies this`feedback, this`updates, this`outcomes
      ensures Valid()
      ensures !old(isRunning) ==> unchanged(this)
      ensures old(isRunning) ==>
        lastTimestamp == timestamp && timeRemaining == old(timeRemaining) - (timestamp - old(lastTimestamp))
      ensures old(isRunning) && timeRemaining <= 0 ==>
        && !isRunning
        && outcomes == old(outcomes) + [GameResults(
             Compatibility(self.score + partner.score), VerdictFor(Compatibility(self.score + partner.score)),
             self.score, partner.score, self.name, partner.name)]
        && self == old(self) && partner == old(partner) && hearts == old(hearts) && obstacles == old(obstacles)
        && lastHeartSpawn == old(lastHeartSpawn) && lastObstacleSpawn == old(lastObstacleSpawn)
        && feedback == old(feedback) && updates == old(updates)
      ensures old(isRunning) && timeRemaining > 0 ==>
        isRunning && outcomes == old(outcomes) && Stepped(now, input)
      ensures isRunning ==> timeRemaining > 0
    {
      if !isRunning {
        return;
      }
      var delta := timestamp - lastTimestamp;
      lastTimestamp := timestamp;
      timeRemaining := timeRemaining - delta;
      if timeRemaining <= 0 {
        EndGame();
        return;
      }
      Update(now, input);
    }

    /** updatePartnerState: copies exactly the four reported fields into the
        partner; the own player is untouched. */
    method UpdatePartnerState(u: PlayerUpdate)
      requires Valid()
      modifies this`partner, this`feedback
      ensures Valid()
      ensures partner == old(partner).(x := u.playerX, y := u.playerY, score := u.score, isJumping := u.isJumping)
      ensures feedback == Some(FeedbackFor(self.score - u.score))
    {
      partner := partner.(x := u.playerX, y := u.playerY, score := u.score, isJumping := u.isJumping);
      UpdateGameFeedback();
    }

    /** endGame: stops the game and reports the compatibility of the two
        scores, its verdict, the scores and the names. */
    method EndGame()
      modifies this`isRunning, this`outcomes
      ensures !isRunning
      ensures outcomes == old(outcomes) + [GameResults(
        Compatibility(self.score + partner.score), VerdictFor(Compatibility(self.score + partner.score)),
        self.score, partner.score, self.name, partner.name)]
    {
      isRunning := false;
      var total := self.score + partner.score;
      var compatibility := Compatibility(total);
      var verdict := VerdictFor(compatibility);
      outcomes := outcomes + [GameResults(compatibility, verdict, self.score, partner.score, self.name, partner.name)];
    }
  }
}
