/** The game itself (`LowRezRogue` in Game1.cs): a 64 by 64 tile map, the
    player, the enemies, and the turn loop that alternates between the
    player's move and the enemies' turn.

    On the player's turn a newly pressed arrow key moves the player one tile,
    if the tile is on the map and walkable; Left is tried first, then Right,
    Up and Down. Standing on a tile without an interaction, the player
    attacks every enemy on that tile: the damage roll is subtracted from the
    enemy's health, a dead enemy is removed from the list, and a survivor
    shows the damage and pushes the player back to where the turn began.
    Any move ends the player's turn; the enemies' turn does nothing yet and
    hands the turn back. `Update` dispatches on the scene and turn state,
    ticks the interface, advances animated tiles and centres the camera.

    The random damage rolls are a parameter (`rolls[e]` is the roll made if
    the enemy at list index `e` is attacked), and so is the keyboard. */
module Rogue {
  import opened Common
  import Interface

  /** Pixels per tile and the map's size in tiles. */
  const MapPixels: int := 8
  const MapWidth: int := 64
  const MapHeight: int := 64
  /** Seconds between two interface ticks and between two tile animation frames. */
  const UiTickTime: real := 0.0333
  const TileFrameTime: real := 0.33
  /** Camera zoom at start (`Camera.zoom`) and the one F12 switches to. */
  const DefaultZoom: int := 8
  const OverviewZoom: int := 1

  datatype TileKind = Normal | Blocking | InteractionTile | Deadly

  /** The interactions a tile can carry; `Exit` is the one the turn's switch
      names besides those the tile set declares. */
  datatype InteractionType = NoInteraction | Shop | Entry | Exit | Castle

  /** The part of a tile set's `TileType` the game reads. */
  datatype TileType = TileType(kind: TileKind, interaction: InteractionType, spriteRect: seq<Rect>)

  /** A map cell (the `Tile` struct): its frames, whether it animates,
      whether it can be entered, its type and the frame shown. */
  datatype Tile = Tile(spriteRect: seq<Rect>, animated: bool, walkable: bool, tileType: TileType, spriteIndex: int)

  /** The `Tile` constructor: a tile animates when its type has more than one frame. */
  function NewTile(walkable: bool, tileType: TileType): (t: Tile)
    ensures t.animated <==> |tileType.spriteRect| > 1
    ensures t.spriteRect == tileType.spriteRect && t.walkable == walkable && t.tileType == tileType
    ensures TileOk(t) && t.spriteIndex == 0
  {
    Tile(tileType.spriteRect, |tileType.spriteRect| > 1, walkable, tileType, 0)
  }

  /** The frame shown is one of the tile's frames whenever it animates. */
  predicate TileOk(t: Tile)
  {
    && (t.animated <==> |t.spriteRect| > 1)
    && (|t.spriteRect| > 0 ==> 0 <= t.spriteIndex < |t.spriteRect|)
  }

  /** `Tile.UpdateAnimationIndex`: the next frame, back to the first after the last. */
  function UpdateAnimationIndex(t: Tile): (r: Tile)
    ensures r == t.(spriteIndex := r.spriteIndex)
    ensures 0 <= t.spriteIndex < |t.spriteRect| ==> r.spriteIndex == (t.spriteIndex + 1) % |t.spriteRect|
  {
    var i := t.spriteIndex + 1;
    t.(spriteIndex := if i == |t.spriteRect| then 0 else i)
  }

  /** What one animation frame of `Update` does to a tile. */
  function AnimateTile(t: Tile): (r: Tile)
    ensures TileOk(t) ==> TileOk(r)
    ensures r.walkable == t.walkable && r.tileType == t.tileType
  {
    if t.animated then UpdateAnimationIndex(t) else t
  }

  /** `n` animation frames. */
  function AnimateN(t: Tile, n: nat): Tile
    decreases n
  {
    if n == 0 then t else AnimateN(AnimateTile(t), n - 1)
  }

  lemma {:induction false} AnimateAdd(t: Tile, a: nat, b: nat)
    ensures AnimateN(t, a + b) == AnimateN(AnimateN(t, a), b)
    decreases a
  {
    if a > 0 {
      AnimateAdd(AnimateTile(t), a - 1, b);
    }
  }

  /** Before the last frame, `k` animation frames advance the index by `k`. */
  lemma {:induction false} AnimationClimbs(t: Tile, k: nat)
    requires TileOk(t) && t.animated && t.spriteIndex + k < |t.spriteRect|
    ensures AnimateN(t, k) == t.(spriteIndex := t.spriteIndex + k)
    decreases k
  {
    if k > 0 {
      AnimationClimbs(AnimateTile(t), k - 1);
    }
  }

  /** A full cycle of frames brings an animated tile back to where it
      started: up to the last frame, over to the first, and up again. */
  lemma AnimationCycles(t: Tile)
    requires TileOk(t) && t.animated
    ensures AnimateN(t, |t.spriteRect|) == t
  {
    var len, i := |t.spriteRect|, t.spriteIndex;
    var top := t.(spriteIndex := len - 1);
    var bottom := t.(spriteIndex := 0);
    AnimationClimbs(t, len - 1 - i);
    assert AnimateN(t, len - 1 - i) == top;
    assert AnimateTile(top) == bottom;
    AnimateAdd(t, len - 1 - i, 1);
    assert AnimateN(t, len - i) == bottom;
    AnimationClimbs(bottom, i);
    assert AnimateN(bottom, i) == t;
    AnimateAdd(t, len - i, i);
  }

  // ---------------------------------------------------------------- actors

  /** The player struct's game values. */
  datatype Player = Player(position: Point, health: int, armor: int, damage: int)

  /** The `Player` constructor's values (it also shows the health, see
      `LowRezRogue.PlacePlayer`). */
  function NewPlayer(position: Point): (p: Player)
    ensures p.position == position && p.health == 10 && p.damage == 5 && p.armor == 5
  {
    Player(position, 10, 5, 5)
  }

  /** The enemy's game values. */
  datatype Enemy = Enemy(position: Point, health: int, armor: int, damage: int)

  /** A new `Enemy` with its field initialisers. */
  function NewEnemy(position: Point): (e: Enemy)
    ensures e.position == position && e.health == 1 && e.armor == 1 && e.damage == 3
  {
    Enemy(position, 1, 1, 3)
  }

  /** `Player.TakeDamage`: the player and the interface after the hit. */
  datatype Wounded = Wounded(player: Player, hud: Interface.Hud)

  function TakeDamageSpec(p: Player, h: Interface.Hud, d: int): (r: Wounded)
    requires |h.panels| == 5
    ensures r.player == p.(health := p.health - d)
    ensures r.hud.allOpen == h.allOpen && |r.hud.panels| == 5
  {
    var p := p.(health := p.health - d);
    if p.health <= 0 then Wounded(p, h)
    else Wounded(p, Interface.Hud(Interface.UpdateHealthPanels(h.panels, p.health), h.allOpen))
  }

  /** A hit lowers health by exactly the damage. While the player lives the
      health number shows the new health (the fallback sprite beyond 22);
      a lethal hit leaves the interface as it was. */
  lemma TakeDamageShowsHealth(p: Player, h: Interface.Hud, d: int)
    requires |h.panels| == 5
    ensures var r := TakeDamageSpec(p, h, d);
      && r.player.health == p.health - d
      && (p.health - d <= 0 ==> r.hud == h)
      && (0 < p.health - d <= 22 ==>
            r.hud.panels[Interface.HealthNumIndex].spriteRect == Interface.DamageSpriteRects[p.health - d])
      && (p.health - d > 22 ==>
            r.hud.panels[Interface.HealthNumIndex].spriteRect == Interface.DamageSpriteRects[0])
      && (forall i :: 0 <= i < 5 && i != Interface.HealthNumIndex ==> r.hud.panels[i] == h.panels[i])
  {
  }

  // ------------------------------------------------------------------ move

  predicate InMap(p: Point)
  {
    0 <= p.x < MapWidth && 0 <= p.y < MapHeight
  }

  predicate GridShape(g: array2<Tile>)
  {
    g.Length0 == MapWidth && g.Length1 == MapHeight
  }

  /** A tile the player may step onto. */
  predicate CanEnter(g: array2<Tile>, p: Point)
    reads g
    requires GridShape(g)
  {
    InMap(p) && g[p.x, p.y].walkable
  }

  /** The four neighbours and the key for each, in the order they are tried. */
  function Neighbours(pos: Point): (r: seq<(Key, Point)>)
    ensures |r| == 4
    ensures forall i :: 0 <= i < 4 ==> Adjacent(pos, r[i].1)
  {
    [(Left, Point(pos.x - 1, pos.y)), (Right, Point(pos.x + 1, pos.y)),
     (Up, Point(pos.x, pos.y - 1)), (Down, Point(pos.x, pos.y + 1))]
  }

  predicate Adjacent(a: Point, b: Point)
  {
    || ((a.x - b.x == 1 || b.x - a.x == 1) && a.y == b.y)
    || ((a.y - b.y == 1 || b.y - a.y == 1) && a.x == b.x)
  }

  /** The first candidate whose key is newly pressed and whose tile can be entered. */
  function FirstOpen(g: array2<Tile>, cands: seq<(Key, Point)>, now: set<Key>, last: set<Key>): (r: Option<Point>)
    reads g
    requires GridShape(g)
    ensures r.Some? ==>
      exists i :: 0 <= i < |cands| && r.value == cands[i].1 && Pressed(cands[i].0, now, last) && CanEnter(g, cands[i].1)
        && forall j :: 0 <= j < i ==> !(Pressed(cands[j].0, now, last) && CanEnter(g, cands[j].1))
    ensures r.None? ==> forall i :: 0 <= i < |cands| ==> !(Pressed(cands[i].0, now, last) && CanEnter(g, cands[i].1))
    decreases |cands|
  {
    if cands == [] then None
    else if Pressed(cands[0].0, now, last) && CanEnter(g, cands[0].1) then Some(cands[0].1)
    else
      var r := FirstOpen(g, cands[1..], now, last);
      assert forall i :: 0 <= i < |cands| - 1 ==> cands[1..][i] == cands[i + 1];
      r
  }

  /** The result of the move part of `ProcessPlayerTurn`. */
  datatype Move = Move(position: Point, madeAction: bool)

  /** The move as the turn writes it: an else-if chain over Left, Right, Up
      and Down, each guarded by the map edge and the target's `walkable`. */
  function Step(g: array2<Tile>, pos: Point, now: set<Key>, last: set<Key>): (m: Move)
    reads g
    requires GridShape(g) && InMap(pos)
    ensures m.madeAction <==> m.position != pos
    ensures m.madeAction ==> Adjacent(pos, m.position) && CanEnter(g, m.position)
    ensures InMap(m.position)
  {
    if Pressed(Left, now, last) && pos.x > 0 && g[pos.x - 1, pos.y].walkable then
      Move(Point(pos.x - 1, pos.y), true)
    else if Pressed(Right, now, last) && pos.x < MapWidth - 1 && g[pos.x + 1, pos.y].walkable then
      Move(Point(pos.x + 1, pos.y), true)
    else if Pressed(Up, now, last) && pos.y > 0 && g[pos.x, pos.y - 1].walkable then
      Move(Point(pos.x, pos.y - 1), true)
    else if Pressed(Down, now, last) && pos.y < MapHeight - 1 && g[pos.x, pos.y + 1].walkable then
      Move(Point(pos.x, pos.y + 1), true)
    else
      Move(pos, false)
  }

  /** The move goes to the first neighbour, in the order Left, Right, Up,
      Down, whose key is newly pressed and whose tile can be entered, and
      stays put when there is none. */
  lemma StepTakesFirstOpen(g: array2<Tile>, pos: Point, now: set<Key>, last: set<Key>)
    requires GridShape(g) && InMap(pos)
    ensures var m := Step(g, pos, now, last);
      var first := FirstOpen(g, Neighbours(pos), now, last);
      && (first.Some? ==> m == Move(first.value, true))
      && (first.None? ==> m == Move(pos, false))
  {
    var n := Neighbours(pos);
    var n1, n2, n3 := n[1..], n[2..], n[3..];
    assert n1[1..] == n2 && n2[1..] == n3 && n3[1..] == [];
    assert FirstOpen(g, n3[1..], now, last) == None;
    assert FirstOpen(g, n3, now, last) ==
      if Pressed(Down, now, last) && CanEnter(g, n3[0].1) then Some(n3[0].1) else None;
    assert FirstOpen(g, n2, now, last) ==
      if Pressed(Up, now, last) && CanEnter(g, n2[0].1) then Some(n2[0].1) else FirstOpen(g, n3, now, last);
    assert FirstOpen(g, n1, now, last) ==
      if Pressed(Right, now, last) && CanEnter(g, n1[0].1) then Some(n1[0].1) else FirstOpen(g, n2, now, last);
    assert FirstOpen(g, n, now, last) ==
      if Pressed(Left, now, last) && CanEnter(g, n[0].1) then Some(n[0].1) else FirstOpen(g, n1, now, last);
  }

  // ----------------------------------------------------------------- melee

  /** What the combat loop leaves: the enemy list, the player's position and
      the damages shown, in order. */
  datatype Combat = Combat(enemies: seq<Enemy>, position: Point, shown: seq<int>)

  /** The combat loop from index `e` on: an enemy on the player's tile takes
      the roll; a dead one is removed (and the loop's index still advances,
      past the enemy that moved into its place); a survivor shows the damage
      and the player goes back to `cache`, where later enemies are then
      looked for. */
  function Melee(es: seq<Enemy>, e: nat, pos: Point, cache: Point, rolls: seq<int>): (r: Combat)
    requires |es| <= |rolls|
    ensures r.position == (if r.shown == [] then pos else cache)
    ensures |r.enemies| <= |es|
    ensures forall i :: 0 <= i < |r.shown| ==> r.shown[i] in rolls
    decreases |es| - e
  {
    if e >= |es| then Combat(es, pos, [])
    else if es[e].position == pos then
      var health := es[e].health - rolls[e];
      if health <= 0 then Melee(es[..e] + es[e + 1..], e + 1, pos, cache, rolls)
      else
        var c := Melee(es[e := es[e].(health := health)], e + 1, cache, cache, rolls);
        Combat(c.enemies, c.position, [rolls[e]] + c.shown)
    else Melee(es, e + 1, pos, cache, rolls)
  }

  /** The combat loop's invariant: the rest of the loop from `e`, with the
      damages `shown` so far, ends as the whole loop does in `target`. */
  predicate Tracks(es: seq<Enemy>, e: nat, pos: Point, cache: Point, rolls: seq<int>, shown: seq<int>, target: Combat)
    requires |es| <= |rolls|
  {
    var c := Melee(es, e, pos, cache, rolls);
    c.enemies == target.enemies && c.position == target.position && shown + c.shown == target.shown
  }

  /** One turn of the combat loop keeps `Tracks`, in the form the loop body
      takes: the roll is subtracted first and a dead enemy then removed. */
  lemma TracksStep(es: seq<Enemy>, e: nat, pos: Point, cache: Point, rolls: seq<int>, shown: seq<int>, target: Combat)
    requires |es| <= |rolls| && e < |es| && Tracks(es, e, pos, cache, rolls, shown, target)
    ensures es[e].position != pos ==> Tracks(es, e + 1, pos, cache, rolls, shown, target)
    ensures var hit := es[e := es[e].(health := es[e].health - rolls[e])];
      && (es[e].position == pos && hit[e].health <= 0 ==>
            Tracks(hit[..e] + hit[e + 1..], e + 1, pos, cache, rolls, shown, target))
      && (es[e].position == pos && hit[e].health > 0 ==>
            Tracks(hit, e + 1, cache, cache, rolls, shown + [rolls[e]], target))
  {
    var hit := es[e := es[e].(health := es[e].health - rolls[e])];
    assert hit[..e] + hit[e + 1..] == es[..e] + es[e + 1..];
    if es[e].position == pos && hit[e].health > 0 {
      var after := Melee(hit, e + 1, cache, cache, rolls);
      assert (shown + [rolls[e]]) + after.shown == shown + ([rolls[e]] + after.shown);
    }
  }

  /** At the end of the loop the invariant gives the whole loop's result. */
  lemma TracksDone(es: seq<Enemy>, e: nat, pos: Point, cache: Point, rolls: seq<int>, shown: seq<int>, target: Combat)
    requires |es| <= |rolls| && e >= |es| && Tracks(es, e, pos, cache, rolls, shown, target)
    ensures target == Combat(es, pos, shown)
  {
    assert shown + [] == shown;
  }

  /** With no enemy on the player's tile from `e` on, the loop changes nothing. */
  lemma {:induction false} MeleeClear(es: seq<Enemy>, e: nat, pos: Point, cache: Point, rolls: seq<int>)
    requires |es| <= |rolls|
    requires forall j :: e <= j < |es| ==> es[j].position != pos
    ensures Melee(es, e, pos, cache, rolls) == Combat(es, pos, [])
    decreases |es| - e
  {
    if e < |es| {
      MeleeClear(es, e + 1, pos, cache, rolls);
    }
  }

  /** Enemies elsewhere are passed over. */
  lemma {:induction false} MeleeSkipTo(es: seq<Enemy>, e: nat, i: nat, pos: Point, cache: Point, rolls: seq<int>)
    requires |es| <= |rolls| && e <= i <= |es|
    requires forall j :: e <= j < i ==> es[j].position != pos
    ensures Melee(es, e, pos, cache, rolls) == Melee(es, i, pos, cache, rolls)
    decreases i - e
  {
    if e < i {
      MeleeSkipTo(es, e + 1, i, pos, cache, rolls);
    }
  }

  /** One enemy on the target tile and none on the tile the player came
      from: if the roll kills it, it is removed and the player keeps the
      tile with no damage shown; otherwise it loses exactly the roll, the
      damage is shown and the player is back where the turn began. No
      other enemy changes either way. */
  lemma MeleeLoneEnemy(es: seq<Enemy>, i: nat, pos: Point, cache: Point, rolls: seq<int>)
    requires |es| <= |rolls| && i < |es| && pos != cache
    requires es[i].position == pos
    requires forall j :: 0 <= j < |es| && j != i ==> es[j].position != pos && es[j].position != cache
    ensures var r := Melee(es, 0, pos, cache, rolls);
      && (es[i].health - rolls[i] <= 0 ==> r == Combat(es[..i] + es[i + 1..], pos, []))
      && (es[i].health - rolls[i] > 0 ==>
            r == Combat(es[i := es[i].(health := es[i].health - rolls[i])], cache, [rolls[i]]))
  {
    MeleeSkipTo(es, 0, i, pos, cache, rolls);
    var health := es[i].health - rolls[i];
    if health <= 0 {
      var rest := es[..i] + es[i + 1..];
      assert forall j :: i + 1 <= j < |rest| ==> rest[j] == es[j + 1];
      MeleeClear(rest, i + 1, pos, cache, rolls);
    } else {
      var hit := es[i := es[i].(health := health)];
      MeleeClear(hit, i + 1, cache, cache, rolls);
    }
  }

  /** `RemoveAt` inside the counting loop: when two enemies share the
      target tile and the first dies, the second moves into the freed index,
      which the loop then steps past, so it is not attacked this turn. */
  lemma MeleeRemovalSkipsNext(es: seq<Enemy>, i: nat, pos: Point, cache: Point, rolls: seq<int>)
    requires |es| <= |rolls| && i + 1 < |es| && pos != cache
    requires es[i].position == pos && es[i + 1].position == pos
    requires es[i].health - rolls[i] <= 0
    requires forall j :: 0 <= j < |es| && j != i && j != i + 1 ==> es[j].position != pos && es[j].position != cache
    ensures Melee(es, 0, pos, cache, rolls) == Combat(es[..i] + es[i + 1..], pos, [])
    ensures es[i + 1] in Melee(es, 0, pos, cache, rolls).enemies
  {
    MeleeSkipTo(es, 0, i, pos, cache, rolls);
    var rest := es[..i] + es[i + 1..];
    assert rest[i] == es[i + 1];
    assert forall j :: i + 1 <= j < |rest| ==> rest[j] == es[j + 1];
    MeleeClear(rest, i + 1, pos, cache, rolls);
  }

  /** The roll `Random.Next(damage - 1, damage + 2)` lies in
      `[damage - 1, damage + 1]`. */
  predicate RollsFor(p: Player, rolls: seq<int>)
  {
    forall i :: 0 <= i < |rolls| ==> p.damage - 1 <= rolls[i] <= p.damage + 1
  }

  /** The starting player kills a freshly spawned enemy with any roll. */
  lemma NewEnemyDiesInOneHit(position: Point, target: Point, rolls: seq<int>, i: nat)
    requires RollsFor(NewPlayer(position), rolls) && i < |rolls|
    ensures NewEnemy(target).health - rolls[i] <= 0
  {
  }

  // ---------------------------------------------------------------- camera

  /** The camera's centre along one axis, for the player at tile `p` on a map
      `extent` tiles long: clamped so the 64-pixel view stays on the map. */
  function CameraAxis(p: int, extent: int): (c: int)
    ensures extent >= 8 ==> 32 <= c <= extent * MapPixels - 32
    ensures 4 <= p <= extent - 5 ==> c == p * MapPixels
  {
    if p < 4 then 32
    else if p > extent - 5 then extent * MapPixels - 64 / 2
    else p * MapPixels
  }

  /** The 64-pixel view centred on the camera shows the player's whole tile
      and never reaches past the map's edges. */
  lemma CameraShowsPlayer(p: int, extent: int)
    requires extent >= 8 && 0 <= p < extent
    ensures var c := CameraAxis(p, extent);
      && c - 32 <= p * MapPixels && p * MapPixels + MapPixels <= c + 32
      && 0 <= c - 32 && c + 32 <= extent * MapPixels
  {
  }

  /** The camera moves the way the player does. */
  lemma CameraMonotone(p: int, q: int, extent: int)
    requires extent >= 8 && p <= q
    ensures CameraAxis(p, extent) <= CameraAxis(q, extent)
  {
  }

  // ------------------------------------------------------------------ turn

  datatype GameState = PlayerMove | AiTurn

  /** What a turn reads and changes: the player, the enemies, the turn state,
      the camera zoom and the interface panels. */
  datatype Turn = Turn(player: Player, enemies: seq<Enemy>, gameState: GameState, zoom: int, hud: Interface.Hud)

  /** F12 switches between the normal zoom and the overview; any other zoom stays. */
  function ToggleZoom(z: int): (r: int)
    ensures (z == DefaultZoom || z == OverviewZoom) ==> r != z && (r == DefaultZoom || r == OverviewZoom)
    ensures !(z == DefaultZoom || z == OverviewZoom) ==> r == z
  {
    if z == DefaultZoom then OverviewZoom else if z == OverviewZoom then DefaultZoom else z
  }

  lemma ToggleZoomTwice(z: int)
    ensures ToggleZoom(ToggleZoom(z)) == z
  {
  }

  /** `ShowDamage` for each damage in turn, one at a time. */
  lemma {:induction false} ShowDamageAllSnoc(ps: seq<Interface.Panel>, ds: seq<int>, d: int)
    requires |ps| == 5
    ensures Interface.ShowDamageAll(ps, ds + [d]) == Interface.ShowDamagePanels(Interface.ShowDamageAll(ps, ds), d)
    decreases |ds|
  {
    if ds == [] {
      assert [d][1..] == [];
    } else {
      assert (ds + [d])[1..] == ds[1..] + [d];
      ShowDamageAllSnoc(Interface.ShowDamagePanels(ps, ds[0]), ds[1..], d);
    }
  }

  /** The debug keys at the start of the player's turn: F12 toggles the zoom,
      Left Control toggles every panel, Left Alt shows a damage of 5. */
  function Hotkeys(t: Turn, now: set<Key>, last: set<Key>): (r: Turn)
    requires |t.hud.panels| == 5
    ensures r.player == t.player && r.enemies == t.enemies && r.gameState == t.gameState
    ensures |r.hud.panels| == 5
    ensures r.zoom == (if Pressed(F12, now, last) then ToggleZoom(t.zoom) else t.zoom)
  {
    var t := if Pressed(F12, now, last) then t.(zoom := ToggleZoom(t.zoom)) else t;
    var t := if Pressed(LeftControl, now, last) then t.(hud := Interface.ToggleAllSpec(t.hud)) else t;
    if Pressed(LeftAlt, now, last) then
      t.(hud := Interface.Hud(Interface.ShowDamagePanels(t.hud.panels, 5), t.hud.allOpen))
    else t
  }

  /** The switch on the interaction of the tile the player now stands on:
      only a tile without one runs the combat loop; the others do nothing. */
  function Interact(t: Turn, g: array2<Tile>, cache: Point, rolls: seq<int>): (r: Turn)
    reads g
    requires GridShape(g) && InMap(t.player.position) && |t.hud.panels| == 5 && |t.enemies| <= |rolls|
    ensures r.gameState == t.gameState && r.zoom == t.zoom
    ensures r.player == t.player.(position := r.player.position)
    ensures r.player.position == t.player.position || r.player.position == cache
    ensures |r.hud.panels| == 5 && r.hud.allOpen == t.hud.allOpen
  {
    var pos := t.player.position;
    if g[pos.x, pos.y].tileType.interaction == NoInteraction then
      var c := Melee(t.enemies, 0, pos, cache, rolls);
      t.(enemies := c.enemies, player := t.player.(position := c.position),
         hud := Interface.Hud(Interface.ShowDamageAll(t.hud.panels, c.shown), t.hud.allOpen))
    else t
  }

  /** `ProcessPlayerTurn`: debug keys, the move, the interaction of the tile
      reached, and `EndTurn` if the player moved. */
  function TurnSpec(t: Turn, g: array2<Tile>, now: set<Key>, last: set<Key>, rolls: seq<int>): (r: Turn)
    reads g
    requires GridShape(g) && InMap(t.player.position) && |t.hud.panels| == 5 && |t.enemies| <= |rolls|
    ensures InMap(r.player.position) && |r.hud.panels| == 5
  {
    var h := Hotkeys(t, now, last);
    var mv := Step(g, t.player.position, now, last);
    var moved := h.(player := h.player.(position := mv.position));
    var fought := Interact(moved, g, t.player.position, rolls);
    if mv.madeAction then fought.(gameState := AiTurn) else fought
  }

  /** `ProcessEnemyAI` followed by `EndAiTurn`. */
  function EnemyTurnSpec(t: Turn): (r: Turn)
    ensures r.gameState == PlayerMove
  {
    t.(gameState := PlayerMove)
  }

  /** After the player's turn the player is on the map, and either where the
      turn began or on a walkable tile next to it. */
  lemma TurnKeepsPlayerOnWalkableMap(t: Turn, g: array2<Tile>, now: set<Key>, last: set<Key>, rolls: seq<int>)
    requires GridShape(g) && InMap(t.player.position) && |t.hud.panels| == 5 && |t.enemies| <= |rolls|
    ensures var p := TurnSpec(t, g, now, last, rolls).player.position;
      InMap(p) && (p == t.player.position || (Adjacent(t.player.position, p) && CanEnter(g, p)))
  {
  }

  /** The turn passes to the enemies exactly when the player moved, even if
      a surviving enemy pushed the player back. */
  lemma TurnEndsIffMoved(t: Turn, g: array2<Tile>, now: set<Key>, last: set<Key>, rolls: seq<int>)
    requires GridShape(g) && InMap(t.player.position) && |t.hud.panels| == 5 && |t.enemies| <= |rolls|
    requires t.gameState == PlayerMove
    ensures TurnSpec(t, g, now, last, rolls).gameState == AiTurn <==> Step(g, t.player.position, now, last).madeAction
  {
  }

  /** Nothing but the player's hit changes an enemy or the enemy list, and
      on a tile with an interaction there is no fight at all. */
  lemma InteractionTileHasNoFight(t: Turn, g: array2<Tile>, now: set<Key>, last: set<Key>, rolls: seq<int>)
    requires GridShape(g) && InMap(t.player.position) && |t.hud.panels| == 5 && |t.enemies| <= |rolls|
    requires var p := Step(g, t.player.position, now, last).position;
      g[p.x, p.y].tileType.interaction != NoInteraction
    ensures var r := TurnSpec(t, g, now, last, rolls);
      r.enemies == t.enemies && r.player.position == Step(g, t.player.position, now, last).position
  {
  }

  /** Stepping onto a lone enemy that survives the roll: the enemy loses
      exactly the roll, the damage is shown, the player is back where the
      turn began, and the turn still passes to the enemies. */
  lemma BumpedBackStillEndsTurn(t: Turn, g: array2<Tile>, now: set<Key>, last: set<Key>, rolls: seq<int>, i: nat)
    requires GridShape(g) && InMap(t.player.position) && |t.hud.panels| == 5 && |t.enemies| <= |rolls|
    requires t.gameState == PlayerMove
    requires var mv := Step(g, t.player.position, now, last);
      && mv.madeAction && g[mv.position.x, mv.position.y].tileType.interaction == NoInteraction
      && i < |t.enemies| && t.enemies[i].position == mv.position
      && (forall j :: 0 <= j < |t.enemies| && j != i ==>
            t.enemies[j].position != mv.position && t.enemies[j].position != t.player.position)
      && t.enemies[i].health - rolls[i] > 0
    ensures var r := TurnSpec(t, g, now, last, rolls);
      && r.player.position == t.player.position && r.gameState == AiTurn
      && r.enemies == t.enemies[i := t.enemies[i].(health := t.enemies[i].health - rolls[i])]
  {
    var mv := Step(g, t.player.position, now, last);
    MeleeLoneEnemy(t.enemies, i, mv.position, t.player.position, rolls);
  }

  /** A full round from the player's turn: after a move and the enemies'
      turn it is the player's turn again, with the enemies as the player
      left them. */
  lemma RoundReturnsToPlayer(t: Turn, g: array2<Tile>, now: set<Key>, last: set<Key>, rolls: seq<int>)
    requires GridShape(g) && InMap(t.player.position) && |t.hud.panels| == 5 && |t.enemies| <= |rolls|
    requires t.gameState == PlayerMove && Step(g, t.player.position, now, last).madeAction
    ensures var r := TurnSpec(t, g, now, last, rolls);
      r.gameState == AiTurn && EnemyTurnSpec(r) == r.(gameState := PlayerMove)
  {
  }

  // ---------------------------------------------------------------- update

  /** The game's fields as a value, the tile map aside. */
  datatype World = World(
    gameScene: GameScene,
    turn: Turn,
    camPos: Point,
    elapsedTime: real,
    animationFrameTimer: real,
    uiTickTimer: real,
    keyboardState: set<Key>,
    lastKeyboardState: set<Key>)

  /** The game when constructed and initialised: in the gameplay scene, the
      player to move, no enemies and the player struct's zero values until
      the map places one. */
  function NewWorld(hud: Interface.Hud, keyboard: set<Key>): World
  {
    World(GameplayScene, Turn(Player(Point(0, 0), 0, 0, 0), [], PlayerMove, DefaultZoom, hud),
          Point(0, 0), 0.0, 0.0, 0.0, {}, keyboard)
  }

  predicate WorldOk(w: World)
  {
    InMap(w.turn.player.position) && |w.turn.hud.panels| == 5
  }

  function Advance(w: World, dt: real, keyboard: set<Key>): (r: World)
    ensures r.turn == w.turn && r.gameScene == w.gameScene && r.lastKeyboardState == w.lastKeyboardState
  {
    w.(elapsedTime := w.elapsedTime + dt, animationFrameTimer := w.animationFrameTimer + dt,
       uiTickTimer := w.uiTickTimer + dt, keyboardState := keyboard, camPos := Point(0, 0))
  }

  /** The scene and turn-state dispatch. */
  function Dispatch(w: World, g: array2<Tile>, rolls: seq<int>): (r: World)
    reads g
    requires GridShape(g) && WorldOk(w) && |w.turn.enemies| <= |rolls|
    ensures WorldOk(r) && r == w.(turn := r.turn)
  {
    if w.gameScene == GameplayScene && w.turn.gameState == PlayerMove then
      w.(turn := TurnSpec(w.turn, g, w.keyboardState, w.lastKeyboardState, rolls))
    else if w.gameScene == GameplayScene && w.turn.gameState == AiTurn then
      w.(turn := EnemyTurnSpec(w.turn))
    else w
  }

  /** The gameplay scene's timers and camera. */
  function Gameplay(w: World): (r: World)
    requires WorldOk(w)
    ensures WorldOk(r) && r.turn.player == w.turn.player && r.turn.enemies == w.turn.enemies
  {
    if w.gameScene != GameplayScene then w else Camera(TileFrame(UiTick(w)))
  }

  /** Every 0.0333 seconds the interface ticks and its timer restarts. */
  function UiTick(w: World): (r: World)
    requires WorldOk(w)
    ensures WorldOk(r) && r.turn == w.turn.(hud := r.turn.hud)
  {
    if w.uiTickTimer >= UiTickTime then
      w.(turn := w.turn.(hud := Interface.Hud(Interface.TickAll(w.turn.hud.panels), w.turn.hud.allOpen)),
         uiTickTimer := 0.0)
    else w
  }

  /** Every 0.33 seconds the tiles animate (see `LowRezRogue.AnimateMap`)
      and the frame timer restarts. */
  function TileFrame(w: World): World
  {
    if w.animationFrameTimer >= TileFrameTime then w.(animationFrameTimer := 0.0) else w
  }

  /** The camera follows the player. */
  function Camera(w: World): World
  {
    var p := w.turn.player.position;
    w.(camPos := Point(CameraAxis(p.x, MapWidth), CameraAxis(p.y, MapHeight)))
  }

  /** `Update`, apart from the tile animation (see `LowRezRogue.Update`). */
  function UpdateSpec(w: World, g: array2<Tile>, dt: real, keyboard: set<Key>, rolls: seq<int>): (r: World)
    reads g
    requires GridShape(g) && WorldOk(w) && |w.turn.enemies| <= |rolls|
    ensures WorldOk(r) && r.lastKeyboardState == keyboard && r.gameScene == w.gameScene
  {
    var w := Gameplay(Dispatch(Advance(w, dt, keyboard), g, rolls));
    w.(lastKeyboardState := w.keyboardState)
  }

  /** Outside the gameplay scene an update only counts time and remembers
      the keys: no turn is taken and the camera position is reset. */
  lemma UpdateOutsideGameplay(w: World, g: array2<Tile>, dt: real, keyboard: set<Key>, rolls: seq<int>)
    requires GridShape(g) && WorldOk(w) && |w.turn.enemies| <= |rolls|
    requires w.gameScene != GameplayScene
    ensures var r := UpdateSpec(w, g, dt, keyboard, rolls);
      && r.turn == w.turn && r.camPos == Point(0, 0)
      && r.uiTickTimer == w.uiTickTimer + dt && r.animationFrameTimer == w.animationFrameTimer + dt
  {
  }

  /** In the gameplay scene exactly one side acts: on the player's move the
      player and enemies are what the player's turn leaves, on the enemies'
      turn nothing but the state changes. Either way the camera then frames
      the player without leaving the map. */
  lemma UpdateInGameplay(w: World, g: array2<Tile>, dt: real, keyboard: set<Key>, rolls: seq<int>)
    requires GridShape(g) && WorldOk(w) && |w.turn.enemies| <= |rolls|
    requires w.gameScene == GameplayScene
    ensures var r := UpdateSpec(w, g, dt, keyboard, rolls);
      var t := TurnSpec(w.turn, g, keyboard, w.lastKeyboardState, rolls);
      && (w.turn.gameState == PlayerMove ==>
            r.turn.player == t.player && r.turn.enemies == t.enemies && r.turn.gameState == t.gameState)
      && (w.turn.gameState == AiTurn ==>
            r.turn.player == w.turn.player && r.turn.enemies == w.turn.enemies && r.turn.gameState == PlayerMove)
      && var p := r.turn.player.position;
         && r.camPos.x - 32 <= p.x * MapPixels && p.x * MapPixels + MapPixels <= r.camPos.x + 32
         && r.camPos.y - 32 <= p.y * MapPixels && p.y * MapPixels + MapPixels <= r.camPos.y + 32
         && 0 <= r.camPos.x - 32 && r.camPos.x + 32 <= MapWidth * MapPixels
         && 0 <= r.camPos.y - 32 && r.camPos.y + 32 <= MapHeight * MapPixels
  {
    var d := Dispatch(Advance(w, dt, keyboard), g, rolls);
    var p := d.turn.player.position;
    CameraShowsPlayer(p.x, MapWidth);
    CameraShowsPlayer(p.y, MapHeight);
  }

  /** The game object (`LowRezRogue`). The interface is the one
      `InterfaceManager` the game talks to; the tile map is the grid the map
      generator produced. */
  class LowRezRogue {
    var gameScene: GameScene
    var gameState: GameState
    var player: Player
    var enemies: seq<Enemy>
    /** The tile map (`map`), indexed by x then y. */
    const tiles: array2<Tile>
    /** `camera.zoom`. */
    var zoom: int
    var camPos: Point
    var elapsedTime: real
    var animationFrameTimer: real
    var uiTickTimer: real
    var keyboardState: set<Key>
    var lastKeyboardState: set<Key>
    const ui: Interface.InterfaceManager

    /** The map is 64 by 64, the player stands on it, and the interface is
        intact and apart from the game. */
    ghost predicate Valid()
      reads this, ui, ui.Repr
    {
      ui.Valid() && this !in ui.Repr && tiles !in ui.Repr && GridShape(tiles) && InMap(player.position)
    }

    ghost function TurnView(): Turn
      reads this, ui, ui.Repr
      requires ui.Valid()
    {
      Turn(player, enemies, gameState, zoom, ui.State())
    }

    ghost function View(): World
      reads this, ui, ui.Repr
      requires ui.Valid()
    {
      World(gameScene, TurnView(), camPos, elapsedTime, animationFrameTimer, uiTickTimer,
            keyboardState, lastKeyboardState)
    }

    /** The constructor and `Initialize`, with the generated map and the
        keyboard state read at start-up as inputs. */
    constructor (tiles: array2<Tile>, ui: Interface.InterfaceManager, keyboard: set<Key>)
      requires GridShape(tiles) && ui.Valid()
      ensures Valid() && this.tiles == tiles && this.ui == ui
      ensures View() == NewWorld(ui.State(), keyboard)
    {
      this.tiles := tiles;
      this.ui := ui;
      gameScene := GameplayScene;
      gameState := PlayerMove;
      player := Player(Point(0, 0), 0, 0, 0);
      enemies := [];
      zoom := DefaultZoom;
      camPos := Point(0, 0);
      elapsedTime := 0.0;
      animationFrameTimer := 0.0;
      uiTickTimer := 0.0;
      keyboardState := {};
      lastKeyboardState := keyboard;
    }

    /** `player = new Player(position)`: the new player's values, and the
        constructor's call that shows its health. */
    method PlacePlayer(position: Point)
      requires Valid() && InMap(position)
      modifies this, ui.Repr
      ensures Valid() && ui.Repr == old(ui.Repr)
      ensures View() == old(View()).(turn := old(TurnView()).(
                player := NewPlayer(position),
                hud := Interface.Hud(Interface.UpdateHealthPanels(old(ui.Panels()), 10), old(ui.allOpen))))
    {
      player := NewPlayer(position);
      ui.UpdateHealth(player.health);
    }

    /** `enemies.Add(new Enemy(p, …))`: map generation places one more enemy,
        appended to the game's list; nothing else changes. */
    method PlaceEnemy(position: Point)
      requires Valid()
      modifies this
      ensures Valid()
      ensures View() == old(View()).(turn := old(TurnView()).(enemies := old(enemies) + [NewEnemy(position)]))
    {
      enemies := enemies + [NewEnemy(position)];
    }

    /** `player.TakeDamage(damage)`. */
    method PlayerTakeDamage(damage: int)
      requires Valid()
      modifies this, ui.Repr
      ensures Valid() && ui.Repr == old(ui.Repr)
      ensures var w := TakeDamageSpec(old(player), old(ui.State()), damage);
              View() == old(View()).(turn := old(TurnView()).(player := w.player, hud := w.hud))
    {
      player := player.(health := player.health - damage);
      if player.health <= 0 {
      } else {
        ui.UpdateHealth(player.health);
      }
    }

    method ProcessPlayerTurn(rolls: seq<int>)
      requires Valid() && |enemies| <= |rolls|
      modifies this, ui.Repr
      ensures Valid() && ui.Repr == old(ui.Repr)
      ensures View() == old(View().(turn := TurnSpec(TurnView(), tiles, keyboardState, lastKeyboardState, rolls)))
    {
      DebugKeys();
      var positionCache := player.position;
      var madeAction := MovePlayer();
      InteractTile(positionCache, rolls);
      if madeAction {
        EndTurn();
      }
    }

    /** The debug keys at the head of `ProcessPlayerTurn`: F12 toggles the
        zoom, left Control toggles all panels, left Alt shows a damage of 5. */
    method DebugKeys()
      requires Valid()
      modifies this, ui.Repr
      ensures Valid() && ui.Repr == old(ui.Repr)
      ensures View() == old(View().(turn := Hotkeys(TurnView(), keyboardState, lastKeyboardState)))
    {
      ZoomKey();
      PanelKeys();
      assert View().turn == Hotkeys(old(TurnView()), keyboardState, lastKeyboardState);
    }

    /** F12 switches the zoom between the player view and the overview. */
    method ZoomKey()
      requires Valid()
      modifies this
      ensures Valid()
      ensures View() == old(View().(turn := TurnView().(
                zoom := if Pressed(F12, keyboardState, lastKeyboardState) then ToggleZoom(zoom) else zoom)))
    {
      if Pressed(F12, keyboardState, lastKeyboardState) {
        if zoom == DefaultZoom {
          zoom := OverviewZoom;
        } else if zoom == OverviewZoom {
          zoom := DefaultZoom;
        }
      }
    }

    /** Left Control toggles all panels; left Alt shows a damage of 5. */
    method PanelKeys()
      requires Valid()
      modifies ui.Repr
      ensures Valid() && ui.Repr == old(ui.Repr)
      ensures var h := if Pressed(LeftControl, keyboardState, lastKeyboardState)
                       then Interface.ToggleAllSpec(old(ui.State())) else old(ui.State());
        ui.State() == if Pressed(LeftAlt, keyboardState, lastKeyboardState)
                      then Interface.Hud(Interface.ShowDamagePanels(h.panels, 5), h.allOpen) else h
    {
      if Pressed(LeftControl, keyboardState, lastKeyboardState) {
        ui.ToggleAll();
      }
      if Pressed(LeftAlt, keyboardState, lastKeyboardState) {
        ui.ShowDamage(5);
      }
    }

    /** The move of `ProcessPlayerTurn`: the first pressed arrow whose
        neighbour is on the map and walkable moves the player there. */
    method MovePlayer() returns (madeAction: bool)
      requires Valid()
      modifies this
      ensures Valid()
      ensures var mv := Step(tiles, old(player.position), keyboardState, lastKeyboardState);
        && madeAction == mv.madeAction
        && View() == old(View().(turn := TurnView().(player := player.(position := mv.position))))
    {
      madeAction := false;
      var p := player.position;
      if Pressed(Left, keyboardState, lastKeyboardState) && p.x > 0 && tiles[p.x - 1, p.y].walkable {
        madeAction := true;
        player := player.(position := Point(p.x - 1, p.y));
      } else if Pressed(Right, keyboardState, lastKeyboardState) && p.x < MapWidth - 1 && tiles[p.x + 1, p.y].walkable {
        madeAction := true;
        player := player.(position := Point(p.x + 1, p.y));
      } else if Pressed(Up, keyboardState, lastKeyboardState) && p.y > 0 && tiles[p.x, p.y - 1].walkable {
        madeAction := true;
        player := player.(position := Point(p.x, p.y - 1));
      } else if Pressed(Down, keyboardState, lastKeyboardState) && p.y < MapHeight - 1 && tiles[p.x, p.y + 1].walkable {
        madeAction := true;
        player := player.(position := Point(p.x, p.y + 1));
      }
    }

    /** The switch on the interaction of the tile the player now stands on;
        only a tile without one runs the combat loop. */
    method InteractTile(cache: Point, rolls: seq<int>)
      requires Valid() && |enemies| <= |rolls| && InMap(cache)
      modifies this, ui.Repr
      ensures Valid() && ui.Repr == old(ui.Repr)
      ensures View() == old(View().(turn := Interact(TurnView(), tiles, cache, rolls)))
    {
      if tiles[player.position.x, player.position.y].tileType.interaction == NoInteraction {
        Fight(cache, rolls);
      }
    }

    /** The fields the combat loop leaves alone are as they were. */
    ghost predicate SameOutsideFight(w: World)
      reads this
    {
      && gameScene == w.gameScene && gameState == w.turn.gameState && zoom == w.turn.zoom
      && camPos == w.camPos && elapsedTime == w.elapsedTime
      && animationFrameTimer == w.animationFrameTimer && uiTickTimer == w.uiTickTimer
      && keyboardState == w.keyboardState && lastKeyboardState == w.lastKeyboardState
    }

    /** The combat loop of the turn, for the player standing at
        `player.position` having come from `cache`. The list and the
        position are worked on in locals and stored back at the end. */
    method Fight(cache: Point, rolls: seq<int>)
      requires Valid() && |enemies| <= |rolls| && InMap(cache)
      modifies this, ui.Repr
      ensures Valid() && ui.Repr == old(ui.Repr)
      ensures SameOutsideFight(old(View()))
      ensures var c := old(Melee(enemies, 0, player.position, cache, rolls));
        && enemies == c.enemies && player == old(player).(position := c.position)
        && ui.Panels() == Interface.ShowDamageAll(old(ui.Panels()), c.shown) && ui.allOpen == old(ui.allOpen)
    {
      var es, pos := MeleeLoop(enemies, player.position, cache, rolls);
      enemies := es;
      player := player.(position := pos);
    }

    /** The loop of `ProcessPlayerTurn`'s fight on local copies of the
        enemies and the player's position, showing each damage that does not
        kill. */
    method MeleeLoop(es0: seq<Enemy>, pos0: Point, cache: Point, rolls: seq<int>)
        returns (es: seq<Enemy>, pos: Point)
      requires ui.Valid() && |es0| <= |rolls|
      modifies ui.Repr
      ensures ui.Valid() && ui.Repr == old(ui.Repr) && ui.allOpen == old(ui.allOpen)
      ensures var c := Melee(es0, 0, pos0, cache, rolls);
        && es == c.enemies && pos == c.position
        && ui.Panels() == Interface.ShowDamageAll(old(ui.Panels()), c.shown)
    {
      es, pos := es0, pos0;
      ghost var panels0 := ui.Panels();
      ghost var target := Melee(es, 0, pos, cache, rolls);
      ghost var shown: seq<int> := [];
      var e := 0;
      while e < |es|
        invariant ui.Valid() && ui.Repr == old(ui.Repr)
        invariant 0 <= e && |es| <= |rolls|
        invariant ui.Panels() == Interface.ShowDamageAll(panels0, shown) && ui.allOpen == old(ui.allOpen)
        invariant Tracks(es, e, pos, cache, rolls, shown, target)
        modifies ui.Repr
        decreases |es| - e
      {
        es, pos, shown := MeleeStep(es, e, pos, cache, rolls, panels0, shown, target);
        e := e + 1;
      }
      TracksDone(es, e, pos, cache, rolls, shown, target);
    }

    /** One turn of the combat loop, on enemy `e`: an enemy on the player's
        tile takes the roll; it is removed if dead, and otherwise the damage
        is shown and the player is sent back to `cache`. */
    method MeleeStep(es0: seq<Enemy>, e: nat, pos0: Point, cache: Point, rolls: seq<int>,
                     ghost panels0: seq<Interface.Panel>, ghost shown0: seq<int>, ghost target: Combat)
        returns (es: seq<Enemy>, pos: Point, ghost shown: seq<int>)
      requires ui.Valid() && |panels0| == 5 && |es0| <= |rolls| && e < |es0|
      requires ui.Panels() == Interface.ShowDamageAll(panels0, shown0)
      requires Tracks(es0, e, pos0, cache, rolls, shown0, target)
      modifies ui.Repr
      ensures ui.Valid() && ui.Repr == old(ui.Repr) && ui.allOpen == old(ui.allOpen)
      ensures |es| <= |es0| && ui.Panels() == Interface.ShowDamageAll(panels0, shown)
      ensures Tracks(es, e + 1, pos, cache, rolls, shown, target)
    {
      TracksStep(es0, e, pos0, cache, rolls, shown0, target);
      es, pos, shown := es0, pos0, shown0;
      if es[e].position == pos {
        var damage := rolls[e];
        es := es[e := es[e].(health := es[e].health - damage)];
        if es[e].health <= 0 {
          es := es[..e] + es[e + 1..];
        } else {
          ShowHit(damage, panels0, shown);
          shown := shown + [damage];
          pos := cache;
        }
      }
    }

    /** `InterfaceManager.ShowDamage(damage)` inside the combat loop, as one
        more damage shown since the loop began. */
    method ShowHit(damage: int, ghost panels0: seq<Interface.Panel>, ghost shown: seq<int>)
      requires ui.Valid() && |panels0| == 5 && ui.Panels() == Interface.ShowDamageAll(panels0, shown)
      modifies ui.Repr
      ensures ui.Valid() && ui.Repr == old(ui.Repr) && ui.allOpen == old(ui.allOpen)
      ensures ui.Panels() == Interface.ShowDamageAll(panels0, shown + [damage])
    {
      ui.ShowDamage(damage);
      ShowDamageAllSnoc(panels0, shown, damage);
    }

    method EndTurn()
      requires Valid()
      modifies this
      ensures Valid()
      ensures View() == old(View()).(turn := old(TurnView()).(gameState := AiTurn))
    {
      gameState := AiTurn;
    }

    /** The enemies' turn: a loop over the enemies that does nothing yet,
        then `EndAiTurn`. */
    method ProcessEnemyAI()
      requires Valid()
      modifies this
      ensures Valid()
      ensures View() == old(View()).(turn := EnemyTurnSpec(old(TurnView())))
    {
      for i := 0 to |enemies| {
      }
      EndAiTurn();
    }

    method EndAiTurn()
      requires Valid()
      modifies this
      ensures Valid()
      ensures View() == old(View()).(turn := old(TurnView()).(gameState := PlayerMove))
    {
      gameState := PlayerMove;
    }

    /** The animation frame of every animated tile, column by column. */
    method AnimateMap()
      requires GridShape(tiles)
      modifies tiles
      ensures forall x, y :: 0 <= x < MapWidth && 0 <= y < MapHeight ==>
                tiles[x, y] == AnimateTile(old(tiles[x, y]))
    {
      for x := 0 to MapWidth
        invariant forall i, j :: 0 <= i < x && 0 <= j < MapHeight ==> tiles[i, j] == AnimateTile(old(tiles[i, j]))
        invariant forall i, j :: x <= i < MapWidth && 0 <= j < MapHeight ==> tiles[i, j] == old(tiles[i, j])
      {
        for y := 0 to MapHeight
          invariant forall i, j :: 0 <= i < x && 0 <= j < MapHeight ==> tiles[i, j] == AnimateTile(old(tiles[i, j]))
          invariant forall j :: 0 <= j < y ==> tiles[x, j] == AnimateTile(old(tiles[x, j]))
          invariant forall i, j :: x <= i < MapWidth && 0 <= j < MapHeight && (i != x || j >= y) ==>
                      tiles[i, j] == old(tiles[i, j])
        {
          if tiles[x, y].animated {
            tiles[x, y] := UpdateAnimationIndex(tiles[x, y]);
          }
        }
      }
    }

    /** The head of `Update`: the clocks advance, the keyboard state is read
        and the camera position is reset. */
    method AdvanceClock(deltaTime: real, keyboard: set<Key>)
      requires Valid()
      modifies this
      ensures Valid()
      ensures View() == Advance(old(View()), deltaTime, keyboard)
    {
      elapsedTime := elapsedTime + deltaTime;
      animationFrameTimer := animationFrameTimer + deltaTime;
      uiTickTimer := uiTickTimer + deltaTime;
      keyboardState := keyboard;
      camPos := Point(0, 0);
    }

    /** The switch of `Update` on the scene and the turn state. */
    method DispatchScene(rolls: seq<int>)
      requires Valid() && |enemies| <= |rolls|
      modifies this, ui.Repr
      ensures Valid() && ui.Repr == old(ui.Repr)
      ensures View() == old(Dispatch(View(), tiles, rolls))
    {
      if gameScene == MainMenuScene {
      } else if gameScene == PauseScene {
      } else if gameScene == GameplayScene && gameState == PlayerMove {
        ProcessPlayerTurn(rolls);
      } else if gameScene == GameplayScene && gameState == AiTurn {
        ProcessEnemyAI();
      }
    }

    /** The gameplay part of `Update`: the interface tick, the tile
        animation and the camera. */
    method GameplayStep()
      requires Valid()
      modifies this, tiles, ui.Repr
      ensures Valid() && ui.Repr == old(ui.Repr)
      ensures View() == Gameplay(old(View()))
      ensures var animate := old(gameScene == GameplayScene && animationFrameTimer >= TileFrameTime);
        forall x, y :: 0 <= x < MapWidth && 0 <= y < MapHeight ==>
          tiles[x, y] == if animate then AnimateTile(old(tiles[x, y])) else old(tiles[x, y])
    {
      if gameScene == GameplayScene {
        TickInterface();
        ghost var ticked := View();
        AnimateTiles();
        assert View() == TileFrame(ticked);
        camPos := Point(CameraAxis(player.position.x, MapWidth), CameraAxis(player.position.y, MapHeight));
      }
    }

    /** The interface tick of `Update`. */
    method TickInterface()
      requires Valid()
      modifies this, ui.Repr
      ensures Valid() && ui.Repr == old(ui.Repr)
      ensures View() == UiTick(old(View()))
    {
      if uiTickTimer >= UiTickTime {
        ui.UpdateTick();
        uiTickTimer := 0.0;
      }
    }

    /** The tile animation of `Update`. */
    method AnimateTiles()
      requires Valid()
      modifies this, tiles
      ensures Valid()
      ensures View() == TileFrame(old(View()))
      ensures forall x, y :: 0 <= x < MapWidth && 0 <= y < MapHeight ==>
          tiles[x, y] == if old(animationFrameTimer) >= TileFrameTime then AnimateTile(old(tiles[x, y])) else old(tiles[x, y])
    {
      if animationFrameTimer >= TileFrameTime {
        AnimateMap();
        animationFrameTimer := 0.0;
      }
    }

    /** One frame. `keyboard` is the keyboard state read this frame and
        `rolls` the damage rolls of a player turn, if one is taken. */
    method Update(deltaTime: real, keyboard: set<Key>, rolls: seq<int>)
      requires Valid() && |enemies| <= |rolls|
      modifies this, tiles, ui.Repr
      ensures Valid() && ui.Repr == old(ui.Repr)
      ensures View() == old(UpdateSpec(View(), tiles, deltaTime, keyboard, rolls))
      ensures var animate := old(gameScene) == GameplayScene && old(animationFrameTimer) + deltaTime >= TileFrameTime;
        forall x, y :: 0 <= x < MapWidth && 0 <= y < MapHeight ==>
          tiles[x, y] == if animate then AnimateTile(old(tiles[x, y])) else old(tiles[x, y])
    {
      AdvanceClock(deltaTime, keyboard);
      DispatchScene(rolls);
      GameplayStep();
      lastKeyboardState := keyboardState;
    }
  }
}
