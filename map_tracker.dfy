/**
 * The player's progress over the stage map (`MapPlayerTracker`): a
 * selection of a map node is accepted only while the tracker is unlocked
 * and only for a node the player can reach, and an accepted node is
 * appended to the map's path; entering a node loads the scene of its type.
 */
module MapTracking {
  import opened Wrappers

  datatype Point = Point(x: int, y: int)

  datatype MapNodeType = MinorEnemy | EliteEnemy | RestSite | Treasure | Shop | Boss | Mystery | Starting

  /** The map node a player clicks: its type and its point on the map. */
  datatype Node = Node(nodeType: MapNodeType, point: Point)

  datatype SceneName = Battle | Mystery | RestSite | Treasure | Shop

  /** The `MapManager` pool an enemy encounter is drawn from. */
  datatype EncounterPool = FirstEncounter | EliteEncounter | BossEncounter

  /** The `MapManager` source of a mystery event. */
  datatype EventSource = StartEvent | RandomEvent

  /** What `EnterNode` hands to the `GameManager` before the scene loads. */
  datatype Setup = NoSetup | Enemy(pool: EncounterPool) | Event(source: EventSource)

  datatype SceneEntry = SceneEntry(scene: SceneName, setup: Setup)

  predicate IsEnemyNode(t: MapNodeType) {
    t == MinorEnemy || t == EliteEnemy || t == Boss
  }

  predicate IsEventNode(t: MapNodeType) {
    t == MapNodeType.Starting || t == MapNodeType.Mystery
  }

  /**
   * The scene a node of type `t` opens and what is set up for it: enemy
   * nodes open the battle with an encounter of their own pool, the starting
   * and mystery nodes open the mystery scene with an event, the rest open a
   * scene of their own.
   */
  function EnterNode(t: MapNodeType): (r: SceneEntry)
    ensures r.scene == Battle <==> IsEnemyNode(t)
    ensures r.scene == SceneName.Mystery <==> IsEventNode(t)
    ensures r.scene == Battle <==> r.setup.Enemy?
    ensures r.scene == SceneName.Mystery <==> r.setup.Event?
    ensures r.setup.Enemy? ==> (r.setup.pool == FirstEncounter <==> t == MinorEnemy)
    ensures r.setup.Enemy? ==> (r.setup.pool == EliteEncounter <==> t == EliteEnemy)
    ensures r.setup.Enemy? ==> (r.setup.pool == BossEncounter <==> t == Boss)
    ensures r.setup.Event? ==> (r.setup.source == StartEvent <==> t == Starting)
    ensures t == MapNodeType.RestSite <==> r == SceneEntry(SceneName.RestSite, NoSetup)
    ensures t == MapNodeType.Treasure <==> r == SceneEntry(SceneName.Treasure, NoSetup)
    ensures t == MapNodeType.Shop <==> r == SceneEntry(SceneName.Shop, NoSetup)
  {
    match t
    case Starting => SceneEntry(SceneName.Mystery, Event(StartEvent))
    case MinorEnemy => SceneEntry(Battle, Enemy(FirstEncounter))
    case EliteEnemy => SceneEntry(Battle, Enemy(EliteEncounter))
    case RestSite => SceneEntry(SceneName.RestSite, NoSetup)
    case Treasure => SceneEntry(SceneName.Treasure, NoSetup)
    case Shop => SceneEntry(SceneName.Shop, NoSetup)
    case Mystery => SceneEntry(SceneName.Mystery, Event(RandomEvent))
    case Boss => SceneEntry(Battle, Enemy(BossEncounter))
  }

  /**
   * The map a run is played on: for each point that has a node, the points
   * its outgoing edges lead to, and the path of points visited so far.
   */
  class Map {
    const outgoing: map<Point, seq<Point>>
    var path: seq<Point>

    constructor (outgoing: map<Point, seq<Point>>)
      ensures this.outgoing == outgoing && path == []
    {
      this.outgoing := outgoing;
      path := [];
    }
  }

  /**
   * The player can go to `p` from `path`: onto the first row when nothing has
   * been visited, otherwise along an outgoing edge of the node at the last
   * visited point (a point without a node has no edges).
   */
  predicate Attainable(outgoing: map<Point, seq<Point>>, path: seq<Point>, p: Point) {
    if |path| == 0 then p.y == 0
    else path[|path| - 1] in outgoing && p in outgoing[path[|path| - 1]]
  }

  /** The edge from `a` to `b` exists in the map. */
  predicate Edge(outgoing: map<Point, seq<Point>>, a: Point, b: Point) {
    a in outgoing && b in outgoing[a]
  }

  /** A path that starts on the first row and follows outgoing edges. */
  ghost predicate ValidPath(outgoing: map<Point, seq<Point>>, path: seq<Point>) {
    && (|path| > 0 ==> path[0].y == 0)
    && forall i :: 0 < i < |path| ==> Edge(outgoing, path[i - 1], path[i])
  }

  /**
   * From a valid path, appending `p` keeps the path valid exactly when the
   * tracker would accept `p`.
   */
  lemma AttainableIffExtends(outgoing: map<Point, seq<Point>>, path: seq<Point>, p: Point)
    requires ValidPath(outgoing, path)
    ensures Attainable(outgoing, path, p) <==> ValidPath(outgoing, path + [p])
  {
    var ext := path + [p];
    assert ext[|path|] == p;
    if |path| > 0 {
      assert ext[|path| - 1] == path[|path| - 1];
      assert ext[0] == path[0];
      if Attainable(outgoing, path, p) {
        forall i | 0 < i < |ext| ensures Edge(outgoing, ext[i - 1], ext[i]) {
          if i < |path| {
            assert ext[i - 1] == path[i - 1] && ext[i] == path[i];
          }
        }
      } else {
        assert !Edge(outgoing, ext[|path| - 1], ext[|path|]);
      }
    }
  }

  class MapPlayerTracker {
    const lockAfterSelecting: bool
    var Locked: bool

    /** As in `Awake`: the tracker starts unlocked. */
    constructor (lockAfterSelecting: bool)
      ensures this.lockAfterSelecting == lockAfterSelecting && !Locked
    {
      this.lockAfterSelecting := lockAfterSelecting;
      Locked := false;
    }

    /**
     * Handles a click on `mapNode`. A locked tracker ignores it. Otherwise
     * the node is accepted when it is attainable from the current map's
     * path; the entry of the node, scheduled to run after the enter delay,
     * is returned for an accepted node and None for an ignored one.
     */
    method SelectNode(currentMap: Map, mapNode: Node) returns (scheduled: Option<SceneEntry>)
      modifies this`Locked, currentMap`path
      ensures scheduled.Some? <==> !old(Locked) && Attainable(currentMap.outgoing, old(currentMap.path), mapNode.point)
      ensures scheduled.Some? ==> scheduled.value == EnterNode(mapNode.nodeType)
      ensures scheduled.Some? ==> currentMap.path == old(currentMap.path) + [mapNode.point]
                                  && Locked == lockAfterSelecting
      ensures scheduled.None? ==> currentMap.path == old(currentMap.path) && Locked == old(Locked)
      ensures ValidPath(currentMap.outgoing, old(currentMap.path)) ==> ValidPath(currentMap.outgoing, currentMap.path)
    {
      if Locked {
        return None;
      }

      if |currentMap.path| == 0 {
        if mapNode.point.y == 0 {
          var entry := SendPlayerToNode(currentMap, mapNode);
          scheduled := Some(entry);
        } else {
          scheduled := None;
        }
      } else {
        var currentPoint := currentMap.path[|currentMap.path| - 1];
        if currentPoint in currentMap.outgoing && mapNode.point in currentMap.outgoing[currentPoint] {
          var entry := SendPlayerToNode(currentMap, mapNode);
          scheduled := Some(entry);
        } else {
          scheduled := None;
        }
      }
      if scheduled.Some? && ValidPath(currentMap.outgoing, old(currentMap.path)) {
        AttainableIffExtends(currentMap.outgoing, old(currentMap.path), mapNode.point);
      }
    }

    /**
     * Moves the player to `mapNode`: the tracker takes the lock setting and
     * the node's point is appended to the path. Returns the entry into the
     * node that the delayed call runs.
     */
    method SendPlayerToNode(currentMap: Map, mapNode: Node) returns (entry: SceneEntry)
      modifies this`Locked, currentMap`path
      ensures Locked == lockAfterSelecting
      ensures currentMap.path == old(currentMap.path) + [mapNode.point]
      ensures entry == EnterNode(mapNode.nodeType)
    {
      Locked := lockAfterSelecting;
      currentMap.path := currentMap.path + [mapNode.point];
      entry := EnterNode(mapNode.nodeType);
    }
  }
}
