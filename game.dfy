/**
 * The game server's state and its message handling: players moved by
 * direction commands, stars collected on contact and replaced, a shared
 * score, and user registration. Positions are exact reals. The random
 * replacement stars (`spawn_star`) are a parameter `spawn`: the k-th star
 * spawned during one call is `spawn(k)`. Sending state to the sockets is
 * not modelled.
 */
module Game {
  import opened Wrappers

  /** A player record `{"x": ..., "y": ..., "username": ...}`. */
  datatype Player = Player(x: real, y: real, username: string)

  /** A star record `{"id": ..., "x": ..., "y": ...}`. */
  datatype Star = Star(id: string, x: real, y: real)

  /** A registered user: `{"email": ..., "password": ...}`. */
  datatype Account = Account(email: string, password: string)

  /** A JSON message from a client; every field may be missing. */
  datatype Message = Message(kind: Option<string>, username: Option<string>, direction: Option<string>)

  /** The body given to `register_user`. */
  datatype RegisterData = RegisterData(username: Option<string>, email: Option<string>, password: Option<string>)

  /** `{"status": "ok"}`, or the `ValueError` raised for a missing username. */
  datatype RegisterResult = StatusOk | ValueError(message: string)

  const Step: real := 0.1
  const CollectRange: real := 0.5
  const PointsPerStar: int := 10
  const InitialStarCount: nat := 3

  function Abs(r: real): real {
    if r < 0.0 then -r else r
  }

  // ---------------------------------------------------------------------------
  // Movement
  // ---------------------------------------------------------------------------

  predicate IsDirection(command: Option<string>) {
    command == Some("up") || command == Some("down") || command == Some("left") || command == Some("right")
  }

  /** The unit displacement of a command along x and y. */
  function DirectionX(command: Option<string>): real {
    if command == Some("left") then -1.0 else if command == Some("right") then 1.0 else 0.0
  }

  function DirectionY(command: Option<string>): real {
    if command == Some("down") then -1.0 else if command == Some("up") then 1.0 else 0.0
  }

  /**
   * `compute_new_position`: a copy of `pos` with `y` raised (up) or lowered
   * (down) by 0.1, or `x` lowered (left) or raised (right) by 0.1; any other
   * command, `None` included, gives an equal copy. Nothing is clamped.
   */
  function ComputeNewPosition(pos: Player, command: Option<string>): (r: Player)
    ensures r.username == pos.username
    ensures r == pos <==> !IsDirection(command)
    ensures Abs(r.x - pos.x) + Abs(r.y - pos.y) == if IsDirection(command) then Step else 0.0
    ensures command == Some("up") || command == Some("down") ==> r.x == pos.x
    ensures command == Some("left") || command == Some("right") ==> r.y == pos.y
    ensures r == pos.(x := pos.x + Step * DirectionX(command), y := pos.y + Step * DirectionY(command))
  {
    if command == Some("up") then pos.(y := pos.y + Step)
    else if command == Some("down") then pos.(y := pos.y - Step)
    else if command == Some("left") then pos.(x := pos.x - Step)
    else if command == Some("right") then pos.(x := pos.x + Step)
    else pos
  }

  /** Opposite commands undo each other. */
  lemma OppositeMovesCancel(pos: Player)
    ensures ComputeNewPosition(ComputeNewPosition(pos, Some("up")), Some("down")) == pos
    ensures ComputeNewPosition(ComputeNewPosition(pos, Some("down")), Some("up")) == pos
    ensures ComputeNewPosition(ComputeNewPosition(pos, Some("left")), Some("right")) == pos
    ensures ComputeNewPosition(ComputeNewPosition(pos, Some("right")), Some("left")) == pos
  {
  }

  /** The position after the same command `n` times. */
  function MoveRepeatedly(pos: Player, command: Option<string>, n: nat): Player {
    if n == 0 then pos else ComputeNewPosition(MoveRepeatedly(pos, command, n - 1), command)
  }

  /**
   * `n` equal commands move exactly `n` steps, however far: positions are
   * never clamped to world bounds (sixty "right" moves from the origin reach x = 6).
   */
  lemma {:induction false} RepeatedMoves(pos: Player, command: Option<string>, n: nat)
    ensures MoveRepeatedly(pos, command, n)
         == pos.(x := pos.x + (n as real) * Step * DirectionX(command),
                 y := pos.y + (n as real) * Step * DirectionY(command))
  {
    if n > 0 {
      RepeatedMoves(pos, command, n - 1);
    }
  }

  // ---------------------------------------------------------------------------
  // Star collection
  // ---------------------------------------------------------------------------

  /** Contact is an axis-aligned box: both |dx| and |dy| below 0.5. */
  predicate Collides(p: Player, s: Star) {
    Abs(p.x - s.x) < CollectRange && Abs(p.y - s.y) < CollectRange
  }

  /** The box is not a disc: a star at (0.4, 0.4) is collected from the origin though it is over 0.5 away. */
  lemma CollisionIsBoxNotDisc()
    ensures var s := Star("s", 0.4, 0.4);
      Collides(Player(0.0, 0.0, ""), s) && s.x * s.x + s.y * s.y > CollectRange * CollectRange
  {
  }

  /** The stars of `stars` that `p` does not touch, in order. */
  function Uncollected(stars: seq<Star>, p: Player): (r: seq<Star>)
    ensures forall k :: 0 <= k < |r| ==> !Collides(p, r[k])
    ensures |r| <= |stars|
  {
    if stars == [] then []
    else
      var last := stars[|stars| - 1];
      Uncollected(stars[..|stars| - 1], p) + (if Collides(p, last) then [] else [last])
  }

  /** A star is left exactly when it was there and the player does not touch it. */
  lemma {:induction false} UncollectedMembers(stars: seq<Star>, p: Player, s: Star)
    ensures s in Uncollected(stars, p) <==> s in stars && !Collides(p, s)
  {
    if stars != [] {
      var init := stars[..|stars| - 1];
      assert stars == init + [stars[|stars| - 1]];
      UncollectedMembers(init, p, s);
    }
  }

  /** How many of `stars` `p` touches. */
  function CollectedCount(stars: seq<Star>, p: Player): nat {
    if stars == [] then 0
    else CollectedCount(stars[..|stars| - 1], p) + (if Collides(p, stars[|stars| - 1]) then 1 else 0)
  }

  /** Every star is either collected or left. */
  lemma {:induction false} CollectionPartition(stars: seq<Star>, p: Player)
    ensures |Uncollected(stars, p)| + CollectedCount(stars, p) == |stars|
  {
    if stars != [] {
      CollectionPartition(stars[..|stars| - 1], p);
    }
  }

  /** The replacement stars of one call: `spawn(0)`, `spawn(1)`, ... */
  function Spawned(spawn: nat -> Star, n: nat): (r: seq<Star>)
    ensures |r| == n
    ensures forall k :: 0 <= k < n ==> r[k] == spawn(k)
  {
    if n == 0 then [] else Spawned(spawn, n - 1) + [spawn(n - 1)]
  }

  /** `list.remove(x)`: deletes the first element equal to `x`. */
  function RemoveFirst<T(==)>(s: seq<T>, x: T): (r: seq<T>)
    requires x in s
    ensures |r| == |s| - 1
  {
    if s[0] == x then s[1..] else [s[0]] + RemoveFirst(s[1..], x)
  }

  /** Removal takes away exactly one copy of `x` and nothing else. */
  lemma {:induction false} RemoveFirstCounts<T>(s: seq<T>, x: T)
    requires x in s
    ensures multiset(RemoveFirst(s, x)) == multiset(s) - multiset{x}
  {
    assert s == [s[0]] + s[1..];
    if s[0] != x {
      RemoveFirstCounts(s[1..], x);
    }
  }

  /** The element removed is the first equal one: everything before it stays in place. */
  lemma {:induction false} RemoveFirstAt<T>(a: seq<T>, x: T, b: seq<T>)
    requires x !in a
    ensures RemoveFirst(a + [x] + b, x) == a + b
  {
    if a != [] {
      assert (a + [x] + b)[1..] == a[1..] + [x] + b;
      RemoveFirstAt(a[1..], x, b);
      assert a == [a[0]] + a[1..];
    }
  }

  /** The stars still to come in the collection loop, after position `i` of the snapshot. */
  function Pending(snapshot: seq<Star>, i: nat, p: Player, spawn: nat -> Star, n: nat): seq<Star>
    requires i <= |snapshot|
  {
    Uncollected(snapshot[..i], p) + snapshot[i..] + Spawned(spawn, n)
  }

  /** Adding 10 per collected star keeps the score a non-negative multiple of 10. */
  lemma ScoreStep(score: int, collected: nat)
    requires score >= 0 && score % PointsPerStar == 0
    ensures score + PointsPerStar * collected >= 0
    ensures (score + PointsPerStar * collected) % PointsPerStar == 0
  {
  }

  /** After a whole pass the star count is unchanged and the score still a non-negative multiple of 10. */
  lemma CollectionKeepsValid(stars: seq<Star>, p: Player, spawn: nat -> Star, score: int, n: nat, points: int)
    requires n == CollectedCount(stars, p) && points == score + PointsPerStar * n
    requires |stars| == InitialStarCount && score >= 0 && score % PointsPerStar == 0
    ensures |Uncollected(stars, p) + Spawned(spawn, n)| == InitialStarCount
    ensures points >= 0 && points % PointsPerStar == 0
  {
    CollectionPartition(stars, p);
    ScoreStep(score, n);
  }

  /**
   * One turn of the collection loop over a snapshot when the star at `i`
   * is touched: its first occurrence in the current list is the one after
   * the kept prefix, so removing it and appending a replacement gives the
   * state after `i`.
   */
  lemma CollectStep(snapshot: seq<Star>, i: nat, p: Player, spawn: nat -> Star, n: nat)
    requires i < |snapshot| && Collides(p, snapshot[i])
    ensures snapshot[i] in Pending(snapshot, i, p, spawn, n)
    ensures CollectedCount(snapshot[..i + 1], p) == CollectedCount(snapshot[..i], p) + 1
    ensures RemoveFirst(Pending(snapshot, i, p, spawn, n), snapshot[i]) + [spawn(n)]
         == Pending(snapshot, i + 1, p, spawn, n + 1)
  {
    var star := snapshot[i];
    var kept := Uncollected(snapshot[..i], p);
    var rest := snapshot[i + 1..] + Spawned(spawn, n);
    PrefixStep(snapshot, i, p);
    PendingAt(snapshot, i, p, spawn, n);
    assert star !in kept;
    RemoveFirstAt(kept, star, rest);
    assert Spawned(spawn, n + 1) == Spawned(spawn, n) + [spawn(n)];
    assert Pending(snapshot, i + 1, p, spawn, n + 1) == kept + rest + [spawn(n)];
  }

  /** Extending the prefix by the star at `i` extends the left stars and the count by that star. */
  lemma PrefixStep(snapshot: seq<Star>, i: nat, p: Player)
    requires i < |snapshot|
    ensures Uncollected(snapshot[..i + 1], p)
         == Uncollected(snapshot[..i], p) + (if Collides(p, snapshot[i]) then [] else [snapshot[i]])
    ensures CollectedCount(snapshot[..i + 1], p)
         == CollectedCount(snapshot[..i], p) + (if Collides(p, snapshot[i]) then 1 else 0)
  {
    var prefix := snapshot[..i + 1];
    assert prefix[..|prefix| - 1] == snapshot[..i] && prefix[|prefix| - 1] == snapshot[i];
  }

  /** The pending stars split at position `i` of the snapshot. */
  lemma PendingAt(snapshot: seq<Star>, i: nat, p: Player, spawn: nat -> Star, n: nat)
    requires i < |snapshot|
    ensures Pending(snapshot, i, p, spawn, n)
         == Uncollected(snapshot[..i], p) + [snapshot[i]] + (snapshot[i + 1..] + Spawned(spawn, n))
  {
    assert snapshot[i..] == [snapshot[i]] + snapshot[i + 1..];
  }

  /** Before the first turn nothing is pending but the snapshot; after the last, the left stars and the replacements. */
  lemma PendingEnds(snapshot: seq<Star>, p: Player, spawn: nat -> Star)
    ensures Pending(snapshot, 0, p, spawn, 0) == snapshot && CollectedCount(snapshot[..0], p) == 0
    ensures forall n: nat {:trigger Spawned(spawn, n)} :: Pending(snapshot, |snapshot|, p, spawn, n)
                                                          == Uncollected(snapshot, p) + Spawned(spawn, n)
    ensures CollectedCount(snapshot[..|snapshot|], p) == CollectedCount(snapshot, p)
  {
    assert snapshot[..0] == [] && snapshot[0..] == snapshot;
    assert snapshot[..|snapshot|] == snapshot && snapshot[|snapshot|..] == [];
  }

  /** One turn of the collection loop when the star at `i` is not touched: nothing changes. */
  lemma KeepStep(snapshot: seq<Star>, i: nat, p: Player, spawn: nat -> Star, n: nat)
    requires i < |snapshot| && !Collides(p, snapshot[i])
    ensures CollectedCount(snapshot[..i + 1], p) == CollectedCount(snapshot[..i], p)
    ensures Pending(snapshot, i, p, spawn, n) == Pending(snapshot, i + 1, p, spawn, n)
  {
    PrefixStep(snapshot, i, p);
    PendingAt(snapshot, i, p, spawn, n);
  }

  // ---------------------------------------------------------------------------
  // The server's global state
  // ---------------------------------------------------------------------------

  /** The module-level `users`, `players`, `connections`, `stars` and `score`. */
  class GameState {
    var users: map<string, Account>
    var players: map<string, Player>
    /** One entry per open socket, named by its player id. */
    var connections: seq<string>
    var stars: seq<Star>
    var score: int

    /** Every collection is followed by one spawn, and each adds 10 to the score. */
    ghost predicate Valid()
      reads this
    {
      |stars| == InitialStarCount && score >= 0 && score % PointsPerStar == 0
    }

    /** Module load: empty tables, score 0, and three spawned stars. */
    constructor (spawn: nat -> Star)
      ensures Valid()
      ensures stars == Spawned(spawn, InitialStarCount) && score == 0
      ensures users == map[] && players == map[] && connections == []
    {
      var initial := [];
      for k := 0 to InitialStarCount
        invariant initial == Spawned(spawn, k)
      {
        initial := initial + [spawn(k)];
      }
      users, players, connections, score := map[], map[], [], 0;
      stars := initial;
    }

    /**
     * `check_stars`: every star present at the start that the player touches
     * is removed, the score rises by 10 for it, and a replacement is appended.
     * The loop runs over a snapshot, so replacements are not tested in the
     * same call.
     */
    method CheckStars(pid: string, spawn: nat -> Star)
      requires pid in players
      modifies this
      ensures players == old(players) && users == old(users) && connections == old(connections)
      ensures old(Valid()) ==> Valid()
      ensures var p := old(players)[pid];
        && stars == Uncollected(old(stars), p) + Spawned(spawn, CollectedCount(old(stars), p))
        && score == old(score) + PointsPerStar * CollectedCount(old(stars), p)
    {
      ghost var wasValid := Valid();
      var player := players[pid];
      ghost var snapshot := stars;
      stars, score := CollectionPass(player, stars, score, spawn);
      if wasValid {
        CollectionKeepsValid(snapshot, player, spawn, old(score), CollectedCount(snapshot, player), score);
      }
    }

    /**
     * The loop of `check_stars` on the star list and score it starts from,
     * one turn per star of the snapshot.
     */
    static method CollectionPass(player: Player, snapshot: seq<Star>, score: int, spawn: nat -> Star)
      returns (stars: seq<Star>, newScore: int)
      ensures stars == Uncollected(snapshot, player) + Spawned(spawn, CollectedCount(snapshot, player))
      ensures newScore == score + PointsPerStar * CollectedCount(snapshot, player)
    {
      stars, newScore := snapshot, score;
      var spawned := 0;
      PendingEnds(snapshot, player, spawn);
      for i := 0 to |snapshot|
        invariant spawned == CollectedCount(snapshot[..i], player)
        invariant stars == Pending(snapshot, i, player, spawn, spawned)
        invariant newScore == score + PointsPerStar * spawned
      {
        stars, newScore, spawned := CollectionTurn(player, snapshot, i, stars, newScore, spawned, spawn);
      }
    }

    /**
     * One turn of the loop of `check_stars`: a touched star of the snapshot
     * is removed (its first occurrence), 10 is added and a replacement
     * appended; an untouched star changes nothing.
     */
    static method CollectionTurn(player: Player, snapshot: seq<Star>, i: nat, stars: seq<Star>, score: int,
                                 spawned: nat, spawn: nat -> Star)
      returns (stars': seq<Star>, score': int, spawned': nat)
      requires i < |snapshot| && stars == Pending(snapshot, i, player, spawn, spawned)
      ensures spawned' == spawned + (if Collides(player, snapshot[i]) then 1 else 0)
      ensures spawned' - spawned == CollectedCount(snapshot[..i + 1], player) - CollectedCount(snapshot[..i], player)
      ensures stars' == Pending(snapshot, i + 1, player, spawn, spawned')
      ensures score' == score + PointsPerStar * (spawned' - spawned)
    {
      var star := snapshot[i];
      if Abs(player.x - star.x) < 0.5 && Abs(player.y - star.y) < 0.5 {
        CollectStep(snapshot, i, player, spawn, spawned);
        stars' := RemoveFirst(stars, star);
        score' := score + 10;
        stars' := stars' + [spawn(spawned)];
        spawned' := spawned + 1;
      } else {
        KeepStep(snapshot, i, player, spawn, spawned);
        stars', score', spawned' := stars, score, spawned;
      }
    }

    /** A new socket: a player at (0.0, 0.0) with an empty username, and the socket recorded. */
    method Connect(pid: string)
      modifies this
      ensures players == old(players)[pid := Player(0.0, 0.0, "")]
      ensures connections == old(connections) + [pid]
      ensures users == old(users) && stars == old(stars) && score == old(score)
    {
      players := players[pid := Player(0.0, 0.0, "")];
      connections := connections + [pid];
    }

    /**
     * One received message: `join` sets the username (default ""), `move`
     * moves the player and then collects stars, and any other type changes
     * nothing.
     */
    method HandleMessage(pid: string, msg: Message, spawn: nat -> Star)
      requires pid in players
      modifies this
      ensures old(Valid()) ==> Valid()
      ensures msg.kind == Some("join") ==>
        && players == old(players)[pid := old(players)[pid].(username := msg.username.GetOr(""))]
        && stars == old(stars) && score == old(score)
      ensures msg.kind == Some("move") ==>
        var moved := ComputeNewPosition(old(players)[pid], msg.direction);
        && players == old(players)[pid := moved]
        && stars == Uncollected(old(stars), moved) + Spawned(spawn, CollectedCount(old(stars), moved))
        && score == old(score) + PointsPerStar * CollectedCount(old(stars), moved)
      ensures msg.kind != Some("join") && msg.kind != Some("move") ==>
        players == old(players) && stars == old(stars) && score == old(score)
      ensures old(score) <= score
      ensures users == old(users) && connections == old(connections)
    {
      if msg.kind == Some("join") {
        players := players[pid := players[pid].(username := msg.username.GetOr(""))];
      } else if msg.kind == Some("move") {
        players := players[pid := ComputeNewPosition(players[pid], msg.direction)];
        CheckStars(pid, spawn);
      }
    }

    /** The socket closes: it is removed from `connections` and the player is dropped. */
    method Disconnect(pid: string)
      requires pid in connections
      modifies this
      ensures connections == RemoveFirst(old(connections), pid)
      ensures multiset(connections) == multiset(old(connections)) - multiset{pid}
      ensures players == old(players) - {pid}
      ensures users == old(users) && stars == old(stars) && score == old(score)
    {
      RemoveFirstCounts(connections, pid);
      connections := RemoveFirst(connections, pid);
      players := players - {pid};
    }

    /**
     * `register_user`: a missing or empty username raises ValueError and
     * changes nothing; otherwise the entry for that username is written,
     * replacing any earlier one, with missing email and password as "".
     */
    method RegisterUser(data: RegisterData) returns (r: RegisterResult)
      modifies this
      ensures r.ValueError? <==> data.username.GetOr("") == ""
      ensures r.ValueError? ==> users == old(users)
      ensures r == StatusOk ==>
        users == old(users)[data.username.value := Account(data.email.GetOr(""), data.password.GetOr(""))]
      ensures players == old(players) && stars == old(stars) && score == old(score)
      ensures connections == old(connections)
    {
      if data.username.None? || data.username.value == "" {
        return ValueError("username required");
      }
      users := users[data.username.value := Account(data.email.GetOr(""), data.password.GetOr(""))];
      r := StatusOk;
    }
  }
}
