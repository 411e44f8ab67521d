/**
 * What the scaler asks of the host's map: whether it is an instance, and how
 * many players on it count towards the party size.
 */
module Players {
  import opened Common

  /** A player on a map; only the game-master test is consulted. */
  datatype Player = Player(gameMaster: bool)

  /**
   * A host map: its kind and its player references. A reference whose
   * source is gone is `None`.
   */
  datatype GameMap = GameMap(dungeon: bool, raid: bool, players: seq<Option<Player>>)

  /** The host's game-master test, taken as given. */
  predicate IsGameMaster(p: Player) {
    p.gameMaster
  }

  /** A map is an instance when it exists and is a dungeon or a raid; a missing map never is. */
  function IsInstanceMap(m: Option<GameMap>): (r: bool)
    ensures r ==> m.Some?
    ensures m.Some? ==> (r <==> m.value.dungeon || m.value.raid)
  {
    m.Some? && (m.value.dungeon || m.value.raid)
  }

  /** A reference counts when it has a player and that player is not a game master. */
  predicate Counts(ref: Option<Player>) {
    ref.Some? && !IsGameMaster(ref.value)
  }

  /** The number of counting references, from the front of the list. */
  function CountNonGm(refs: seq<Option<Player>>): (n: nat)
    ensures n <= |refs|
  {
    if refs == [] then 0 else (if Counts(refs[0]) then 1 else 0) + CountNonGm(refs[1..])
  }

  /** The count of a map: zero for a missing map. */
  function RelevantPlayers(m: Option<GameMap>): nat {
    if m.None? then 0 else CountNonGm(m.value.players)
  }

  /** Counting a concatenation adds the counts of its parts. */
  lemma {:induction false} CountAppend(a: seq<Option<Player>>, b: seq<Option<Player>>)
    ensures CountNonGm(a + b) == CountNonGm(a) + CountNonGm(b)
  {
    if a == [] {
      assert a + b == b;
    } else {
      assert (a + b)[1..] == a[1..] + b;
      CountAppend(a[1..], b);
    }
  }

  /** Game masters and empty references are never counted: removing them leaves the count as it is. */
  lemma {:induction false} CountIgnoresNonCounting(refs: seq<Option<Player>>, k: nat)
    requires k < |refs| && !Counts(refs[k])
    ensures CountNonGm(refs) == CountNonGm(refs[..k] + refs[k + 1..])
  {
    assert refs == refs[..k] + [refs[k]] + refs[k + 1..];
    CountAppend(refs[..k] + [refs[k]], refs[k + 1..]);
    CountAppend(refs[..k], [refs[k]]);
    CountAppend(refs[..k], refs[k + 1..]);
    assert CountNonGm([refs[k]]) == 0 by {
      assert [refs[k]][1..] == [];
    }
  }

  /** On a map with only present, non-GM players every reference counts. */
  lemma {:induction false} CountAllPlayers(refs: seq<Option<Player>>)
    requires forall i :: 0 <= i < |refs| ==> Counts(refs[i])
    ensures CountNonGm(refs) == |refs|
  {
    if refs != [] {
      assert Counts(refs[0]);
      CountAllPlayers(refs[1..]);
    }
  }

  /** Walks the map's player list and counts the players that are not game masters. */
  method CountRelevantPlayers(m: Option<GameMap>) returns (n: nat)
    ensures n == RelevantPlayers(m)
    ensures m.Some? ==> n <= |m.value.players|
  {
    if m.None? {
      return 0;
    }
    var refs := m.value.players;
    n := 0;
    for i := 0 to |refs|
      invariant n == CountNonGm(refs[..i])
    {
      if refs[i].Some? {
        if !IsGameMaster(refs[i].value) {
          n := n + 1;
        }
      }
      assert refs[..i + 1] == refs[..i] + [refs[i]];
      CountAppend(refs[..i], [refs[i]]);
      assert [refs[i]][1..] == [];
    }
    assert refs[..|refs|] == refs;
  }
}
