/** Sprites and sprite lists as the game sees them. A sprite list is a sequence
    of sprite ids; the same sprite may be listed more than once, and every
    entry with a given id denotes the same sprite object. Removing a sprite
    (`remove_from_sprite_lists`) drops every entry with its id. */
module Sprites {

  datatype Option<T> = None | Some(value: T)

  /** How far a sprite's hit box reaches from the sprite's centre to each of
      its edges. The engine trims the hit box to the image's opaque pixels and
      turns it with the sprite's angle, so the four distances need not agree. */
  datatype Reach = Reach(left: real, right: real, bottom: real, top: real)

  /** A patrolling enemy: only its horizontal extent, its horizontal speed and
      its optional patrol boundaries take part in the game rules. */
  datatype Enemy = Enemy(
    centerX: real,
    reach: Reach,
    changeX: real,
    boundaryLeft: Option<real>,
    boundaryRight: Option<real>)
  {
    function Left(): real { centerX - reach.left }
    function Right(): real { centerX + reach.right }
  }

  /** An arrow in flight, with its bounding box and velocity. */
  datatype Arrow = Arrow(
    id: nat,
    centerX: real,
    centerY: real,
    reach: Reach,
    changeX: real,
    changeY: real)
  {
    function Left(): real { centerX - reach.left }
    function Right(): real { centerX + reach.right }
    function Bottom(): real { centerY - reach.bottom }
    function Top(): real { centerY + reach.top }
  }

  /** The engine's per-frame `Sprite.update` of an arrow: move by its velocity. */
  function MoveArrow(a: Arrow): Arrow {
    a.(centerX := a.centerX + a.changeX, centerY := a.centerY + a.changeY)
  }

  /** The engine's `SpriteList.update` on the arrow list. */
  function MoveArrows(list: seq<Arrow>): seq<Arrow> {
    seq(|list|, i requires 0 <= i < |list| => MoveArrow(list[i]))
  }

  /** The engine's `SpriteList.update` on the enemy list: each entry, in list
      order, moves its sprite by the sprite's speed, so a sprite listed twice
      moves twice. */
  function MoveAll(list: seq<nat>, sprites: map<nat, Enemy>): map<nat, Enemy>
  {
    if list == [] then sprites
    else
      var before := MoveAll(list[..|list| - 1], sprites);
      var id := list[|list| - 1];
      if id in before then before[id := before[id].(centerX := before[id].centerX + before[id].changeX)]
      else before
  }

  /** Each sprite moves once per entry: its speed times the number of times it
      is listed; nothing else about any sprite changes. */
  lemma {:induction false} MoveAllMoves(list: seq<nat>, sprites: map<nat, Enemy>, k: nat)
    requires k in sprites
    ensures var moved := MoveAll(list, sprites);
      moved.Keys == sprites.Keys && k in moved &&
      moved[k] == sprites[k].(centerX := sprites[k].centerX + multiset(list)[k] as real * sprites[k].changeX)
  {
    if list != [] {
      var init := list[..|list| - 1];
      var id := list[|list| - 1];
      MoveAllMoves(init, sprites, k);
      CountLast(list, k);
      if id == k {
        var counts: multiset<nat> := multiset(init);
        MoveOnceMore(sprites[k].centerX, sprites[k].changeX, counts[k]);
      }
    }
  }

  /** How often `k` is listed, counted up to and including the last entry. */
  lemma CountLast(list: seq<nat>, k: nat)
    requires list != []
    ensures multiset(list)[k] == multiset(list[..|list| - 1])[k] + if list[|list| - 1] == k then 1 else 0
  {
    var init := list[..|list| - 1];
    assert list == init + [list[|list| - 1]];
  }

  /** One more step at speed `v` after `c` steps. */
  lemma MoveOnceMore(x: real, v: real, c: nat)
    ensures x + c as real * v + v == x + (c + 1) as real * v
  {
  }

  /** The entries of a sprite list whose id is not in `gone`, in list order:
      what is left after every sprite with such an id removed itself. */
  function Kept(s: seq<nat>, gone: set<nat>): (r: seq<nat>)
    ensures |r| <= |s|
    ensures forall x :: x in r <==> x in s && x !in gone
  {
    if s == [] then []
    else if s[0] in gone then Kept(s[1..], gone)
    else [s[0]] + Kept(s[1..], gone)
  }

  /** Removal keeps every entry of a sprite that stays, however often it is
      listed, and drops every entry of a removed one. */
  lemma {:induction false} KeptCounts(s: seq<nat>, gone: set<nat>)
    ensures forall x :: multiset(Kept(s, gone))[x] == if x in gone then 0 else multiset(s)[x]
  {
    if s != [] {
      assert s == [s[0]] + s[1..];
      KeptCounts(s[1..], gone);
    }
  }

  /** The entries of a sprite list whose id is in `hits`, in list order: the
      hit list `check_for_collision_with_list` returns when the engine reports
      exactly the sprites with those ids as overlapping. */
  function Hit(s: seq<nat>, hits: set<nat>): (r: seq<nat>)
    ensures |r| <= |s|
    ensures forall x :: x in r <==> x in s && x in hits
  {
    if s == [] then []
    else if s[0] in hits then [s[0]] + Hit(s[1..], hits)
    else Hit(s[1..], hits)
  }

  /** The hit list holds an overlapping sprite as often as the list does. */
  lemma {:induction false} HitCounts(s: seq<nat>, hits: set<nat>)
    ensures forall x :: multiset(Hit(s, hits))[x] == if x in hits then multiset(s)[x] else 0
  {
    if s != [] {
      assert s == [s[0]] + s[1..];
      HitCounts(s[1..], hits);
    }
  }

  /** Every entry either stays or is hit: removing the hit list takes out
      exactly as many entries as it holds. */
  lemma {:induction false} SplitCount(s: seq<nat>, ids: set<nat>)
    ensures |Kept(s, ids)| + |Hit(s, ids)| == |s|
  {
    if s != [] {
      SplitCount(s[1..], ids);
    }
  }

  /** Removing one set of ids and then another is removing their union. */
  lemma {:induction false} KeptTwice(s: seq<nat>, a: set<nat>, b: set<nat>)
    ensures Kept(Kept(s, a), b) == Kept(s, a + b)
  {
    if s != [] {
      KeptTwice(s[1..], a, b);
    }
  }

  /** Only the ids that occur in the list matter to what is kept. */
  lemma {:induction false} KeptAgree(s: seq<nat>, a: set<nat>, b: set<nat>)
    requires forall x :: x in s ==> (x in a <==> x in b)
    ensures Kept(s, a) == Kept(s, b)
  {
    if s != [] {
      assert s[0] in s;
      forall x | x in s[1..] ensures x in a <==> x in b {
        assert x in s;
      }
      KeptAgree(s[1..], a, b);
    }
  }

  /** Removing every sprite of a hit list, one after another, adding `reward`
      to the running score for each entry: the loops over `hit_list` and
      `coin_hit_list` in `MyGame.update`. */
  method RemoveHits(s: seq<nat>, hits: set<nat>, reward: int, score: int)
    returns (rest: seq<nat>, total: int)
    ensures rest == Kept(s, hits)
    ensures total == score + reward * |Hit(s, hits)|
    ensures |rest| + |Hit(s, hits)| == |s|
  {
    var hitList := Hit(s, hits);
    rest, total := s, score;
    ghost var gone: set<nat> := {};
    KeptNone(s);
    for j := 0 to |hitList|
      invariant gone <= hits
      invariant forall k :: 0 <= k < j ==> hitList[k] in gone
      invariant rest == Kept(s, gone)
      invariant total == score + reward * j
    {
      var sprite := hitList[j];
      RemoveOneMore(s, hits, gone, j);
      rest := Kept(rest, {sprite});
      gone := gone + {sprite};
      OneMoreReward(score, reward, j);
      total := total + reward;
    }
    RemovedEveryHit(s, hits, gone);
  }

  /** Removing the next entry of the hit list extends the removed set. */
  lemma RemoveOneMore(s: seq<nat>, hits: set<nat>, gone: set<nat>, j: nat)
    requires j < |Hit(s, hits)|
    requires gone <= hits
    requires forall k :: 0 <= k < j ==> Hit(s, hits)[k] in gone
    ensures var next := gone + {Hit(s, hits)[j]};
      next <= hits &&
      (forall k :: 0 <= k < j + 1 ==> Hit(s, hits)[k] in next) &&
      Kept(Kept(s, gone), {Hit(s, hits)[j]}) == Kept(s, next)
  {
    assert Hit(s, hits)[j] in Hit(s, hits);
    KeptTwice(s, gone, {Hit(s, hits)[j]});
  }

  /** Once every entry of the hit list has been removed, what is left is the
      kept list, and the two lists account for every entry. */
  lemma RemovedEveryHit(s: seq<nat>, hits: set<nat>, gone: set<nat>)
    requires gone <= hits
    requires forall k :: 0 <= k < |Hit(s, hits)| ==> Hit(s, hits)[k] in gone
    ensures Kept(s, gone) == Kept(s, hits)
    ensures |Kept(s, hits)| + |Hit(s, hits)| == |s|
  {
    var hitList := Hit(s, hits);
    forall x | x in hitList ensures x in gone {
      var k :| 0 <= k < |hitList| && hitList[k] == x;
    }
    KeptAllHits(s, hits, gone);
    SplitCount(s, hits);
  }

  lemma OneMoreReward(score: int, reward: int, j: nat)
    ensures score + reward * j + reward == score + reward * (j + 1)
  {
  }

  /** Removing every id of the hit list removes exactly the hit entries. */
  lemma KeptAllHits(s: seq<nat>, hits: set<nat>, gone: set<nat>)
    requires gone <= hits
    requires forall x :: x in Hit(s, hits) ==> x in gone
    ensures Kept(s, gone) == Kept(s, hits)
  {
    forall x | x in s ensures x in gone <==> x in hits {
      if x in hits {
        assert x in Hit(s, hits);
      }
    }
    KeptAgree(s, gone, hits);
  }

  lemma {:induction false} KeptNone(s: seq<nat>)
    ensures Kept(s, {}) == s
  {
    if s != [] {
      KeptNone(s[1..]);
    }
  }

  /** After the hit sprites are removed, none of them can be hit again. */
  lemma {:induction false} HitAfterKept(s: seq<nat>, ids: set<nat>)
    ensures Hit(Kept(s, ids), ids) == []
    ensures Kept(Kept(s, ids), ids) == Kept(s, ids)
  {
    if s != [] {
      HitAfterKept(s[1..], ids);
    }
    KeptTwice(s, ids, ids);
    assert ids + ids == ids;
  }
}
