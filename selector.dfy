/** The time-boxed greedy picker shared by `pick_songs` (spomato/data.py) and
    `Spomato.pick_tracks` (spomato/spomato.py), as functions of the loop state.
    Durations are in seconds; `target` is `time*60` and `extra` is `extra*60`.
    `DataFrame.sample()` is a draw stream: the k-th draw of a run takes the row
    at position `draws(k) % |eligible|` of the current eligible pool, so every
    sequence of draws the sampler could make is covered. */
module Selector {
  import opened Tables

  /** The per-track ceiling: `time_limit` as given (already seconds), or
      `time*60/3.0` when it is None. */
  function Ceiling(time: real, timeLimit: Option<real>): real
  {
    if timeLimit.None? then time * 60.0 / 3.0 else timeLimit.value
  }

  /** The position the k-th draw takes in a pool of `n` rows. */
  function Draw(draws: nat -> nat, k: nat, n: nat): (i: nat)
    requires n > 0
    ensures i < n
  {
    draws(k) % n
  }

  /** The row the loop draws from the state `subdf = pool`, `time_used = used` after
      `k` draws, or None when it stops: when `used > target`, or when no row of
      `pool` fits in `target + extra - used`. */
  function Next(pool: seq<Track>, used: real, target: real, extra: real,
                draws: nat -> nat, k: nat): Option<Track>
  {
    var eligible := AtMost(pool, target + extra - used);
    if used > target || eligible == [] then None
    else Some(eligible[Draw(draws, k, |eligible|)])
  }

  /** The loop stops exactly when `time_used > target` or nothing fits any more;
      otherwise the drawn row is a row of the pool that fits in the room left. */
  lemma NextFits(pool: seq<Track>, used: real, target: real, extra: real,
                 draws: nat -> nat, k: nat)
    ensures var n := Next(pool, used, target, extra, draws, k);
      && (n.None? <==> used > target || forall t :: t in pool ==> t.time > target + extra - used)
      && (n.Some? ==> n.value in pool && n.value.time <= target + extra - used
                      && |WithoutId(pool, n.value.id)| < |pool|)
  {
    var room := target + extra - used;
    var eligible := AtMost(pool, room);
    AtMostMembers(pool, room);
    if !(used > target || eligible == []) {
      var song := eligible[Draw(draws, k, |eligible|)];
      assert Next(pool, used, target, extra, draws, k) == Some(song);
      WithoutIdShrinks(pool, song);
    } else if !(used > target) {
      assert forall t :: t in pool ==> t !in eligible;
    }
  }

  /** Where a run of data.py's loop stops: the picks in draw order, what is left of
      `df` and of `subdf`, and `time_used`. */
  datatype Run = Run(picks: seq<Track>, rest: seq<Track>, pool: seq<Track>, used: real)

  /** data.py's loop from the state `subdf = pool`, `df = rest`, `time_used = used`
      after `k` draws: stop when `Next` finds nothing; otherwise drop the drawn id
      from both tables, add its duration and go on. */
  function Greedy(pool: seq<Track>, rest: seq<Track>, used: real, target: real, extra: real,
                  draws: nat -> nat, k: nat): Run
    decreases |pool|
  {
    match Next(pool, used, target, extra, draws, k)
    case None => Run([], rest, pool, used)
    case Some(song) =>
      NextFits(pool, used, target, extra, draws, k);
      var next := Greedy(WithoutId(pool, song.id), WithoutId(rest, song.id), used + song.time,
                         target, extra, draws, k + 1);
      next.(picks := [song] + next.picks)
  }

  /** spomato.py's loop from `track_df = pool`, `time_used = used` after `k` draws:
      the same steps, except that the narrowed table `track_df[track_df.time <=
      target + extra - used]` replaces `track_df` itself before the drawn id is
      dropped. */
  function GreedyNarrowing(pool: seq<Track>, used: real, target: real, extra: real,
                           draws: nat -> nat, k: nat): seq<Track>
    decreases |pool|
  {
    match Next(pool, used, target, extra, draws, k)
    case None => []
    case Some(track) =>
      var narrowed := AtMost(pool, target + extra - used);
      NextFits(narrowed, used, target, extra, draws, k);
      AtMostAtMost(pool, target + extra - used, target + extra - used);
      NextFits(pool, used, target, extra, draws, k);
      [track] + GreedyNarrowing(WithoutId(narrowed, track.id), used + track.time,
                                target, extra, draws, k + 1)
  }

  /** One step of data.py's loop: a drawn row is added to the picks and the run goes
      on from the state without its id. */
  lemma GreedyStep(pool: seq<Track>, rest: seq<Track>, used: real, target: real, extra: real,
                   draws: nat -> nat, k: nat, song: Track, used': real)
    requires Next(pool, used, target, extra, draws, k) == Some(song)
    requires used' == used + song.time
    ensures var next := Greedy(WithoutId(pool, song.id), WithoutId(rest, song.id), used', target, extra, draws, k + 1);
      Greedy(pool, rest, used, target, extra, draws, k) == next.(picks := [song] + next.picks)
  {
  }

  /** When nothing is drawn the loop ends in the state it is in. */
  lemma GreedyDone(pool: seq<Track>, rest: seq<Track>, used: real, target: real, extra: real,
                   draws: nat -> nat, k: nat)
    requires Next(pool, used, target, extra, draws, k).None?
    ensures Greedy(pool, rest, used, target, extra, draws, k) == Run([], rest, pool, used)
  {
  }

  /** One step of spomato.py's loop. */
  lemma NarrowingStep(pool: seq<Track>, used: real, target: real, extra: real,
                      draws: nat -> nat, k: nat, track: Track, used': real, room: real)
    requires Next(pool, used, target, extra, draws, k) == Some(track)
    requires used' == used + track.time && room == target + extra - used
    ensures var narrowed := AtMost(pool, room);
      GreedyNarrowing(pool, used, target, extra, draws, k)
        == [track] + GreedyNarrowing(WithoutId(narrowed, track.id), used', target, extra, draws, k + 1)
  {
  }

  /** Everything `Greedy` depends on is what `Next` sees, so a pool narrowed to any
      bound at least the room left draws the same row. */
  lemma NextNarrowed(pool: seq<Track>, bound: real, used: real, target: real, extra: real,
                     draws: nat -> nat, k: nat)
    requires target + extra - used <= bound
    ensures Next(AtMost(pool, bound), used, target, extra, draws, k)
         == Next(pool, used, target, extra, draws, k)
  {
    AtMostAtMost(pool, bound, target + extra - used);
  }

  /** Every pick is a row of the pool it was drawn from. */
  lemma {:induction false} GreedyPicksFromPool(pool: seq<Track>, rest: seq<Track>, used: real,
                                               target: real, extra: real, draws: nat -> nat, k: nat)
    ensures forall t :: t in Greedy(pool, rest, used, target, extra, draws, k).picks ==> t in pool
    decreases |pool|
  {
    var n := Next(pool, used, target, extra, draws, k);
    NextFits(pool, used, target, extra, draws, k);
    if n.None? {
      GreedyDone(pool, rest, used, target, extra, draws, k);
    } else {
      var song, used' := n.value, used + n.value.time;
      var pool', rest' := WithoutId(pool, song.id), WithoutId(rest, song.id);
      GreedyStep(pool, rest, used, target, extra, draws, k, song, used');
      var next := Greedy(pool', rest', used', target, extra, draws, k + 1);
      GreedyPicksFromPool(pool', rest', used', target, extra, draws, k + 1);
      WithoutIdMembers(pool, song.id);
      assert forall t :: t in [song] + next.picks ==> t == song || t in next.picks;
    }
  }

  /** No id is picked twice, and the loop draws at most once per row of the pool. */
  lemma {:induction false} GreedyPicksDistinct(pool: seq<Track>, rest: seq<Track>, used: real,
                                               target: real, extra: real, draws: nat -> nat, k: nat)
    ensures var r := Greedy(pool, rest, used, target, extra, draws, k);
      DistinctIds(r.picks) && |r.picks| <= |pool|
    decreases |pool|
  {
    var n := Next(pool, used, target, extra, draws, k);
    NextFits(pool, used, target, extra, draws, k);
    if n.None? {
      GreedyDone(pool, rest, used, target, extra, draws, k);
    } else {
      var song, used' := n.value, used + n.value.time;
      var pool', rest' := WithoutId(pool, song.id), WithoutId(rest, song.id);
      GreedyStep(pool, rest, used, target, extra, draws, k, song, used');
      var next := Greedy(pool', rest', used', target, extra, draws, k + 1);
      GreedyPicksDistinct(pool', rest', used', target, extra, draws, k + 1);
      GreedyPicksFromPool(pool', rest', used', target, extra, draws, k + 1);
      WithoutIdMembers(pool, song.id);
      SeparateHead(song, next.picks);
    }
  }

  /** A head whose id none of the tail carries, on a tail with distinct ids. */
  lemma SeparateHead(x: Track, s: seq<Track>)
    requires DistinctIds(s) && forall t :: t in s ==> t.id != x.id
    ensures DistinctIds([x] + s)
  {
    var xs := [x] + s;
    forall i, j | 0 <= i < j < |xs|
      ensures xs[i].id != xs[j].id
    {
      assert xs[j] == s[j - 1];
      if i > 0 {
        assert xs[i] == s[i - 1];
      }
    }
  }

  /** `time_used` at the end is the start value plus the picked durations. */
  lemma {:induction false} GreedyUsed(pool: seq<Track>, rest: seq<Track>, used: real,
                                      target: real, extra: real, draws: nat -> nat, k: nat)
    ensures var r := Greedy(pool, rest, used, target, extra, draws, k);
      r.used == used + Sum(r.picks)
    decreases |pool|
  {
    var n := Next(pool, used, target, extra, draws, k);
    NextFits(pool, used, target, extra, draws, k);
    if n.None? {
      GreedyDone(pool, rest, used, target, extra, draws, k);
    } else {
      var song, used' := n.value, used + n.value.time;
      var pool', rest' := WithoutId(pool, song.id), WithoutId(rest, song.id);
      GreedyStep(pool, rest, used, target, extra, draws, k, song, used');
      var next := Greedy(pool', rest', used', target, extra, draws, k + 1);
      GreedyUsed(pool', rest', used', target, extra, draws, k + 1);
      SumCons(song, next.picks);
    }
  }

  /** Every running total of `s`, started from `used`, stays within `cap`. */
  predicate WithinBudget(s: seq<Track>, used: real, cap: real)
  {
    forall i :: 0 < i <= |s| ==> used + Sum(s[..i]) <= cap
  }

  /** A head that fits, followed by a tail within budget from where the head leaves off. */
  lemma PrefixSumsCons(x: Track, s: seq<Track>, used: real, cap: real)
    requires used + x.time <= cap
    requires WithinBudget(s, used + x.time, cap)
    ensures WithinBudget([x] + s, used, cap)
  {
    forall i | 0 < i <= |[x] + s|
      ensures used + Sum(([x] + s)[..i]) <= cap
    {
      assert ([x] + s)[..i] == [x] + s[..i - 1];
      SumCons(x, s[..i - 1]);
      if i == 1 {
        assert s[..0] == [];
      }
    }
  }

  /** Each pick fits in what is left of `target + extra` when it is drawn, so every
      running total, and the final one, stays within `target + extra`. */
  lemma {:induction false} GreedyWithinBudget(pool: seq<Track>, rest: seq<Track>, used: real,
                                              target: real, extra: real, draws: nat -> nat, k: nat)
    ensures WithinBudget(Greedy(pool, rest, used, target, extra, draws, k).picks, used, target + extra)
    decreases |pool|
  {
    var n := Next(pool, used, target, extra, draws, k);
    NextFits(pool, used, target, extra, draws, k);
    if n.None? {
      GreedyDone(pool, rest, used, target, extra, draws, k);
    } else {
      var song, used' := n.value, used + n.value.time;
      var pool', rest' := WithoutId(pool, song.id), WithoutId(rest, song.id);
      GreedyStep(pool, rest, used, target, extra, draws, k, song, used');
      var next := Greedy(pool', rest', used', target, extra, draws, k + 1);
      GreedyWithinBudget(pool', rest', used', target, extra, draws, k + 1);
      PrefixSumsCons(song, next.picks, used, target + extra);
    }
  }

  /** On exit either `time_used > target` or no row left in `subdf` fits in the
      remaining budget. */
  lemma {:induction false} GreedyStops(pool: seq<Track>, rest: seq<Track>, used: real,
                                       target: real, extra: real, draws: nat -> nat, k: nat)
    ensures var r := Greedy(pool, rest, used, target, extra, draws, k);
      r.used > target || forall t :: t in r.pool ==> t.time > target + extra - r.used
    decreases |pool|
  {
    var n := Next(pool, used, target, extra, draws, k);
    NextFits(pool, used, target, extra, draws, k);
    if n.None? {
      GreedyDone(pool, rest, used, target, extra, draws, k);
    } else {
      var song, used' := n.value, used + n.value.time;
      var pool', rest' := WithoutId(pool, song.id), WithoutId(rest, song.id);
      GreedyStep(pool, rest, used, target, extra, draws, k, song, used');
      GreedyStops(pool', rest', used', target, extra, draws, k + 1);
    }
  }

  lemma {:induction false} WithoutIdsNone(s: seq<Track>)
    ensures WithoutIds(s, {}) == s
  {
    if s != [] {
      WithoutIdsNone(s[1..]);
      assert s == [s[0]] + s[1..];
    }
  }

  /** The returned `df` is the input with every row whose id was picked removed,
      the other rows unchanged and in order; so is the final `subdf`. */
  lemma {:induction false} GreedyRest(pool: seq<Track>, rest: seq<Track>, used: real,
                                      target: real, extra: real, draws: nat -> nat, k: nat)
    ensures var r := Greedy(pool, rest, used, target, extra, draws, k);
      && r.rest == WithoutIds(rest, IdSet(r.picks))
      && r.pool == WithoutIds(pool, IdSet(r.picks))
    decreases |pool|
  {
    var n := Next(pool, used, target, extra, draws, k);
    NextFits(pool, used, target, extra, draws, k);
    if n.None? {
      GreedyDone(pool, rest, used, target, extra, draws, k);
      assert IdSet([]) == {};
      WithoutIdsNone(rest);
      WithoutIdsNone(pool);
    } else {
      var song, used' := n.value, used + n.value.time;
      var pool', rest' := WithoutId(pool, song.id), WithoutId(rest, song.id);
      GreedyStep(pool, rest, used, target, extra, draws, k, song, used');
      var next := Greedy(pool', rest', used', target, extra, draws, k + 1);
      GreedyRest(pool', rest', used', target, extra, draws, k + 1);
      WithoutIdThenIds(rest, song.id, IdSet(next.picks));
      WithoutIdThenIds(pool, song.id, IdSet(next.picks));
      assert IdSet([song] + next.picks) == {song.id} + IdSet(next.picks) by {
        assert forall t :: t in [song] + next.picks <==> t == song || t in next.picks;
      }
    }
  }

  /** With durations that are never negative `time_used` only grows, so narrowing
      `track_df` in place (spomato.py) admits the same rows at every step as
      narrowing a fresh copy of `subdf` (data.py): for the same draws both loops
      make the same picks. `bound` is any bound `track_df` has already been
      narrowed to. */
  lemma {:induction false} NarrowingAgrees(pool: seq<Track>, narrowed: seq<Track>, rest: seq<Track>,
                                           bound: real, used: real,
                                           target: real, extra: real, draws: nat -> nat, k: nat)
    requires forall t :: t in pool ==> t.time >= 0.0
    requires target + extra - used <= bound && narrowed == AtMost(pool, bound)
    ensures GreedyNarrowing(narrowed, used, target, extra, draws, k)
         == Greedy(pool, rest, used, target, extra, draws, k).picks
    decreases |pool|
  {
    var n := Next(pool, used, target, extra, draws, k);
    NextNarrowed(pool, bound, used, target, extra, draws, k);
    NextFits(pool, used, target, extra, draws, k);
    if n.None? {
      GreedyDone(pool, rest, used, target, extra, draws, k);
      NarrowingDone(narrowed, used, target, extra, draws, k);
    } else {
      var song, used' := n.value, used + n.value.time;
      var room := target + extra - used;
      var pool', rest' := WithoutId(pool, song.id), WithoutId(rest, song.id);
      GreedyStep(pool, rest, used, target, extra, draws, k, song, used');
      var next := Greedy(pool', rest', used', target, extra, draws, k + 1);
      NarrowingStep(narrowed, used, target, extra, draws, k, song, used', room);
      AtMostAtMost(pool, bound, room);
      AtMostWithoutId(pool, room, song.id);
      var narrowed' := WithoutId(AtMost(narrowed, room), song.id);
      assert narrowed' == AtMost(pool', room);
      WithoutIdMembers(pool, song.id);
      assert target + extra - used' <= room;
      NarrowingAgrees(pool', narrowed', rest', room, used', target, extra, draws, k + 1);
      calc {
        GreedyNarrowing(narrowed, used, target, extra, draws, k);
        [song] + GreedyNarrowing(narrowed', used', target, extra, draws, k + 1);
        [song] + next.picks;
        Greedy(pool, rest, used, target, extra, draws, k).picks;
      }
    }
  }

  /** When nothing is drawn spomato.py's loop picks nothing more. */
  lemma NarrowingDone(pool: seq<Track>, used: real, target: real, extra: real,
                      draws: nat -> nat, k: nat)
    requires Next(pool, used, target, extra, draws, k).None?
    ensures GreedyNarrowing(pool, used, target, extra, draws, k) == []
  {
  }

  /** Both loops, entered as the source enters them: the ceiling filter first,
      nothing used, no draw made yet. The twins agree on every table whose
      durations are non-negative, whatever the target, slack and ceiling. */
  lemma TwinsAgree(df: seq<Track>, target: real, slack: real, ceiling: real, draws: nat -> nat)
    requires forall t :: t in df ==> t.time >= 0.0
    ensures GreedyNarrowing(AtMost(df, ceiling), 0.0, target, slack, draws, 0)
         == Greedy(AtMost(df, ceiling), df, 0.0, target, slack, draws, 0).picks
  {
    var subdf := AtMost(df, ceiling);
    var bound := if ceiling < target + slack then target + slack else ceiling;
    AtMostMembers(df, ceiling);
    assert forall t :: t in subdf ==> t.time <= bound;
    AtMostKeepsAll(subdf, bound);
    NarrowingAgrees(subdf, subdf, df, bound, 0.0, target, slack, draws, 0);
  }

  /** The in-place loop on its own: its picks come from the pool, carry distinct
      ids and keep every running total within `target + extra`, whatever the
      durations. */
  lemma {:induction false} NarrowingWithinBudget(pool: seq<Track>, used: real, target: real, extra: real,
                                                 draws: nat -> nat, k: nat)
    ensures var picks := GreedyNarrowing(pool, used, target, extra, draws, k);
      && (forall t :: t in picks ==> t in pool)
      && DistinctIds(picks)
      && WithinBudget(picks, used, target + extra)
    decreases |pool|
  {
    var n := Next(pool, used, target, extra, draws, k);
    NextFits(pool, used, target, extra, draws, k);
    if n.Some? {
      var track, used' := n.value, used + n.value.time;
      var room := target + extra - used;
      var narrowed := AtMost(pool, room);
      NextNarrowed(pool, room, used, target, extra, draws, k);
      NextFits(narrowed, used, target, extra, draws, k);
      NarrowingStep(pool, used, target, extra, draws, k, track, used', room);
      var pool' := WithoutId(narrowed, track.id);
      var more := GreedyNarrowing(pool', used', target, extra, draws, k + 1);
      NarrowingWithinBudget(pool', used', target, extra, draws, k + 1);
      WithoutIdMembers(narrowed, track.id);
      AtMostMembers(pool, room);
      PrefixSumsCons(track, more, used, target + extra);
      SeparateHead(track, more);
      assert forall t :: t in [track] + more ==> t == track || t in more;
    }
  }
}
