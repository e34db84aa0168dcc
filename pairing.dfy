/** What one run of the matchmaking loop does to a waiting list, stated as
    functions of the list on entry: the matches it forms, the players it
    leaves waiting, and the notices it sends. */
module Pairing {
  import opened Protocol

  /** Two players popped together; `first` was queued earlier. */
  datatype Match = Match(first: Player, second: Player)

  /** One attempted `send`; `delivered` is false when the connection was
      already closed. */
  datatype Send = Send(notice: Notice, delivered: bool)

  /** The matches formed by draining `q`: strictly first-in first-out, the
      k-th match pairs the players at positions 2k and 2k+1. */
  function Pairs(q: seq<Player>): (r: seq<Match>)
    decreases |q|
    ensures |r| == |q| / 2
    ensures forall k | 0 <= k < |r| :: r[k] == Match(q[2 * k], q[2 * k + 1])
  {
    if |q| < 2 then [] else [Match(q[0], q[1])] + Pairs(q[2..])
  }

  /** What draining leaves waiting: the last `|q| % 2` players of `q`. */
  function Leftover(q: seq<Player>): (r: seq<Player>)
    decreases |q|
    ensures |r| == |q| % 2 && |r| < 2
  {
    if |q| < 2 then q else Leftover(q[2..])
  }

  /** What is left waiting is a trailing part of the list on entry. */
  lemma {:induction false} LeftoverIsSuffix(q: seq<Player>)
    ensures Leftover(q) == q[|q| - |q| % 2..]
    decreases |q|
  {
    if |q| >= 2 {
      LeftoverIsSuffix(q[2..]);
      assert q[2..][|q| - 2 - (|q| - 2) % 2..] == q[|q| - |q| % 2..];
    }
  }

  /** A connection that has appended `own` to what waited before it, of
      which a trailing part still waits, appends `p` and drains: a trailing
      part of `before + own + [p]` then waits. */
  lemma DrainKeepsSuffix(before: seq<Player>, own: seq<Player>, j: nat, p: Player)
    requires j <= |before + own|
    ensures var grown := (before + own)[j..] + [p];
      && j + |grown| - |Leftover(grown)| <= |before + (own + [p])|
      && Leftover(grown) == (before + (own + [p]))[j + |grown| - |Leftover(grown)|..]
  {
    var grown := (before + own)[j..] + [p];
    assert before + (own + [p]) == (before + own) + [p];
    assert grown == (before + (own + [p]))[j..];
    LeftoverIsSuffix(grown);
  }

  /** The players of a list of matches, in the order they were popped. */
  function Flatten(ms: seq<Match>): (r: seq<Player>)
    ensures |r| == 2 * |ms|
  {
    if ms == [] then [] else [ms[0].first, ms[0].second] + Flatten(ms[1..])
  }

  /** The notices of the matches `ms`, in the order they are sent; the k-th
      match uses id `firstId + k`. */
  function NoticesFor(ms: seq<Match>, firstId: nat): (r: seq<Notice>)
    ensures |r| == 2 * |ms|
  {
    if ms == [] then []
    else PairNotices(ms[0].first, ms[0].second, firstId) + NoticesFor(ms[1..], firstId + 1)
  }

  /** The k-th match's two notices are sent back to back, at positions 2k
      and 2k+1: first to the earlier-queued player with role 1, then to the
      later one with role 2, both with id `firstId + k`. */
  lemma {:induction false} NoticesAt(ms: seq<Match>, firstId: nat, k: nat)
    requires k < |ms|
    ensures NoticesFor(ms, firstId)[2 * k] == MatchNotice(ms[k].first, ms[k].second, firstId + k, 1)
    ensures NoticesFor(ms, firstId)[2 * k + 1] == MatchNotice(ms[k].second, ms[k].first, firstId + k, 2)
    decreases k
  {
    if k > 0 {
      NoticesAt(ms[1..], firstId + 1, k - 1);
    }
  }

  /** The sends of the notices `ns`, the i-th being send number `start + i`,
      whose outcome is `outcome(start + i)`. */
  function Attempts(ns: seq<Notice>, start: nat, outcome: nat -> bool): (r: seq<Send>)
    ensures |r| == |ns|
  {
    if ns == [] then [] else [Send(ns[0], outcome(start))] + Attempts(ns[1..], start + 1, outcome)
  }

  /** Send `i` of a batch carries notice `i` and the outcome of its number. */
  lemma {:induction false} AttemptAt(ns: seq<Notice>, start: nat, outcome: nat -> bool, i: nat)
    requires i < |ns|
    ensures Attempts(ns, start, outcome)[i] == Send(ns[i], outcome(start + i))
    decreases i
  {
    if i > 0 {
      AttemptAt(ns[1..], start + 1, outcome, i - 1);
    }
  }

  /** Sending two batches one after the other numbers the second batch after
      the first. */
  lemma AttemptsAppend(a: seq<Notice>, b: seq<Notice>, start: nat, outcome: nat -> bool)
    ensures Attempts(a + b, start, outcome) == Attempts(a, start, outcome) + Attempts(b, start + |a|, outcome)
  {
    var lhs, rhs := Attempts(a + b, start, outcome), Attempts(a, start, outcome) + Attempts(b, start + |a|, outcome);
    forall i | 0 <= i < |lhs| ensures lhs[i] == rhs[i] {
      AttemptAt(a + b, start, outcome, i);
      if i < |a| {
        AttemptAt(a, start, outcome, i);
      } else {
        AttemptAt(b, start + |a|, outcome, i - |a|);
      }
    }
  }

  /** Every player on entry is either popped into exactly one match or still
      waiting, and the popped ones are the oldest, in queue order. */
  lemma {:induction false} Partition(q: seq<Player>)
    ensures Flatten(Pairs(q)) + Leftover(q) == q
    decreases |q|
  {
    if |q| >= 2 {
      Partition(q[2..]);
      assert Pairs(q)[1..] == Pairs(q[2..]);
      assert q == [q[0], q[1]] + q[2..];
    }
  }

  /** No player is matched twice: the matched and the remaining players
      together are exactly the players present on entry. */
  lemma {:induction false} MatchedOnce(q: seq<Player>)
    ensures multiset(Flatten(Pairs(q))) + multiset(Leftover(q)) == multiset(q)
  {
    Partition(q);
  }

  /** Draining after every append is the same as draining once at the end:
      the matches of `q + s` are those of `q` followed by those of what `q`
      leaves waiting plus `s`. */
  lemma {:induction false} DrainIncremental(q: seq<Player>, s: seq<Player>)
    ensures Pairs(q + s) == Pairs(q) + Pairs(Leftover(q) + s)
    ensures Leftover(q + s) == Leftover(Leftover(q) + s)
    decreases |q|
  {
    if |q| >= 2 {
      assert (q + s)[2..] == q[2..] + s;
      DrainIncremental(q[2..], s);
      assert (q + s)[0] == q[0] && (q + s)[1] == q[1];
    }
  }

  /** A registration joining a list of at most one player: alone it waits;
      with one waiting player it forms a match, the earlier player first,
      and nobody is left waiting. */
  lemma JoinShortQueue(q: seq<Player>, p: Player)
    requires |q| <= 1
    ensures Pairs(q + [p]) == if q == [] then [] else [Match(q[0], p)]
    ensures Leftover(q + [p]) == if q == [] then [p] else []
  {
  }

  /** Registering `ps` one at a time, draining after each: the matches formed
      so far and the list left waiting. */
  function Replay(ps: seq<Player>): (r: (seq<Match>, seq<Player>))
    decreases |ps|
  {
    if ps == [] then ([], [])
    else
      var (ms, waiting) := Replay(ps[..|ps| - 1]);
      var grown := waiting + [ps[|ps| - 1]];
      (ms + Pairs(grown), Leftover(grown))
  }

  /** Registrations arriving in order with no disconnects pair registration
      1 with 2, 3 with 4, and so on, and leave the last one waiting when
      their number is odd. */
  lemma {:induction false} ReplayIsFifo(ps: seq<Player>)
    ensures Replay(ps) == (Pairs(ps), Leftover(ps))
    decreases |ps|
  {
    if ps != [] {
      var init, last := ps[..|ps| - 1], ps[|ps| - 1];
      assert init + [last] == ps;
      ReplayIsFifo(init);
      DrainIncremental(init, [last]);
      var grown := Leftover(init) + [last];
      assert Replay(ps) == (Pairs(init) + Pairs(grown), Leftover(grown));
    }
  }

  /** Each matched pair's notices share one id, and distinct matches of one
      drain use distinct ids. */
  lemma MatchIds(ms: seq<Match>, firstId: nat, i: nat, j: nat)
    requires i < j < 2 * |ms|
    ensures NoticesFor(ms, firstId)[i].matchId == firstId + i / 2
    ensures NoticesFor(ms, firstId)[i].matchId == NoticesFor(ms, firstId)[j].matchId <==> i / 2 == j / 2
  {
    NoticesAt(ms, firstId, i / 2);
    NoticesAt(ms, firstId, j / 2);
  }
}
