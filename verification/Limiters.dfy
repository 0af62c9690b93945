/** The request limiter: a token bucket.

    The runs are stated in token time: an instant is measured by the tokens earned up to it,
    seconds times rate, so that a window of length x earns x tokens. The class works in
    seconds, and its contract is stated in seconds. */
module Limiters {

  datatype Bucket = Bucket(tokens: real, capacity: real, last: real)

  function Refill(b: Bucket, now: real): Bucket {
    var t := b.tokens + (now - b.last);
    b.(tokens := if t > b.capacity then b.capacity else t, last := now)
  }

  function Decide(b: Bucket, now: real): (Bucket, bool) {
    var f := Refill(b, now);
    if f.tokens < 1.0 then (f, false) else (f.(tokens := f.tokens - 1.0), true)
  }

  ghost predicate Fresh(b: Bucket) {
    b.tokens == b.capacity && b.capacity >= 1.0
  }

  // ---- Runs: one call per instant ----

  function After(b: Bucket, marks: seq<real>): Bucket {
    if marks == [] then b
    else Decide(After(b, marks[..|marks| - 1]), marks[|marks| - 1]).0
  }

  function Decisions(b: Bucket, marks: seq<real>): (d: seq<bool>)
    ensures |d| == |marks|
  {
    if marks == [] then []
    else
      Decisions(b, marks[..|marks| - 1]) + [Decide(After(b, marks[..|marks| - 1]), marks[|marks| - 1]).1]
  }

  lemma Unroll(b: Bucket, marks: seq<real>)
    requires marks != []
    ensures var n := |marks| - 1;
            && After(b, marks) == Decide(After(b, marks[..n]), marks[n]).0
            && Decisions(b, marks)[..n] == Decisions(b, marks[..n])
            && Decisions(b, marks)[n] == Decide(After(b, marks[..n]), marks[n]).1
  {
  }

  lemma {:induction false} CapacityStays(b: Bucket, marks: seq<real>)
    ensures After(b, marks).capacity == b.capacity
    ensures After(b, marks).last == if marks == [] then b.last else marks[|marks| - 1]
  {
    if marks != [] { CapacityStays(b, marks[..|marks| - 1]); }
  }

  lemma {:induction false} DecisionsPrefix(b: Bucket, marks: seq<real>, n: nat)
    requires n <= |marks|
    ensures Decisions(b, marks)[..n] == Decisions(b, marks[..n])
    decreases |marks|
  {
    if n < |marks| {
      var m := |marks| - 1;
      DecisionsPrefix(b, marks[..m], n);
      assert marks[..m][..n] == marks[..n];
    } else {
      assert marks[..n] == marks;
    }
  }

  /** How many of the decisions admit. */
  function Count(d: seq<bool>): nat {
    if d == [] then 0 else Count(d[..|d| - 1]) + if d[|d| - 1] then 1 else 0
  }

  lemma CountExtends(d: seq<bool>, i: nat)
    requires i < |d|
    ensures Count(d[i..]) == Count(d[..|d| - 1][i..]) + if d[|d| - 1] then 1 else 0
  {
    assert d[i..][..|d[i..]| - 1] == d[..|d| - 1][i..];
  }

  lemma {:induction false} CountSplit(a: seq<bool>, b: seq<bool>)
    ensures Count(a + b) == Count(a) + Count(b)
  {
    if b == [] {
      assert a + b == a;
    } else {
      CountSplit(a, b[..|b| - 1]);
      assert (a + b)[..|a + b| - 1] == a + b[..|b| - 1];
    }
  }

  lemma CountAt(d: seq<bool>, i: nat)
    requires i <= |d|
    ensures Count(d) == Count(d[..i]) + Count(d[i..])
  {
    CountSplit(d[..i], d[i..]);
    assert d[..i] + d[i..] == d;
  }

  // ---- The tokens are the least room over all windows ----

  /** Start of the i-th window ending at `now`: call i, or `now` itself for i == |marks|. */
  function Start(marks: seq<real>, now: real, i: nat): real
    requires i <= |marks|
  {
    if i == |marks| then now else marks[i]
  }

  /** What the window from call i to `now` still has room for. */
  function Room(capacity: real, marks: seq<real>, d: seq<bool>, now: real, i: nat): real
    requires |d| == |marks| && i <= |marks|
  {
    capacity + (now - Start(marks, now, i)) - Count(d[i..]) as real
  }

  function Rooms(capacity: real, marks: seq<real>, d: seq<bool>, now: real): (s: seq<real>)
    requires |d| == |marks|
    ensures |s| == |marks| + 1
    ensures forall i :: 0 <= i <= |marks| ==> s[i] == Room(capacity, marks, d, now, i)
  {
    seq(|marks| + 1, i requires 0 <= i <= |marks| => Room(capacity, marks, d, now, i))
  }

  lemma RoomStep(capacity: real, marks: seq<real>, d: seq<bool>, now: real, i: nat)
    requires |d| == |marks| && i < |marks|
    ensures Room(capacity, marks, d, now, i)
         == Room(capacity, marks[..|marks| - 1], d[..|marks| - 1], marks[|marks| - 1], i)
            + (now - marks[|marks| - 1] - (if d[|marks| - 1] then 1.0 else 0.0))
  {
    CountExtends(d, i);
  }

  ghost predicate Least(x: real, s: seq<real>) {
    && (forall i :: 0 <= i < |s| ==> x <= s[i])
    && (exists i :: 0 <= i < |s| && x == s[i])
  }

  lemma LeastShifts(x: real, s: seq<real>, shift: real, top: real, s': seq<real>)
    requires Least(x, s) && |s'| == |s| + 1 && s'[|s|] == top
    requires forall i :: 0 <= i < |s| ==> s'[i] == s[i] + shift
    ensures Least(if x + shift > top then top else x + shift, s')
  {
    var k :| 0 <= k < |s| && x == s[k];
    assert s'[k] == x + shift;
  }

  /** What a call leaves and the refill after it, in terms of the refill before it. */
  lemma TwoRefills(before: Bucket, at: real, now: real)
    ensures var (after, admitted) := Decide(before, at);
            var t := Refill(before, at).tokens + (now - at - (if admitted then 1.0 else 0.0));
            Refill(after, now).tokens == if t > before.capacity then before.capacity else t
  {
  }

  /** After refilling, the tokens are the least room over all windows ending now. */
  lemma {:induction false} TokensAreLeastRoom(b: Bucket, marks: seq<real>, now: real)
    requires Fresh(b) && b.last <= Start(marks, now, 0)
    ensures Least(Refill(After(b, marks), now).tokens, Rooms(b.capacity, marks, Decisions(b, marks), now))
  {
    var d := Decisions(b, marks);
    var rooms := Rooms(b.capacity, marks, d, now);
    assert d[|marks|..] == [];
    assert rooms[|marks|] == b.capacity;
    if marks != [] {
      var n := |marks| - 1;
      TokensAreLeastRoom(b, marks[..n], marks[n]);
      Unroll(b, marks);
      CapacityStays(b, marks[..n]);
      var before := After(b, marks[..n]);
      TwoRefills(before, marks[n], now);
      var s := Rooms(b.capacity, marks[..n], d[..n], marks[n]);
      var shift := now - marks[n] - (if d[n] then 1.0 else 0.0);
      forall i | 0 <= i < |s| ensures rooms[i] == s[i] + shift {
        RoomStep(b.capacity, marks, d, now, i);
      }
      LeastShifts(Refill(before, marks[n]).tokens, s, shift, b.capacity, rooms);
    }
  }

  /** Every window ending at `now` has room for one more admitted call. */
  ghost predicate Fits(capacity: real, marks: seq<real>, d: seq<bool>, now: real)
    requires |d| == |marks|
  {
    forall i :: 0 <= i <= |marks| ==> Room(capacity, marks, d, now, i) >= 1.0
  }

  /** A call is admitted exactly when admitting it keeps every window, from an earlier call or
      from now, within the capacity plus what the window earns. */
  lemma AdmitsExactlyWhenItFits(b: Bucket, marks: seq<real>, now: real)
    requires Fresh(b) && b.last <= Start(marks, now, 0)
    ensures Decide(After(b, marks), now).1 <==> Fits(b.capacity, marks, Decisions(b, marks), now)
  {
    TokensAreLeastRoom(b, marks, now);
    var tokens := Refill(After(b, marks), now).tokens;
    var s := Rooms(b.capacity, marks, Decisions(b, marks), now);
    var k :| 0 <= k < |s| && tokens == s[k];
    assert s[k] == Room(b.capacity, marks, Decisions(b, marks), now, k);
  }

  // ---- The greedy limiter conforms, and admits the most that any conforming one could ----

  /** Each admitted call leaves no window ending at it over its allowance. */
  ghost predicate Conforms(capacity: real, marks: seq<real>, d: seq<bool>)
    requires |d| == |marks|
  {
    forall j :: 0 <= j < |marks| && d[j] ==> Fits(capacity, marks[..j], d[..j], marks[j])
  }

  lemma {:induction false} DecisionsConform(b: Bucket, marks: seq<real>)
    requires Fresh(b) && (marks != [] ==> b.last <= marks[0])
    ensures Conforms(b.capacity, marks, Decisions(b, marks))
  {
    if marks != [] {
      var n := |marks| - 1;
      var d := Decisions(b, marks);
      DecisionsConform(b, marks[..n]);
      Unroll(b, marks);
      AdmitsExactlyWhenItFits(b, marks[..n], marks[n]);
      forall j | 0 <= j < |marks| && d[j]
        ensures Fits(b.capacity, marks[..j], d[..j], marks[j])
      {
        if j < n {
          assert marks[..n][..j] == marks[..j] && d[..n][..j] == d[..j];
        }
      }
    }
  }

  lemma ConformsPrefix(capacity: real, marks: seq<real>, d: seq<bool>, n: nat)
    requires |d| == |marks| && n <= |marks| && Conforms(capacity, marks, d)
    ensures Conforms(capacity, marks[..n], d[..n])
  {
    forall j | 0 <= j < n && d[..n][j]
      ensures Fits(capacity, marks[..n][..j], d[..n][..j], marks[..n][j])
    {
      assert marks[..n][..j] == marks[..j] && d[..n][..j] == d[..j];
    }
  }

  /** No decisions that keep every window within the same allowance admit more calls, at any
      point of any run. */
  lemma {:induction false} AdmitsTheMost(b: Bucket, marks: seq<real>, other: seq<bool>)
    requires Fresh(b) && (marks != [] ==> b.last <= marks[0])
    requires |other| == |marks| && Conforms(b.capacity, marks, other)
    ensures Count(other) <= Count(Decisions(b, marks))
    decreases |marks|
  {
    if marks != [] {
      var n := |marks| - 1;
      var d := Decisions(b, marks);
      Unroll(b, marks);
      ConformsPrefix(b.capacity, marks, other, n);
      AdmitsTheMost(b, marks[..n], other[..n]);
      AdmitsExactlyWhenItFits(b, marks[..n], marks[n]);
      if other[n] && !d[n] {
        var i :| 0 <= i <= n && Room(b.capacity, marks[..n], d[..n], marks[n], i) < 1.0;
        assert Room(b.capacity, marks[..n], other[..n], marks[n], i) >= 1.0;
        assert Count(other[..n][i..]) < Count(d[..n][i..]);
        ConformsPrefix(b.capacity, marks, other, i);
        AdmitsTheMost(b, marks[..i], other[..i]);
        TailDecides(b, marks, other, n, i);
      }
    }
  }

  lemma TailDecides(b: Bucket, marks: seq<real>, other: seq<bool>, n: nat, i: nat)
    requires |other| == |marks| && i <= n < |marks|
    requires Count(other[..i]) <= Count(Decisions(b, marks[..i]))
    requires Count(other[..n][i..]) < Count(Decisions(b, marks)[..n][i..])
    ensures Count(other[..n]) < Count(Decisions(b, marks)[..n])
  {
    var d := Decisions(b, marks);
    DecisionsPrefix(b, marks, i);
    CountAt(other[..n], i);
    CountAt(d[..n], i);
    assert other[..n][..i] == other[..i] && d[..n][..i] == d[..i];
  }

  /** Calls that each earn a whole token since the one before are never refused. */
  lemma {:induction false} SpacedCallsPass(b: Bucket, marks: seq<real>)
    requires Fresh(b) && (marks != [] ==> b.last <= marks[0])
    requires forall i :: 0 < i < |marks| ==> marks[i] - marks[i - 1] >= 1.0
    ensures forall i :: 0 <= i < |marks| ==> Decisions(b, marks)[i]
    ensures After(b, marks).tokens >= 0.0
  {
    if marks != [] {
      var n := |marks| - 1;
      SpacedCallsPass(b, marks[..n]);
      CapacityStays(b, marks[..n]);
      Unroll(b, marks);
      assert forall i :: 0 <= i < n ==> Decisions(b, marks)[i] == Decisions(b, marks)[..n][i];
      assert Refill(After(b, marks[..n]), marks[n]).tokens >= 1.0;
    }
  }

  // ---- Seconds ----

  /** The tokens that a length of time earns. */
  function Earned(seconds: real, rate: real): real {
    seconds * rate
  }

  function Marks(times: seq<real>, rate: real): (m: seq<real>)
    ensures |m| == |times|
  {
    if times == [] then [] else Marks(times[..|times| - 1], rate) + [Earned(times[|times| - 1], rate)]
  }

  lemma {:induction false} MarkAt(times: seq<real>, rate: real, i: nat)
    requires i < |times|
    ensures Marks(times, rate)[i] == Earned(times[i], rate)
  {
    if i < |times| - 1 { MarkAt(times[..|times| - 1], rate, i); }
  }

  /** In seconds: every window from an earlier call, or from now, has room for one more call
      within the capacity plus the rate times the window's length. */
  ghost predicate FitsSeconds(capacity: real, rate: real, times: seq<real>, d: seq<bool>, now: real)
    requires |d| == |times|
  {
    forall i :: 0 <= i <= |times| ==>
                  Count(d[i..]) as real + 1.0 <= capacity + rate * (now - Start(times, now, i))
  }

  lemma Scale(rate: real, from: real, to: real)
    ensures Earned(to, rate) - Earned(from, rate) == rate * (to - from)
  {
  }

  lemma SameWindows(capacity: real, rate: real, times: seq<real>, d: seq<bool>, now: real)
    requires |d| == |times|
    ensures FitsSeconds(capacity, rate, times, d, now) <==> Fits(capacity, Marks(times, rate), d, Earned(now, rate))
  {
    forall i | 0 <= i <= |times|
      ensures Room(capacity, Marks(times, rate), d, Earned(now, rate), i)
           == capacity + rate * (now - Start(times, now, i)) - Count(d[i..]) as real
    {
      if i < |times| { MarkAt(times, rate, i); }
      Scale(rate, Start(times, now, i), now);
    }
  }

  lemma NonNegative(a: real, b: real)
    requires a >= 0.0 && b >= 0.0
    ensures a * b >= 0.0
  {
  }

  lemma LongEnough(rate: real, gap: real)
    requires rate > 0.0 && gap >= 1.0 / rate
    ensures rate * gap >= 1.0
  {
    NonNegative(rate, gap - 1.0 / rate);
    assert rate * (1.0 / rate) == 1.0;
    assert rate * (gap - 1.0 / rate) == rate * gap - rate * (1.0 / rate);
  }

  lemma NoEarlier(rate: real, from: real, to: real)
    requires rate > 0.0 && from <= to
    ensures Earned(from, rate) <= Earned(to, rate)
  {
    Scale(rate, from, to);
    NonNegative(rate, to - from);
  }

  lemma GapEarnsAToken(rate: real, times: seq<real>, i: nat)
    requires rate > 0.0 && 0 < i < |times| && times[i] - times[i - 1] >= 1.0 / rate
    ensures |Marks(times, rate)| == |times| && Marks(times, rate)[i] - Marks(times, rate)[i - 1] >= 1.0
  {
    MarkAt(times, rate, i);
    MarkAt(times, rate, i - 1);
    LongEnough(rate, times[i] - times[i - 1]);
    Scale(rate, times[i - 1], times[i]);
  }

  /** In seconds: calls at least 1/rate apart are never refused. */
  lemma SpacedCallsPassSeconds(capacity: real, rate: real, created: real, times: seq<real>)
    requires capacity >= 1.0 && rate > 0.0 && (times != [] ==> created <= times[0])
    requires forall i :: 0 < i < |times| ==> times[i] - times[i - 1] >= 1.0 / rate
    ensures var d := Decisions(Bucket(capacity, capacity, Earned(created, rate)), Marks(times, rate));
            forall i :: 0 <= i < |times| ==> d[i]
  {
    var marks := Marks(times, rate);
    if times != [] {
      MarkAt(times, rate, 0);
      NoEarlier(rate, created, times[0]);
    }
    forall i | 0 < i < |marks| ensures marks[i] - marks[i - 1] >= 1.0 {
      GapEarnsAToken(rate, times, i);
    }
    SpacedCallsPass(Bucket(capacity, capacity, Earned(created, rate)), marks);
  }

  /** The limiter, with the instants of its calls as ghost history. */
  class Limiter {
    var tokens: real
    const capacity: real
    const rate: real
    var last: real

    ghost const created: real
    ghost const first: Bucket
    ghost var times: seq<real>
    /** What the limiter decided on each call so far. */
    ghost var past: seq<bool>

    ghost predicate Valid()
      reads this
    {
      && Fresh(first) && first.capacity == capacity && rate > 0.0
      && first.last == Earned(created, rate)
      && created <= last && (times != [] ==> created <= times[0])
      && Recorded()
    }

    /** The fields are what the run over the history leaves, and `past` what it decided. */
    ghost predicate Recorded()
      reads this
    {
      && Bucket(tokens, capacity, Earned(last, rate)) == After(first, Marks(times, rate))
      && past == Decisions(first, Marks(times, rate))
    }

    constructor (perSecond: int, now: real)
      ensures Valid() && times == [] && created == now && last == now
      ensures capacity == rate == if perSecond < 1 then 1.0 else perSecond as real
    {
      var r := if perSecond < 1 then 1.0 else perSecond as real;
      tokens, capacity, rate, last := r, r, r, now;
      first := Bucket(r, r, Earned(now, r));
      created, times, past := now, [], [];
    }

    /** Admits exactly when every window over the calls admitted so far has room for one more. */
    method Allow(now: real) returns (admitted: bool)
      requires Valid() && last <= now
      modifies this
      ensures Valid() && times == old(times) + [now] && last == now
      ensures |old(past)| == |old(times)|
      ensures admitted <==> FitsSeconds(capacity, rate, old(times), old(past), now)
      ensures past == old(past) + [admitted]
    {
      ghost var decided := NextCall(first, rate, created, times, past, tokens, last, now);
      tokens := tokens + Earned(now - last, rate);
      if tokens > capacity {
        tokens := capacity;
      }
      last := now;
      times := times + [now];
      past := past + [decided.1];
      if tokens < 1.0 { return false; }
      tokens := tokens - 1.0;
      return true;
    }
  }

  /** One call on a limiter whose history is recorded. */
  lemma NextCall(first: Bucket, rate: real, created: real, times: seq<real>, past: seq<bool>, tokens: real, last: real,
      now: real)
      returns (decided: (Bucket, bool))
    requires Fresh(first) && rate > 0.0 && first.last == Earned(created, rate)
    requires created <= last <= now && (times != [] ==> created <= times[0])
    requires Bucket(tokens, first.capacity, Earned(last, rate)) == After(first, Marks(times, rate))
    requires past == Decisions(first, Marks(times, rate))
    ensures |past| == |times|
    ensures decided.1 <==> FitsSeconds(first.capacity, rate, times, past, now)
    ensures decided.0 == After(first, Marks(times + [now], rate))
    ensures past + [decided.1] == Decisions(first, Marks(times + [now], rate))
    ensures var t := tokens + Earned(now - last, rate); var filled := if t > first.capacity then first.capacity else t;
            decided == if filled < 1.0 then (Bucket(filled, first.capacity, Earned(now, rate)), false)
                       else (Bucket(filled - 1.0, first.capacity, Earned(now, rate)), true)
    ensures created <= (times + [now])[0]
  {
    var marks := Marks(times, rate);
    decided := Decide(After(first, marks), Earned(now, rate));
    FitsInSeconds(first, rate, created, times, now);
    MarksExtend(times, rate, now);
    DecideNext(first, marks, Earned(now, rate));
    InSeconds(tokens, first.capacity, rate, last, now);
  }

  lemma InSeconds(tokens: real, capacity: real, rate: real, last: real, now: real)
    ensures Refill(Bucket(tokens, capacity, Earned(last, rate)), Earned(now, rate))
         == Bucket(if tokens + Earned(now - last, rate) > capacity then capacity else tokens + Earned(now - last, rate),
                   capacity, Earned(now, rate))
  {
    Scale(rate, last, now);
  }

  lemma MarksExtend(times: seq<real>, rate: real, now: real)
    ensures Marks(times + [now], rate) == Marks(times, rate) + [Earned(now, rate)]
  {
    assert (times + [now])[..|times|] == times;
  }

  lemma DecideNext(b: Bucket, marks: seq<real>, mark: real)
    ensures After(b, marks + [mark]) == Decide(After(b, marks), mark).0
    ensures Decisions(b, marks + [mark]) == Decisions(b, marks) + [Decide(After(b, marks), mark).1]
  {
    assert (marks + [mark])[..|marks|] == marks;
    Unroll(b, marks + [mark]);
  }

  lemma FitsInSeconds(first: Bucket, rate: real, created: real, times: seq<real>, now: real)
    requires Fresh(first) && first.last == Earned(created, rate) && rate > 0.0
    requires created <= Start(times, now, 0)
    ensures Decide(After(first, Marks(times, rate)), Earned(now, rate)).1
       <==> FitsSeconds(first.capacity, rate, times, Decisions(first, Marks(times, rate)), now)
  {
    NoEarlier(rate, created, Start(times, now, 0));
    if times != [] { MarkAt(times, rate, 0); }
    AdmitsExactlyWhenItFits(first, Marks(times, rate), Earned(now, rate));
    SameWindows(first.capacity, rate, times, Decisions(first, Marks(times, rate)), now);
  }
}
