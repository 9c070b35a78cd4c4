/**
  The standing of one user as StadingsService builds it: four dimensions (score, steps,
  standing minutes, outside minutes), each with today's and yesterday's running maximum and
  the list of values seen per day.
*/
module Standings {
  import opened Clock
  import opened ScoreWindows

  datatype Day = Today | Yesterday

  /** `{current, lastDay, hourly: {today, yesterday}}`. */
  datatype Dimension = Dimension(current: int, lastDay: int, today: seq<int>, yesterday: seq<int>) {
    /** One step of `addScoreToStanding` on this dimension: raise the day's maximum, append. */
    function Push(v: int, day: Day): (r: Dimension)
      ensures day == Today ==>
        r.today == today + [v] && r.current >= current && r.current >= v && (r.current == current || r.current == v) &&
        r.lastDay == lastDay && r.yesterday == yesterday
      ensures day == Yesterday ==>
        r.yesterday == yesterday + [v] && r.lastDay >= lastDay && r.lastDay >= v && (r.lastDay == lastDay || r.lastDay == v) &&
        r.current == current && r.today == today
    {
      if day == Today then this.(current := Max(current, v), today := today + [v])
      else this.(lastDay := Max(lastDay, v), yesterday := yesterday + [v])
    }
  }

  /** The `scoreDetail` template every dimension starts from. */
  const ZeroDimension := Dimension(0, 0, [], [])

  datatype Measure = Score | Steps | StandingMinutes | OutsideMinutes

  /** The value of one entry that feeds a dimension. */
  function Reading(e: ScoreEntry, m: Measure): int {
    match m
    case Score => e.score
    case Steps => e.steps
    case StandingMinutes => e.standingMinutes
    case OutsideMinutes => e.outsideMinutes
  }

  function Readings(es: seq<ScoreEntry>, m: Measure): (r: seq<int>)
    ensures |r| == |es| && forall i :: 0 <= i < |es| ==> r[i] == Reading(es[i], m)
  {
    if es == [] then [] else Readings(es[..|es| - 1], m) + [Reading(es[|es| - 1], m)]
  }

  datatype User = User(id: UserId, highscore: int)

  datatype StandingRecord = StandingRecord(user: User, score: Dimension, steps: Dimension, standing: Dimension, outside: Dimension) {
    function Get(m: Measure): Dimension {
      match m
      case Score => score
      case Steps => steps
      case StandingMinutes => standing
      case OutsideMinutes => outside
    }
  }

  /** A fresh standing: four independent copies of the zero template. */
  function NewStanding(u: User): StandingRecord {
    StandingRecord(u, ZeroDimension, ZeroDimension, ZeroDimension, ZeroDimension)
  }

  function Max(a: int, b: int): int {
    if a >= b then a else b
  }

  /** The largest of `c` and the values `vs`. */
  function MaxOf(c: int, vs: seq<int>): (r: int)
    ensures r >= c && forall i :: 0 <= i < |vs| ==> vs[i] <= r
    ensures r == c || exists i :: 0 <= i < |vs| && r == vs[i]
  {
    if vs == [] then c else Max(MaxOf(c, vs[..|vs| - 1]), vs[|vs| - 1])
  }

  /** addScoreToStanding (standingsService.js lines 70-86) on a standing value. */
  function AddScore(st: StandingRecord, e: ScoreEntry, day: Day): (r: StandingRecord)
    ensures r.user == st.user
    ensures forall m :: r.Get(m) == st.Get(m).Push(Reading(e, m), day)
  {
    st.(score := st.score.Push(e.score, day),
        steps := st.steps.Push(e.steps, day),
        standing := st.standing.Push(e.standingMinutes, day),
        outside := st.outside.Push(e.outsideMinutes, day))
  }

  /** One `addScoreToStanding` call per entry, in order. */
  function FoldEntries(st: StandingRecord, es: seq<ScoreEntry>, day: Day): StandingRecord {
    if es == [] then st else AddScore(FoldEntries(st, es[..|es| - 1], day), es[|es| - 1], day)
  }

  lemma FoldEntriesStep(st: StandingRecord, es: seq<ScoreEntry>, i: nat, day: Day)
    requires i < |es|
    ensures FoldEntries(st, es[..i + 1], day) == AddScore(FoldEntries(st, es[..i], day), es[i], day)
  {
    assert es[..i + 1][..i] == es[..i];
  }

  /** The same fold on one dimension. */
  function FoldDim(d: Dimension, vs: seq<int>, day: Day): Dimension {
    if vs == [] then d else FoldDim(d, vs[..|vs| - 1], day).Push(vs[|vs| - 1], day)
  }

  /**
    One `addScoreToStanding` call appends exactly one value to each selected-day list, never
    lowers that day's maximum, and leaves the other day alone.
  */
  lemma AddScoreEffect(st: StandingRecord, e: ScoreEntry, day: Day, m: Measure)
    ensures var d, d' := st.Get(m), AddScore(st, e, day).Get(m);
      AddScore(st, e, day).user == st.user &&
      (day == Today ==>
        d'.today == d.today + [Reading(e, m)] && d'.current >= d.current && d'.current >= Reading(e, m) &&
        d'.lastDay == d.lastDay && d'.yesterday == d.yesterday) &&
      (day == Yesterday ==>
        d'.yesterday == d.yesterday + [Reading(e, m)] && d'.lastDay >= d.lastDay && d'.lastDay >= Reading(e, m) &&
        d'.current == d.current && d'.today == d.today)
  {
    match m
    case Score =>
    case Steps =>
    case StandingMinutes =>
    case OutsideMinutes =>
  }

  /** Folding a whole standing folds each dimension over that dimension's readings. */
  lemma {:induction false} FoldEntriesPerDimension(st: StandingRecord, es: seq<ScoreEntry>, day: Day, m: Measure)
    ensures FoldEntries(st, es, day).Get(m) == FoldDim(st.Get(m), Readings(es, m), day)
    ensures FoldEntries(st, es, day).user == st.user
  {
    if es != [] {
      var init := es[..|es| - 1];
      FoldEntriesPerDimension(st, init, day, m);
      assert Readings(es, m)[..|es| - 1] == Readings(init, m);
      AddScoreEffect(FoldEntries(st, init, day), es[|es| - 1], day, m);
      match m
      case Score =>
      case Steps =>
      case StandingMinutes =>
      case OutsideMinutes =>
    }
  }

  /**
    Folding values into a dimension for one day sets that day's maximum to the largest of the
    old maximum and the values, appends the values in order, and leaves the other day alone.
  */
  lemma {:induction false} FoldDimEffect(d: Dimension, vs: seq<int>, day: Day)
    ensures day == Today ==> FoldDim(d, vs, day) == d.(current := MaxOf(d.current, vs), today := d.today + vs)
    ensures day == Yesterday ==> FoldDim(d, vs, day) == d.(lastDay := MaxOf(d.lastDay, vs), yesterday := d.yesterday + vs)
  {
    if vs != [] {
      var init := vs[..|vs| - 1];
      FoldDimEffect(d, init, day);
      assert init + [vs[|vs| - 1]] == vs;
      if day == Today {
        assert d.today + init + [vs[|vs| - 1]] == d.today + vs;
      } else {
        assert d.yesterday + init + [vs[|vs| - 1]] == d.yesterday + vs;
      }
    }
  }

  /** `find({user, start: {$gte: lo}, end: {$lte: hi}})`: the user's entries inside `[lo, hi]`, in store order. */
  predicate Within(e: ScoreEntry, u: UserId, lo: int, hi: int) {
    e.user == u && e.start >= lo && e.end <= hi
  }

  function Query(entries: seq<ScoreEntry>, u: UserId, lo: int, hi: int): (r: seq<ScoreEntry>)
    ensures |r| <= |entries|
    ensures forall e :: e in r <==> e in entries && Within(e, u, lo, hi)
  {
    if entries == [] then []
    else
      var rest := Query(entries[..|entries| - 1], u, lo, hi);
      var last := entries[|entries| - 1];
      assert entries == entries[..|entries| - 1] + [last];
      if Within(last, u, lo, hi) then rest + [last] else rest
  }

  /** The query is a filter: it maps concatenation of stores to concatenation of results. */
  lemma {:induction false} QueryAppend(a: seq<ScoreEntry>, b: seq<ScoreEntry>, u: UserId, lo: int, hi: int)
    ensures Query(a + b, u, lo, hi) == Query(a, u, lo, hi) + Query(b, u, lo, hi)
  {
    if b != [] {
      var n := |b| - 1;
      QueryAppend(a, b[..n], u, lo, hi);
      assert (a + b)[..|a + b| - 1] == a + b[..n];
      assert (a + b)[|a + b| - 1] == b[n];
    } else {
      assert a + b == a;
    }
  }

  /** On a single entry the query keeps it exactly when it lies inside the bounds. */
  lemma QuerySingle(e: ScoreEntry, u: UserId, lo: int, hi: int)
    ensures Query([e], u, lo, hi) == if Within(e, u, lo, hi) then [e] else []
  {
    assert [e][..0] == [];
  }

  /** Today's entries (lines 28-35): start at or after today's UTC midnight, end by 23:59:59.999. */
  function TodayEntries(entries: seq<ScoreEntry>, u: UserId, now: int): (r: seq<ScoreEntry>)
    ensures forall e :: e in r <==>
      e in entries && e.user == u && UtcDayBegin(now) <= e.start && e.end <= UtcDayBegin(now) + DayMs - 1
  {
    Query(entries, u, UtcDayBegin(now), UtcDayEnd(now))
  }

  /** Yesterday's entries (lines 46-52): start at or after yesterday's midnight, end by today's midnight. */
  function YesterdayEntries(entries: seq<ScoreEntry>, u: UserId, now: int): (r: seq<ScoreEntry>)
    ensures forall e :: e in r <==>
      e in entries && e.user == u && UtcDayBegin(now) - DayMs <= e.start && e.end <= UtcDayBegin(now)
  {
    Query(entries, u, UtcDayBegin(now) - DayMs, UtcDayBegin(now))
  }

  /**
    The highscore ratchet of lines 37-44, read as comparing each of today's scores with the
    highscore: the running highscore and whether it was ever raised.
  */
  function Ratchet(highscore: int, es: seq<ScoreEntry>): (r: (int, bool))
    ensures r.0 >= highscore
    ensures r.1 <==> r.0 > highscore
  {
    if es == [] then (highscore, false)
    else
      var (high, changed) := Ratchet(highscore, es[..|es| - 1]);
      var s := es[|es| - 1].score;
      if s > high then (s, true) else (high, changed)
  }

  lemma RatchetStep(highscore: int, es: seq<ScoreEntry>, i: nat)
    requires i < |es|
    ensures var (high, changed) := Ratchet(highscore, es[..i]);
      Ratchet(highscore, es[..i + 1]) == if es[i].score > high then (es[i].score, true) else (high, changed)
  {
    assert es[..i + 1][..i] == es[..i];
  }

  /** The ratcheted highscore is the largest of the old highscore and today's scores. */
  lemma {:induction false} RatchetIsMaxOf(highscore: int, es: seq<ScoreEntry>)
    ensures Ratchet(highscore, es).0 == MaxOf(highscore, Readings(es, Score))
  {
    if es != [] {
      var init := es[..|es| - 1];
      RatchetIsMaxOf(highscore, init);
      assert Readings(es, Score)[..|es| - 1] == Readings(init, Score);
    }
  }

  /** The standing generateStandings pushes for user `u` (lines 11-58). */
  function StandingFor(u: User, entries: seq<ScoreEntry>, now: int): (r: StandingRecord)
    ensures r.user.id == u.id && r.user.highscore >= u.highscore
  {
    var today := TodayEntries(entries, u.id, now);
    var st := FoldEntries(FoldEntries(NewStanding(u), today, Today), YesterdayEntries(entries, u.id, now), Yesterday);
    st.(user := u.(highscore := Ratchet(u.highscore, today).0))
  }

  /**
    Each dimension of a user's standing lists today's and yesterday's readings in store order;
    `current` is the largest of 0 and today's readings and bounds every one of them, `lastDay`
    the same for yesterday; the highscore never decreases and covers every score of today.
  */
  lemma StandingForSpec(u: User, entries: seq<ScoreEntry>, now: int, m: Measure)
    ensures var r := StandingFor(u, entries, now);
      var d := r.Get(m);
      d.today == Readings(TodayEntries(entries, u.id, now), m) &&
      d.current == MaxOf(0, d.today) &&
      (forall i :: 0 <= i < |d.today| ==> d.today[i] <= d.current) &&
      d.yesterday == Readings(YesterdayEntries(entries, u.id, now), m) &&
      d.lastDay == MaxOf(0, d.yesterday) &&
      (forall i :: 0 <= i < |d.yesterday| ==> d.yesterday[i] <= d.lastDay) &&
      r.user.id == u.id && r.user.highscore >= u.highscore &&
      r.user.highscore == MaxOf(u.highscore, Readings(TodayEntries(entries, u.id, now), Score))
  {
    var today := TodayEntries(entries, u.id, now);
    var yesterday := YesterdayEntries(entries, u.id, now);
    var st1 := FoldEntries(NewStanding(u), today, Today);
    RatchetIsMaxOf(u.highscore, today);
    FoldEntriesPerDimension(NewStanding(u), today, Today, m);
    FoldDimEffect(ZeroDimension, Readings(today, m), Today);
    FoldEntriesPerDimension(st1, yesterday, Yesterday, m);
    FoldDimEffect(st1.Get(m), Readings(yesterday, m), Yesterday);
    match m
    case Score =>
    case Steps =>
    case StandingMinutes =>
    case OutsideMinutes =>
  }

  /** With a non-negative highscore, the new highscore is the larger of it and today's `score.current`. */
  lemma HighscoreTracksCurrent(u: User, entries: seq<ScoreEntry>, now: int)
    requires u.highscore >= 0
    ensures var r := StandingFor(u, entries, now);
      r.user.highscore == Max(u.highscore, r.score.current)
  {
    StandingForSpec(u, entries, now, Score);
    MaxOfFromZero(u.highscore, Readings(TodayEntries(entries, u.id, now), Score));
  }

  lemma {:induction false} MaxOfFromZero(c: int, vs: seq<int>)
    requires c >= 0
    ensures MaxOf(c, vs) == Max(c, MaxOf(0, vs))
  {
    if vs != [] {
      MaxOfFromZero(c, vs[..|vs| - 1]);
    }
  }
}
