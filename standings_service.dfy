/**
  StadingsService.generateStandings: build every user's standing, ratchet highscores and sort
  the result by today's score.
*/
module StandingsService {
  import opened Clock
  import opened ScoreWindows
  import opened Standings

  /** The standing object that generateStandings fills for one user. */
  class Standing {
    var user: User
    var score: Dimension
    var steps: Dimension
    var standing: Dimension
    var outside: Dimension

    function Record(): StandingRecord
      reads this
    {
      StandingRecord(user, score, steps, standing, outside)
    }

    /** Every dimension starts at `current = lastDay = 0` with empty day lists. */
    constructor (u: User)
      ensures Record() == NewStanding(u)
      ensures score == steps == standing == outside == Dimension(0, 0, [], [])
    {
      user := u;
      score := ZeroDimension;
      steps := ZeroDimension;
      standing := ZeroDimension;
      outside := ZeroDimension;
    }

    /** addScoreToStanding (standingsService.js lines 70-86), updating this standing in place. */
    method AddScoreToStanding(e: ScoreEntry, day: Day)
      modifies this
      ensures Record() == AddScore(old(Record()), e, day)
    {
      score := score.Push(e.score, day);
      steps := steps.Push(e.steps, day);
      standing := standing.Push(e.standingMinutes, day);
      outside := outside.Push(e.outsideMinutes, day);
    }
  }

  function Key(s: StandingRecord): int {
    s.score.current
  }

  predicate SortedByScore(s: seq<StandingRecord>) {
    forall p, q :: 0 <= p < q < |s| ==> Key(s[p]) <= Key(s[q])
  }

  method Swap(a: array<StandingRecord>, i: int, j: int)
    requires 0 <= i < a.Length && 0 <= j < a.Length
    modifies a
    ensures a[i] == old(a[j]) && a[j] == old(a[i])
    ensures forall k :: 0 <= k < a.Length && k != i && k != j ==> a[k] == old(a[k])
    ensures multiset(a[..]) == old(multiset(a[..]))
  {
    a[i], a[j] := a[j], a[i];
  }

  /** `standings.sort((a, b) => a.score.current - b.score.current)`, in place (insertion sort). */
  method SortByScore(a: array<StandingRecord>)
    modifies a
    ensures SortedByScore(a[..])
    ensures multiset(a[..]) == old(multiset(a[..]))
  {
    var i := 1;
    while i < a.Length
      invariant 1 <= i || a.Length == 0
      invariant forall p, q :: 0 <= p < q < i && q < a.Length ==> Key(a[p]) <= Key(a[q])
      invariant multiset(a[..]) == old(multiset(a[..]))
    {
      var j := i;
      while j > 0 && Key(a[j - 1]) > Key(a[j])
        invariant 0 <= j <= i < a.Length
        invariant forall p, q :: 0 <= p < q <= i && p != j && q != j ==> Key(a[p]) <= Key(a[q])
        invariant forall q :: j < q <= i ==> Key(a[j]) < Key(a[q])
        invariant multiset(a[..]) == old(multiset(a[..]))
      {
        Swap(a, j - 1, j);
        j := j - 1;
      }
      i := i + 1;
    }
  }

  /** The standings of `users` in the order they are listed, before the sort. */
  function Expected(users: seq<User>, entries: seq<ScoreEntry>, now: int): (r: seq<StandingRecord>)
    ensures |r| == |users|
  {
    if users == [] then []
    else Expected(users[..|users| - 1], entries, now) + [StandingFor(users[|users| - 1], entries, now)]
  }

  /** The users whose highscore today's entries raise, in listing order: exactly those saved. */
  function RaisedUsers(users: seq<User>, entries: seq<ScoreEntry>, now: int): (r: seq<UserId>)
    ensures |r| <= |users|
  {
    if users == [] then []
    else
      var u := users[|users| - 1];
      var rest := RaisedUsers(users[..|users| - 1], entries, now);
      if Ratchet(u.highscore, TodayEntries(entries, u.id, now)).1 then rest + [u.id] else rest
  }

  lemma ExpectedStep(users: seq<User>, entries: seq<ScoreEntry>, now: int, k: nat)
    requires k < |users|
    ensures Expected(users[..k + 1], entries, now) == Expected(users[..k], entries, now) + [StandingFor(users[k], entries, now)]
  {
    assert users[..k + 1][..k] == users[..k];
  }

  lemma RaisedStep(users: seq<User>, entries: seq<ScoreEntry>, now: int, k: nat)
    requires k < |users|
    ensures var u := users[k];
      RaisedUsers(users[..k + 1], entries, now) ==
        RaisedUsers(users[..k], entries, now) + (if Ratchet(u.highscore, TodayEntries(entries, u.id, now)).1 then [u.id] else [])
  {
    assert users[..k + 1][..k] == users[..k];
  }

  lemma RatchetedStep(users: seq<User>, entries: seq<ScoreEntry>, now: int, k: nat)
    requires k < |users|
    ensures RatchetedUsers(users[..k + 1], entries, now) == RatchetedUsers(users[..k], entries, now) + [Ratcheted(users[k], entries, now)]
  {
    assert users[..k + 1][..k] == users[..k];
  }

  /** Saving a user only when the ratchet raised its highscore leaves it ratcheted either way. */
  lemma SavedOnlyWhenRaised(u: User, entries: seq<ScoreEntry>, now: int, highscore: int, changed: bool)
    requires (highscore, changed) == Ratchet(u.highscore, TodayEntries(entries, u.id, now))
    ensures Ratcheted(u, entries, now) == if changed then u.(highscore := highscore) else u
  {
  }

  /** One turn of generateStandings' user loop extends the pushed standings, the users and the save log by one user. */
  lemma LoopStep(all: seq<User>, entries: seq<ScoreEntry>, now: int, k: nat, record: StandingRecord, highscore: int, changed: bool)
    requires k < |all|
    requires record == StandingFor(all[k], entries, now)
    requires (highscore, changed) == Ratchet(all[k].highscore, TodayEntries(entries, all[k].id, now))
    ensures Expected(all[..k + 1], entries, now) == Expected(all[..k], entries, now) + [record]
    ensures RatchetedUsers(all[..k + 1], entries, now) ==
      RatchetedUsers(all[..k], entries, now) + [if changed then all[k].(highscore := highscore) else all[k]]
    ensures RaisedUsers(all[..k + 1], entries, now) == RaisedUsers(all[..k], entries, now) + (if changed then [all[k].id] else [])
  {
    ExpectedStep(all, entries, now, k);
    RaisedStep(all, entries, now, k);
    RatchetedStep(all, entries, now, k);
    SavedOnlyWhenRaised(all[k], entries, now, highscore, changed);
  }

  /** `u` with its ratcheted highscore. */
  function Ratcheted(u: User, entries: seq<ScoreEntry>, now: int): User {
    u.(highscore := Ratchet(u.highscore, TodayEntries(entries, u.id, now)).0)
  }

  /** The user collection after every highscore is ratcheted. */
  function RatchetedUsers(users: seq<User>, entries: seq<ScoreEntry>, now: int): (r: seq<User>)
    ensures |r| == |users|
  {
    if users == [] then []
    else RatchetedUsers(users[..|users| - 1], entries, now) + [Ratcheted(users[|users| - 1], entries, now)]
  }

  /** The `i`-th expected standing is the standing of the `i`-th user. */
  lemma {:induction false} ExpectedAt(users: seq<User>, entries: seq<ScoreEntry>, now: int, i: nat)
    requires i < |users|
    ensures Expected(users, entries, now)[i] == StandingFor(users[i], entries, now)
  {
    if i < |users| - 1 {
      ExpectedAt(users[..|users| - 1], entries, now, i);
    }
  }

  /**
    After the ratchet every user keeps its id and position, and its highscore never decreases:
    it is the largest of the old highscore and the user's scores of today.
  */
  lemma {:induction false} RatchetedUsersAt(users: seq<User>, entries: seq<ScoreEntry>, now: int, i: nat)
    requires i < |users|
    ensures var r := RatchetedUsers(users, entries, now)[i];
      r.id == users[i].id && r.highscore >= users[i].highscore &&
      r.highscore == MaxOf(users[i].highscore, Readings(TodayEntries(entries, users[i].id, now), Score))
  {
    if i < |users| - 1 {
      RatchetedUsersAt(users[..|users| - 1], entries, now, i);
    } else {
      RatchetIsMaxOf(users[i].highscore, TodayEntries(entries, users[i].id, now));
    }
  }

  /** A user is saved exactly when one of today's scores exceeds its old highscore. */
  lemma {:induction false} RaisedUsersSpec(users: seq<User>, entries: seq<ScoreEntry>, now: int, id: UserId)
    ensures id in RaisedUsers(users, entries, now) <==>
      exists i :: 0 <= i < |users| && users[i].id == id && Raised(users[i], entries, now)
  {
    if users != [] {
      var n := |users| - 1;
      RaisedUsersSpec(users[..n], entries, now, id);
      RatchetRaisedIff(users[n], entries, now);
      if id in RaisedUsers(users, entries, now) && id !in RaisedUsers(users[..n], entries, now) {
        assert users[n].id == id && Raised(users[n], entries, now);
      }
      if exists i :: 0 <= i < |users| && users[i].id == id && Raised(users[i], entries, now) {
        var i :| 0 <= i < |users| && users[i].id == id && Raised(users[i], entries, now);
        if i < n {
          assert users[..n][i] == users[i];
        }
      }
    }
  }

  /** The saved ids are a filter of the users in listing order: concatenation maps to concatenation. */
  lemma {:induction false} RaisedUsersAppend(a: seq<User>, b: seq<User>, entries: seq<ScoreEntry>, now: int)
    ensures RaisedUsers(a + b, entries, now) == RaisedUsers(a, entries, now) + RaisedUsers(b, entries, now)
  {
    if b != [] {
      var n := |b| - 1;
      RaisedUsersAppend(a, b[..n], entries, now);
      assert (a + b)[..|a + b| - 1] == a + b[..n];
      assert (a + b)[|a + b| - 1] == b[n];
    } else {
      assert a + b == a;
    }
  }

  /** A single user is saved, once, exactly when one of today's scores beats its highscore. */
  lemma RaisedUsersSingle(u: User, entries: seq<ScoreEntry>, now: int)
    ensures RaisedUsers([u], entries, now) == if Raised(u, entries, now) then [u.id] else []
  {
    assert [u][..0] == [];
    RatchetRaisedIff(u, entries, now);
  }

  /** Some score of today is above the user's highscore. */
  predicate Raised(u: User, entries: seq<ScoreEntry>, now: int) {
    exists j :: 0 <= j < |TodayEntries(entries, u.id, now)| && TodayEntries(entries, u.id, now)[j].score > u.highscore
  }

  /** The ratchet reports a change exactly when some score of today beats the highscore. */
  lemma RatchetRaisedIff(u: User, entries: seq<ScoreEntry>, now: int)
    ensures Ratchet(u.highscore, TodayEntries(entries, u.id, now)).1 <==> Raised(u, entries, now)
  {
    var es := TodayEntries(entries, u.id, now);
    var vs := Readings(es, Score);
    RatchetIsMaxOf(u.highscore, es);
    if Ratchet(u.highscore, es).1 {
      var j :| 0 <= j < |vs| && MaxOf(u.highscore, vs) == vs[j];
      assert es[j].score > u.highscore;
    }
    if Raised(u, entries, now) {
      var j :| 0 <= j < |es| && es[j].score > u.highscore;
      assert vs[j] <= MaxOf(u.highscore, vs);
    }
  }

  /**
    The body of generateStandings' loop for one user (lines 11-56): fold today's entries while
    ratcheting the highscore, then yesterday's entries; the standing shows the user with the
    ratcheted highscore, because it holds the user object itself.
  */
  method BuildStanding(user: User, entries: seq<ScoreEntry>, now: int)
    returns (record: StandingRecord, highscore: int, userHighscoreChanged: bool)
    ensures record == StandingFor(user, entries, now)
    ensures (highscore, userHighscoreChanged) == Ratchet(user.highscore, TodayEntries(entries, user.id, now))
  {
    var standing := new Standing(user);
    var todayBegin := UtcDayBegin(now);
    var todayEnd := UtcDayEnd(now);
    var scoresToday := Query(entries, user.id, todayBegin, todayEnd);

    highscore := user.highscore;
    userHighscoreChanged := false;
    var i := 0;
    while i < |scoresToday|
      invariant 0 <= i <= |scoresToday|
      invariant standing.Record() == FoldEntries(NewStanding(user), scoresToday[..i], Today)
      invariant (highscore, userHighscoreChanged) == Ratchet(user.highscore, scoresToday[..i])
    {
      FoldEntriesStep(NewStanding(user), scoresToday, i, Today);
      RatchetStep(user.highscore, scoresToday, i);
      standing.AddScoreToStanding(scoresToday[i], Today);
      if scoresToday[i].score > highscore {
        highscore := scoresToday[i].score;
        userHighscoreChanged := true;
      }
      i := i + 1;
    }
    assert scoresToday[..i] == scoresToday;
    ghost var afterToday := standing.Record();

    var yesterdayBegin := todayBegin - DayMs;
    var scoresYesterday := Query(entries, user.id, yesterdayBegin, todayBegin);
    i := 0;
    while i < |scoresYesterday|
      invariant 0 <= i <= |scoresYesterday|
      invariant standing.Record() == FoldEntries(afterToday, scoresYesterday[..i], Yesterday)
    {
      FoldEntriesStep(afterToday, scoresYesterday, i, Yesterday);
      standing.AddScoreToStanding(scoresYesterday[i], Yesterday);
      i := i + 1;
    }
    assert scoresYesterday[..i] == scoresYesterday;

    // The standing holds the user object itself, so it shows the ratcheted highscore.
    standing.user := user.(highscore := highscore);
    record := standing.Record();
  }

  /**
    The user loop of generateStandings (lines 10-63): one standing pushed per user in listing
    order, each user's highscore ratcheted, and the ids of the users whose highscore rose, in
    the order they are saved.
  */
  method BuildAll(all: seq<User>, entries: seq<ScoreEntry>, now: int)
    returns (pushed: seq<StandingRecord>, updated: seq<User>, raised: seq<UserId>)
    ensures pushed == Expected(all, entries, now)
    ensures updated == RatchetedUsers(all, entries, now)
    ensures raised == RaisedUsers(all, entries, now)
  {
    pushed, updated, raised := [], [], [];
    var k := 0;
    while k < |all|
      invariant 0 <= k <= |all|
      invariant pushed == Expected(all[..k], entries, now)
      invariant updated == RatchetedUsers(all[..k], entries, now)
      invariant raised == RaisedUsers(all[..k], entries, now)
    {
      var user := all[k];
      var record, highscore, userHighscoreChanged := BuildStanding(user, entries, now);
      LoopStep(all, entries, now, k, record, highscore, userHighscoreChanged);
      pushed := pushed + [record];
      if userHighscoreChanged {
        user := user.(highscore := highscore);
        raised := raised + [user.id];
      }
      updated := updated + [user];
      k := k + 1;
    }
    assert all[..k] == all;
  }

  /** The user collection and the log of `user.save()` calls. */
  class StandingsService {
    var users: seq<User>
    var saved: seq<UserId>

    constructor (users: seq<User>)
      ensures this.users == users && saved == []
    {
      this.users := users;
      saved := [];
    }

    /**
      generateStandings (standingsService.js lines 6-68) at time `now` over the score-entry
      store `entries`: one standing per user, sorted ascending by `score.current`; each
      user's highscore is ratcheted and saved only when it rose.
    */
    method GenerateStandings(entries: seq<ScoreEntry>, now: int) returns (standings: seq<StandingRecord>)
      modifies this
      ensures |standings| == |old(users)|
      ensures multiset(standings) == multiset(Expected(old(users), entries, now))
      ensures SortedByScore(standings)
      ensures users == RatchetedUsers(old(users), entries, now)
      ensures saved == old(saved) + RaisedUsers(old(users), entries, now)
    {
      var pushed, updated, raised := BuildAll(users, entries, now);
      users, saved := updated, saved + raised;
      var result := new StandingRecord[|pushed|](i requires 0 <= i < |pushed| => pushed[i]);
      assert result[..] == pushed;
      SortByScore(result);
      standings := result[..];
    }
  }

  /**
    The ratchet as line 40 reads it: `score.score.current` looks up `current` on a number,
    which is `undefined`, and `undefined > highscore` is false.
  */
  datatype JsValue = Undefined | Number(n: int)

  /** A JavaScript number carries no property named `current`. */
  function PropertyOfNumber(n: int, key: string): JsValue {
    Undefined
  }

  /** `a > b` in JavaScript: `undefined` converts to NaN, and every comparison with NaN is false. */
  predicate GreaterThan(a: JsValue, b: int) {
    a.Number? && a.n > b
  }

  /** Line 40 as written: the highscore still never decreases, and the flag is set only on a raise. */
  function RatchetAsWritten(highscore: int, es: seq<ScoreEntry>): (r: (int, bool))
    ensures r.0 >= highscore
    ensures r.1 ==> r.0 > highscore
  {
    if es == [] then (highscore, false)
    else
      var (high, changed) := RatchetAsWritten(highscore, es[..|es| - 1]);
      var s := es[|es| - 1];
      // Line 41 would assign `score.score.current`, which is also undefined; the guard is never
      // true, so this branch is dead and keeps `high`.
      if GreaterThan(PropertyOfNumber(s.score, "current"), high) then (high, true) else (high, changed)
  }

  /** As written, the highscore is never raised and the user is never saved. */
  lemma {:induction false} RatchetAsWrittenNeverFires(highscore: int, es: seq<ScoreEntry>)
    ensures RatchetAsWritten(highscore, es) == (highscore, false)
  {
    if es != [] {
      RatchetAsWrittenNeverFires(highscore, es[..|es| - 1]);
    }
  }

  /** A user at highscore 0 with a score-10 entry today keeps 0 as written; the ratchet gives 10. */
  lemma RatchetAsWrittenMissesRaise()
    ensures var es := [ScoreEntry(1, 0, 3_600_000, 10, 20, 0, 0, 0)];
      RatchetAsWritten(0, es) == (0, false) && Ratchet(0, es) == (10, true)
  {
    var es := [ScoreEntry(1, 0, 3_600_000, 10, 20, 0, 0, 0)];
    RatchetAsWrittenNeverFires(0, es);
    assert es[..0] == [];
  }
}
