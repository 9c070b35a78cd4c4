/**
  The score-entry store and the hour windows of eventHandleService.js.

  A score entry accumulates one user's activity over one window `[start, end]`. Minutes are
  kept in hundredths of a minute (the source rounds them to two decimals), so every counter
  is an integer.
*/
module ScoreWindows {
  import opened Wrappers
  import opened Clock

  type UserId = nat

  datatype ScoreEntry = ScoreEntry(
    user: UserId,
    start: int,            // ms
    end: int,              // ms
    score: int,
    steps: int,
    standingMinutes: int,  // hundredths of a minute
    outsideMinutes: int,   // hundredths of a minute
    lastUpdate: int)       // ms

  /** The store query `{user: u, start: {$lte: lo}, end: {$gte: hi}}`. */
  predicate Matches(e: ScoreEntry, u: UserId, lo: int, hi: int) {
    e.user == u && e.start <= lo && e.end >= hi
  }

  /** `findOne` of that query: the first matching entry in store order, if any. */
  function FindOne(entries: seq<ScoreEntry>, u: UserId, lo: int, hi: int): (r: Option<nat>)
    ensures r.Some? ==> r.value < |entries| && Matches(entries[r.value], u, lo, hi)
    ensures r.Some? ==> forall j :: 0 <= j < r.value ==> !Matches(entries[j], u, lo, hi)
    ensures r.None? <==> forall j :: 0 <= j < |entries| ==> !Matches(entries[j], u, lo, hi)
  {
    if entries == [] then None
    else if Matches(entries[0], u, lo, hi) then Some(0)
    else
      match FindOne(entries[1..], u, lo, hi)
      case None => None
      case Some(i) => Some(i + 1)
  }

  /** The window in force at `now`: an entry of `u` with `start <= now <= end`. */
  function FindCurrent(entries: seq<ScoreEntry>, u: UserId, now: int): Option<nat> {
    FindOne(entries, u, now, now)
  }

  /**
    The entry whose counters a new window inherits: from local hour 1 on, the first entry of
    `u` spanning from the previous hour's start to this hour's start; never at hour 0.
  */
  function CarrySource(entries: seq<ScoreEntry>, u: UserId, now: int, offset: int): (r: Option<nat>)
    ensures r.Some? ==> LocalHour(now, offset) > 0 && r.value < |entries|
    ensures r.Some? ==> Matches(entries[r.value], u, HourBegin(now, offset) - HourMs, HourBegin(now, offset))
    ensures r.Some? ==> forall j :: 0 <= j < r.value ==>
      !Matches(entries[j], u, HourBegin(now, offset) - HourMs, HourBegin(now, offset))
    ensures r.None? <==> (LocalHour(now, offset) == 0 ||
      forall j :: 0 <= j < |entries| ==> !Matches(entries[j], u, HourBegin(now, offset) - HourMs, HourBegin(now, offset)))
  {
    var prevHour := LocalHour(now, offset) - 1;
    if prevHour >= 0 then FindOne(entries, u, PrevHourBegin(now, offset), HourBegin(now, offset))
    else None
  }

  /**
    The entry created when no window holds `now` (eventHandleService.js lines 62-103): it
    starts at the current local hour, ends as `WindowEnd` says, and carries the counters and
    `lastUpdate` of `CarrySource` forward, or starts from zero with `lastUpdate = now`.
  */
  function NewWindow(entries: seq<ScoreEntry>, u: UserId, now: int, offset: int): (r: ScoreEntry)
    ensures r.user == u
    ensures r.start <= now < r.start + HourMs && (r.start + offset) % HourMs == 0
    ensures LocalHour(now, offset) < 23 ==> r.end == r.start + HourMs
    ensures LocalHour(now, offset) == 23 ==> r.end == r.start - 23 * HourMs
    ensures CarrySource(entries, u, now, offset).Some? ==>
      var p := entries[CarrySource(entries, u, now, offset).value];
      r.score == p.score && r.steps == p.steps && r.standingMinutes == p.standingMinutes &&
      r.outsideMinutes == p.outsideMinutes && r.lastUpdate == p.lastUpdate
    ensures CarrySource(entries, u, now, offset).None? ==>
      r.score == 0 && r.steps == 0 && r.standingMinutes == 0 && r.outsideMinutes == 0 && r.lastUpdate == now
  {
    var begin := HourBegin(now, offset);
    var end := WindowEnd(now, offset);
    match CarrySource(entries, u, now, offset)
    case Some(i) =>
      var p := entries[i];
      ScoreEntry(u, begin, end, p.score, p.steps, p.standingMinutes, p.outsideMinutes, p.lastUpdate)
    case None =>
      ScoreEntry(u, begin, end, 0, 0, 0, 0, now)
  }

  /** A window created at local hour 23 ends before it starts, so no time ever lies in it. */
  lemma HourTwentyThreeWindowHoldsNoTime(entries: seq<ScoreEntry>, u: UserId, now: int, offset: int, t: int)
    requires LocalHour(now, offset) == 23
    ensures !Matches(NewWindow(entries, u, now, offset), u, t, t)
  {
  }

  /** Every window created before hour 23 holds the event time it was created for. */
  lemma NewWindowHoldsNow(entries: seq<ScoreEntry>, u: UserId, now: int, offset: int)
    requires LocalHour(now, offset) < 23
    ensures Matches(NewWindow(entries, u, now, offset), u, now, now)
  {
  }
}
