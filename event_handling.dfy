/**
  EventHandleService.handleEvent: one telemetry event from a board becomes an update of its
  owner's score entry for the current hour.
*/
module EventHandling {
  import opened Wrappers
  import opened Clock
  import opened ScoreWindows

  type DeviceId = nat

  /** The payload `{boardID, standing, stepsSinceLastUpdate, outside}`. */
  datatype Event = Event(boardId: string, standing: bool, stepsSinceLastUpdate: int, outside: bool)

  /** A bus message as `JSON.parse` sees it: text that does not parse, or a parsed event. */
  datatype Message = NotJson(text: string) | Json(event: Event)

  /** The device collection (`uuid` → `_id`) and the device reference held by users. */
  datatype Directory = Directory(deviceByBoard: map<string, DeviceId>, ownerByDevice: map<DeviceId, UserId>)

  /** Why an event was dropped; each reason matches one early `return {}`. */
  datatype Discard = Unparseable | UnknownBoard(boardId: string) | NoOwner(device: DeviceId)

  datatype Resolution = Resolved(user: UserId, event: Event) | Discarded(reason: Discard)

  /** What `handleEvent` answers: always the empty object `{}`. */
  datatype Reply = EmptyObject

  /** `isJson`: whether `JSON.parse` accepts the message. */
  predicate IsJson(m: Message) {
    m.Json?
  }

  /** Parse, then board id → device → owning user; the first miss discards the event. */
  function Resolve(dir: Directory, m: Message): (r: Resolution)
    ensures r.Discarded? <==>
      (!IsJson(m) || m.event.boardId !in dir.deviceByBoard ||
       dir.deviceByBoard[m.event.boardId] !in dir.ownerByDevice)
    ensures r.Resolved? ==>
      r.event == m.event && r.user == dir.ownerByDevice[dir.deviceByBoard[m.event.boardId]]
  {
    if !IsJson(m) then Discarded(Unparseable)
    else if m.event.boardId !in dir.deviceByBoard then Discarded(UnknownBoard(m.event.boardId))
    else
      var device := dir.deviceByBoard[m.event.boardId];
      if device !in dir.ownerByDevice then Discarded(NoOwner(device))
      else Resolved(dir.ownerByDevice[device], m.event)
  }

  /** A message `JSON.parse` rejects is discarded before any lookup and leaves the store as it was. */
  lemma NotJsonLeavesStoreUnchanged(entries: seq<ScoreEntry>, dir: Directory, m: Message, now: int, offset: int)
    requires !IsJson(m)
    ensures Resolve(dir, m) == Discarded(Unparseable)
    ensures NextEntries(entries, dir, m, now, offset) == entries
  {
  }

  /**
    `Number(x).toFixed(2)` for `x` given in milliseconds-of-a-minute units: the nearest
    hundredth of a minute (600 ms), halves rounded away from zero.
  */
  function MsToHundredths(ms: int): (r: int)
    ensures ms >= 0 ==> 600 * r - 300 <= ms < 600 * r + 300
    ensures ms < 0 ==> 600 * r - 300 < ms <= 600 * r + 300
  {
    if ms >= 0 then (ms + 300) / 600 else -((-ms + 300) / 600)
  }

  /** `Math.ceil(steps * 0.5 + standingMinutes + outsideMinutes)`, minutes in hundredths. */
  function Score(steps: int, standingMinutes: int, outsideMinutes: int): (r: int)
    ensures 100 * r - 100 < 50 * steps + standingMinutes + outsideMinutes <= 100 * r
  {
    var hundredths := 50 * steps + standingMinutes + outsideMinutes;
    -((-hundredths) / 100)
  }

  /**
    The counter update of lines 108-125: elapsed minutes since `lastUpdate` are added to the
    standing and/or outside counters (rounded to hundredths, no cap), steps are added, and the
    score is recomputed from the new counters.
  */
  function ApplyEvent(e: ScoreEntry, ev: Event, now: int): (r: ScoreEntry)
    ensures r.user == e.user && r.start == e.start && r.end == e.end
    ensures r.steps == e.steps + ev.stepsSinceLastUpdate
    ensures ev.standing ==> r.standingMinutes == MsToHundredths(600 * e.standingMinutes + (now - e.lastUpdate))
    ensures !ev.standing ==> r.standingMinutes == e.standingMinutes
    ensures ev.outside ==> r.outsideMinutes == MsToHundredths(600 * e.outsideMinutes + (now - e.lastUpdate))
    ensures !ev.outside ==> r.outsideMinutes == e.outsideMinutes
    ensures r.lastUpdate == now
    ensures 100 * r.score - 100 < 50 * r.steps + r.standingMinutes + r.outsideMinutes <= 100 * r.score
  {
    var elapsed := now - e.lastUpdate;
    var standingMinutes := if ev.standing then MsToHundredths(600 * e.standingMinutes + elapsed) else e.standingMinutes;
    var outsideMinutes := if ev.outside then MsToHundredths(600 * e.outsideMinutes + elapsed) else e.outsideMinutes;
    var steps := e.steps + ev.stepsSinceLastUpdate;
    e.(standingMinutes := standingMinutes, outsideMinutes := outsideMinutes, steps := steps,
       lastUpdate := now, score := Score(steps, standingMinutes, outsideMinutes))
  }

  /**
    The score-entry store after one message: unchanged when the message is discarded;
    otherwise the window holding `now` is updated in place, or a new window is appended and
    updated. No other entry changes.
  */
  function NextEntries(entries: seq<ScoreEntry>, dir: Directory, m: Message, now: int, offset: int): (r: seq<ScoreEntry>)
    ensures Resolve(dir, m).Discarded? ==> r == entries
    ensures |entries| <= |r| <= |entries| + 1
    ensures Resolve(dir, m).Resolved? ==>
      (|r| == |entries| <==> FindCurrent(entries, Resolve(dir, m).user, now).Some?)
    ensures Resolve(dir, m).Resolved? && FindCurrent(entries, Resolve(dir, m).user, now).Some? ==>
      var i := FindCurrent(entries, Resolve(dir, m).user, now).value;
      r[i] == ApplyEvent(entries[i], m.event, now) &&
      forall j :: 0 <= j < |entries| && j != i ==> r[j] == entries[j]
    ensures Resolve(dir, m).Resolved? && FindCurrent(entries, Resolve(dir, m).user, now).None? ==>
      r[..|entries|] == entries &&
      r[|entries|] == ApplyEvent(NewWindow(entries, Resolve(dir, m).user, now, offset), m.event, now)
  {
    match Resolve(dir, m)
    case Discarded(_) => entries
    case Resolved(u, ev) =>
      match FindCurrent(entries, u, now)
      case Some(i) => entries[i := ApplyEvent(entries[i], ev, now)]
      case None => entries + [ApplyEvent(NewWindow(entries, u, now, offset), ev, now)]
  }

  /** The event handler with its directory, its local-time offset and the score-entry store. */
  class EventHandleService {
    const directory: Directory
    const offset: int
    var entries: seq<ScoreEntry>

    constructor (directory: Directory, offset: int, entries: seq<ScoreEntry>)
      ensures this.directory == directory && this.offset == offset && this.entries == entries
    {
      this.directory := directory;
      this.offset := offset;
      this.entries := entries;
    }

    /**
      handleEvent (eventHandleService.js lines 23-130): resolve the owner, find or create the
      window holding `now`, then update its counters field by field and save it.
    */
    method HandleEvent(message: Message, now: int) returns (reply: Reply)
      modifies this
      ensures reply == EmptyObject
      ensures entries == NextEntries(old(entries), directory, message, now, offset)
    {
      reply := EmptyObject;
      if !IsJson(message) {
        return;
      }
      var event := message.event;

      if event.boardId !in directory.deviceByBoard {
        return;
      }
      var device := directory.deviceByBoard[event.boardId];

      if device !in directory.ownerByDevice {
        return;
      }
      var user := directory.ownerByDevice[device];

      var index: nat;
      var scoreEntry: ScoreEntry;
      var found := FindCurrent(entries, user, now);
      if found.None? {
        scoreEntry := NewWindow(entries, user, now, offset);
        entries := entries + [scoreEntry];
        index := |entries| - 1;
      } else {
        index := found.value;
        scoreEntry := entries[index];
      }

      var elapsed := now - scoreEntry.lastUpdate;
      if event.standing {
        scoreEntry := scoreEntry.(standingMinutes := MsToHundredths(600 * scoreEntry.standingMinutes + elapsed));
      }
      if event.outside {
        scoreEntry := scoreEntry.(outsideMinutes := MsToHundredths(600 * scoreEntry.outsideMinutes + elapsed));
      }
      scoreEntry := scoreEntry.(steps := scoreEntry.steps + event.stepsSinceLastUpdate);
      scoreEntry := scoreEntry.(lastUpdate := now);
      scoreEntry := scoreEntry.(score := Score(scoreEntry.steps, scoreEntry.standingMinutes, scoreEntry.outsideMinutes));

      entries := entries[index := scoreEntry];
    }
  }

  /**
    Before hour 23, a second event of the same user inside the window the first one
    lands in creates no further entry: the two together grow the store by at most one.
  */
  lemma {:induction false} SameWindowGrowsStoreAtMostOnce(
    entries: seq<ScoreEntry>, dir: Directory, m1: Message, m2: Message, t1: int, t2: int, offset: int)
    requires Resolve(dir, m1).Resolved? && Resolve(dir, m2).Resolved?
    requires Resolve(dir, m1).user == Resolve(dir, m2).user
    requires LocalHour(t1, offset) < 23
    requires HourBegin(t1, offset) <= t2 <= HourBegin(t1, offset) + HourMs
    ensures |NextEntries(NextEntries(entries, dir, m1, t1, offset), dir, m2, t2, offset)| <= |entries| + 1
  {
    var u := Resolve(dir, m1).user;
    var mid := NextEntries(entries, dir, m1, t1, offset);
    if FindCurrent(entries, u, t1).None? {
      var w := ApplyEvent(NewWindow(entries, u, t1, offset), m1.event, t1);
      assert mid[|entries|] == w;
      assert Matches(w, u, t2, t2);
      assert FindCurrent(mid, u, t2).Some?;
    }
  }

  /**
    At hour 23 the created window never holds the time, so when no stored window holds either
    event time, two events of the same user in that hour append two entries.
  */
  lemma {:induction false} HourTwentyThreeAppendsPerEvent(
    entries: seq<ScoreEntry>, dir: Directory, m1: Message, m2: Message, t1: int, t2: int, offset: int)
    requires Resolve(dir, m1).Resolved? && Resolve(dir, m2).Resolved?
    requires Resolve(dir, m1).user == Resolve(dir, m2).user
    requires LocalHour(t1, offset) == 23
    requires FindCurrent(entries, Resolve(dir, m1).user, t1).None?
    requires FindCurrent(entries, Resolve(dir, m1).user, t2).None?
    ensures |NextEntries(NextEntries(entries, dir, m1, t1, offset), dir, m2, t2, offset)| == |entries| + 2
  {
    var u := Resolve(dir, m1).user;
    var mid := NextEntries(entries, dir, m1, t1, offset);
    var w := ApplyEvent(NewWindow(entries, u, t1, offset), m1.event, t1);
    assert mid == entries + [w];
    assert !Matches(w, u, t2, t2);
    forall j | 0 <= j < |mid| ensures !Matches(mid[j], u, t2, t2) {
      if j < |entries| {
        assert mid[j] == entries[j];
      }
    }
  }
}
