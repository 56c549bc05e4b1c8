/** The publish/subscribe event bus: subscribers per event type and a capped history
    of published events. Callbacks are opaque identities; what a callback does when
    called is outside the model, so publishing returns the callbacks it calls, in
    order. */
module Events {
  import opened Outcomes
  import opened Json
  import Seqs

  datatype EventType =
    | ScanStarted | ScanCompleted | ScanPaused | ScanResumed
    | TaskStarted | TaskCompleted | TaskFailed | TaskProgress
    | AssetDiscovered | FindingDiscovered | LogMessage
  {
    function Value(): string
    {
      match this
      case ScanStarted => "scan_started"
      case ScanCompleted => "scan_completed"
      case ScanPaused => "scan_paused"
      case ScanResumed => "scan_resumed"
      case TaskStarted => "task_started"
      case TaskCompleted => "task_completed"
      case TaskFailed => "task_failed"
      case TaskProgress => "task_progress"
      case AssetDiscovered => "asset_discovered"
      case FindingDiscovered => "finding_discovered"
      case LogMessage => "log_message"
    }
  }

  datatype Event = Event(eventType: EventType, data: map<string, Json>, timestamp: int, source: Option<string>)

  /** The identity of a subscribed callable. */
  type Callback = nat

  /** Largest number of events the history keeps. */
  const MaxHistory: nat := 1000

  /** The history after appending one event: the oldest entry goes once the cap is
      exceeded. */
  function Capped(h: seq<Event>): seq<Event>
  {
    if |h| > MaxHistory then h[1..] else h
  }

  /** The last `n` elements of `s` (all of them when there are fewer). */
  function Last<T>(s: seq<T>, n: nat): (r: seq<T>)
    ensures |r| == if |s| < n then |s| else n
    ensures r == s[|s| - |r|..]
  {
    if |s| <= n then s else s[|s| - n..]
  }

  /** `s[start:]` with Python's reading of a negative or oversized start. */
  function SliceFrom<T>(s: seq<T>, start: int): (r: seq<T>)
  {
    if start < 0 then (if |s| + start <= 0 then s else s[|s| + start..])
    else if start >= |s| then []
    else s[start..]
  }

  /** The callbacks subscribed to `t`, in subscription order. */
  function SubscribersOf(subs: map<EventType, seq<Callback>>, t: EventType): seq<Callback>
  {
    if t in subs then subs[t] else []
  }

  /** `get_history(event_type, limit)` over a given history: filter by type when one is
      given, then keep `history[-limit:]` when the limit is neither `None` nor 0. */
  function HistoryQuery(history: seq<Event>, eventType: Option<EventType>, limit: Option<int>): seq<Event>
  {
    var h := if eventType.Some? then Seqs.Filter(history, (e: Event) => e.eventType == eventType.value) else history;
    if limit.Some? && limit.value != 0 then SliceFrom(h, -limit.value) else h
  }

  /** A query returns events of the history, of the asked type, and no more than a
      positive limit. */
  lemma HistoryQueryShape(history: seq<Event>, eventType: Option<EventType>, limit: Option<int>)
    ensures var r := HistoryQuery(history, eventType, limit);
            |r| <= |history|
            && (forall e :: e in r ==> e in history && (eventType.Some? ==> e.eventType == eventType.value))
            && (limit.Some? && limit.value > 0 ==> |r| <= limit.value)
  {
    if eventType.Some? {
      var p := (x: Event) => x.eventType == eventType.value;
      forall e | e in Seqs.Filter(history, p)
        ensures e in history && e.eventType == eventType.value
      {
        Seqs.FilterMembership(history, p, e);
      }
    }
  }

  class EventBus {
    var subscribers: map<EventType, seq<Callback>>
    var history: seq<Event>

    predicate Valid()
      reads this
    {
      |history| <= MaxHistory
    }

    constructor ()
      ensures Valid()
      ensures subscribers == map[] && history == []
    {
      subscribers := map[];
      history := [];
    }

    /** Appends `callback` to the list of `eventType`, creating the list when absent;
        the same callback may be subscribed twice. */
    method Subscribe(eventType: EventType, callback: Callback)
      modifies this
      ensures subscribers == old(subscribers)[eventType := SubscribersOf(old(subscribers), eventType) + [callback]]
      ensures history == old(history)
    {
      if eventType !in subscribers {
        subscribers := subscribers[eventType := []];
      }
      subscribers := subscribers[eventType := subscribers[eventType] + [callback]];
    }

    /** Does nothing for a type without a list; otherwise removes the first occurrence of
        `callback`, and raises `ValueError` (changing nothing) when it is not there. */
    method Unsubscribe(eventType: EventType, callback: Callback) returns (r: Outcome<()>)
      modifies this
      ensures history == old(history)
      ensures eventType !in old(subscribers) ==> r == Done(()) && subscribers == old(subscribers)
      ensures eventType in old(subscribers) && callback in old(subscribers)[eventType] ==>
                r == Done(()) &&
                subscribers == old(subscribers)[eventType := Seqs.RemoveFirst(old(subscribers)[eventType], callback)]
      ensures eventType in old(subscribers) && callback !in old(subscribers)[eventType] ==>
                r == Raised("ValueError") && subscribers == old(subscribers)
    {
      if eventType in subscribers {
        if callback in subscribers[eventType] {
          subscribers := subscribers[eventType := Seqs.RemoveFirst(subscribers[eventType], callback)];
          r := Done(());
        } else {
          r := Raised("ValueError");
        }
      } else {
        r := Done(());
      }
    }

    /** Records `event` in the history (with or without subscribers), dropping the
        oldest entry once the cap is exceeded, then calls the subscribers of the event's
        type in subscription order. */
    method Publish(event: Event) returns (called: seq<Callback>)
      requires Valid()
      modifies this
      ensures Valid()
      ensures history == Capped(old(history) + [event])
      ensures subscribers == old(subscribers)
      ensures called == SubscribersOf(subscribers, event.eventType)
    {
      history := history + [event];
      if |history| > MaxHistory {
        history := history[1..];
      }
      called := [];
      if event.eventType in subscribers {
        var cbs := subscribers[event.eventType];
        var i := 0;
        while i < |cbs|
          invariant 0 <= i <= |cbs|
          invariant called == cbs[..i]
        {
          called := called + [cbs[i]];
          i := i + 1;
        }
        assert cbs[..|cbs|] == cbs;
      }
    }

    /** `get_history` */
    function GetHistory(eventType: Option<EventType>, limit: Option<int>): (r: seq<Event>)
      reads this
      ensures |r| <= |history|
      ensures forall e :: e in r ==> e in history && (eventType.Some? ==> e.eventType == eventType.value)
      ensures limit.Some? && limit.value > 0 ==> |r| <= limit.value
    {
      HistoryQueryShape(history, eventType, limit);
      HistoryQuery(history, eventType, limit)
    }

    /** Empties the history; subscribers stay. */
    method ClearHistory()
      modifies this
      ensures Valid()
      ensures history == [] && subscribers == old(subscribers)
    {
      history := [];
    }
  }

  // ---------------------------------------------------------------------------
  // properties of the history

  /** The history after publishing `events` one after another. */
  function PublishAll(h: seq<Event>, events: seq<Event>): seq<Event>
  {
    if events == [] then h else Capped(PublishAll(h, events[..|events| - 1]) + [events[|events| - 1]])
  }

  /** Publishing keeps exactly the most recent `MaxHistory` events, in publish order. */
  lemma {:induction false} PublishAllKeepsMostRecent(h: seq<Event>, events: seq<Event>)
    requires |h| <= MaxHistory
    ensures PublishAll(h, events) == Last(h + events, MaxHistory)
  {
    if events != [] {
      var pre := events[..|events| - 1];
      var e := events[|events| - 1];
      PublishAllKeepsMostRecent(h, pre);
      var p := Last(h + pre, MaxHistory);
      var all := h + events;
      assert h + events == (h + pre) + [e];
      if |h + pre| <= MaxHistory {
        assert p == h + pre;
      } else {
        assert p == (h + pre)[|h + pre| - MaxHistory..];
        assert |p + [e]| > MaxHistory;
        assert (p + [e])[1..] == all[|all| - MaxHistory..];
      }
    }
  }

  /** A fresh history holds the last min(n, 1000) of the n published events. */
  lemma HistoryOfFreshBus(events: seq<Event>)
    ensures PublishAll([], events) == Last(events, MaxHistory)
    ensures |PublishAll([], events)| <= MaxHistory
  {
    PublishAllKeepsMostRecent([], events);
    assert [] + events == events;
  }

  /** A type filter keeps exactly the events of that type, in order. */
  lemma HistoryByType(history: seq<Event>, t: EventType, e: Event)
    ensures HistoryQuery(history, Some(t), None) == Seqs.Filter(history, (x: Event) => x.eventType == t)
    ensures e in HistoryQuery(history, Some(t), None) <==> e in history && e.eventType == t
  {
    Seqs.FilterMembership(history, (x: Event) => x.eventType == t, e);
  }

  /** A positive limit keeps the last `limit` entries. */
  lemma HistoryPositiveLimit(history: seq<Event>, limit: int)
    requires limit > 0
    ensures HistoryQuery(history, None, Some(limit)) == Last(history, limit)
  {
  }

  /** A limit of `None` or 0 truncates nothing. */
  lemma HistoryNoLimit(history: seq<Event>, eventType: Option<EventType>)
    ensures HistoryQuery(history, eventType, None) == HistoryQuery(history, eventType, Some(0))
    ensures HistoryQuery(history, None, Some(0)) == history
  {
  }

  /** A negative limit follows Python's slice: it drops the first `-limit` entries
      instead of keeping the last ones. */
  lemma HistoryNegativeLimit(history: seq<Event>, limit: int)
    requires limit < 0
    ensures HistoryQuery(history, None, Some(limit)) == if -limit >= |history| then [] else history[-limit..]
  {
  }
}
