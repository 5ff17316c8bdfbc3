/** The admission limiter in front of the agent channel: windows, in-flight counters and their guards. */
module Admission {

  const MAX_ENTRIES: nat := 128
  const MAX_PER_SECOND: nat := 100
  const MAX_CHANNEL_PER_SECOND: nat := 200
  const MAX_CHANNEL_IN_FLIGHT: nat := 4
  const MAX_UNAUTHENTICATED_PER_SECOND: nat := 20
  /** Clock readings are in nanoseconds. */
  const SECOND: int := 1_000_000_000

  // ----- one request window -----

  predicate Rising(times: seq<int>) {
    forall i, j :: 0 <= i < j < |times| ==> times[i] <= times[j]
  }

  /** No `limit + 1` admissions within less than a second. */
  predicate Spread(times: seq<int>, limit: nat) {
    forall i :: 0 <= i && i + limit < |times| ==> times[i] + SECOND <= times[i + limit]
  }

  predicate NotAfter(times: seq<int>, now: int) {
    forall t :: t in times ==> t <= now
  }

  lemma StillNotAfter(times: seq<int>, now: int, later: int)
    requires NotAfter(times, now) && now <= later
    ensures NotAfter(times, later)
  {
  }

  lemma OneMore(times: seq<int>, now: int)
    requires NotAfter(times, now)
    ensures NotAfter(times + [now], now)
  {
  }

  /** The window before the current one, for the argument only. */
  datatype Before = Before(started: int, count: nat)

  /**
   The last `requests` admissions fell into the current window, the `before.count` ones ahead of them into
   the window before it, and everything older lies before that one.
   */
  predicate Windowed(started: int, requests: nat, limit: nat, before: Before, times: seq<int>) {
    var n := |times|;
    && requests <= limit && before.count <= limit && requests + before.count <= n
    && before.started + SECOND <= started
    && Rising(times) && Spread(times, 2 * limit)
    && (forall i :: n - requests <= i < n ==> started <= times[i] < started + SECOND)
    && (forall i :: 0 <= i < n - requests ==> times[i] < started)
    && (forall i :: 0 <= i < n - requests - before.count ==> times[i] < before.started)
  }

  lemma WindowOpens(started: int, requests: nat, limit: nat, before: Before, times: seq<int>, now: int)
    requires Windowed(started, requests, limit, before, times) && started + SECOND <= now
    ensures Windowed(now, 0, limit, Before(started, requests), times)
  {
  }

  lemma RisingAppends(times: seq<int>, now: int)
    requires Rising(times) && NotAfter(times, now)
    ensures Rising(times + [now])
  {
    assert forall i :: 0 <= i < |times| ==> times[i] in times;
  }

  lemma SpreadAppends(times: seq<int>, limit: nat, now: int)
    requires 0 < limit && Spread(times, limit) && (limit <= |times| ==> times[|times| - limit] + SECOND <= now)
    ensures Spread(times + [now], limit)
  {
    var longer := times + [now];
    forall i | 0 <= i && i + limit < |longer|
      ensures longer[i] + SECOND <= longer[i + limit]
    {
      if i + limit == |times| {
        assert i == |times| - limit;
      }
    }
  }

  lemma WindowAdmits(started: int, requests: nat, limit: nat, before: Before, times: seq<int>, now: int)
    requires Windowed(started, requests, limit, before, times) && requests < limit
    requires started <= now < started + SECOND && NotAfter(times, now)
    ensures Windowed(started, requests + 1, limit, before, times + [now])
  {
    RisingAppends(times, now);
    SpreadAppends(times, 2 * limit, now);
    hide Rising, Spread, NotAfter;
  }

  /** Any `limit + 1` admissions take at least a second. */
  lemma FarApart(times: seq<int>, limit: nat, i: nat, j: nat)
    requires Rising(times) && Spread(times, limit)
    requires i + limit <= j < |times|
    ensures times[i] + SECOND <= times[j]
  {
    assert times[i + limit] <= times[j] by {
      if i + limit < j {
        assert Rising(times);
      }
    }
  }

  function SaturatingDecrement(n: nat): nat {
    if n == 0 then 0 else n - 1
  }

  // ----- the limiter -----

  datatype Entry = Entry(windowStarted: int, requests: nat, inFlight: bool)

  predicate InFlight(entries: map<nat, Entry>, key: nat) {
    key in entries && entries[key].inFlight
  }

  /** One live guard for exactly the capabilities in flight. */
  ghost predicate GuardsMatch(entries: map<nat, Entry>, guards: multiset<nat>) {
    |entries| <= MAX_ENTRIES && forall k :: guards[k] == if InFlight(entries, k) then 1 else 0
  }

  lemma PruningKeepsGuards(entries: map<nat, Entry>, kept: map<nat, Entry>, guards: multiset<nat>)
    requires GuardsMatch(entries, guards)
    requires forall k :: k in kept ==> k in entries && kept[k] == entries[k]
    requires forall k :: InFlight(entries, k) ==> k in kept
    ensures GuardsMatch(kept, guards)
  {
    assert entries.Keys == kept.Keys + (entries.Keys - kept.Keys);
    assert |kept| == |kept.Keys| && |entries| == |entries.Keys|;
  }

  /** Writing one entry adds or takes its guard along with its flag. */
  lemma WritingKeepsGuards(entries: map<nat, Entry>, key: nat, entry: Entry, guards: multiset<nat>)
    requires GuardsMatch(entries, guards) && (key in entries || |entries| < MAX_ENTRIES)
    ensures GuardsMatch(entries[key := entry], guards[key := if entry.inFlight then 1 else 0])
    ensures guards[key] == if InFlight(entries, key) then 1 else 0
    ensures guards[key] == 0 ==> guards[key := 1] == guards + multiset{key} && guards[key := 0] == guards
    ensures guards[key] == 1 ==> guards[key := 0] == guards - multiset{key}
  {
    assert entries[key := entry].Keys == entries.Keys + {key};
  }

  // ----- the requests of one capability -----

  /** The admissions of one capability, and the last window it had an entry for. */
  datatype Track = Track(started: int, requests: nat, before: Before, times: seq<int>)

  const NEVER := Track(0, 0, Before(0, 0), [])

  function TrackOf(tracks: map<nat, Track>, key: nat): Track {
    if key in tracks then tracks[key] else NEVER
  }

  predicate Tracked(t: Track, now: int) {
    Windowed(t.started, t.requests, MAX_PER_SECOND, t.before, t.times) && t.started <= now && NotAfter(t.times, now)
  }

  predicate TrackMatches(entries: map<nat, Entry>, key: nat, t: Track, now: int) {
    if key in entries then t.started == entries[key].windowStarted && t.requests == entries[key].requests
    else t.started + SECOND <= now
  }

  /** Every entry continues the track of its capability; a capability without an entry has been idle for a second. */
  ghost predicate TracksMatch(entries: map<nat, Entry>, tracks: map<nat, Track>, now: int) {
    && (forall k :: k in entries ==> k in tracks)
    && (forall k :: k in tracks ==> Tracked(tracks[k], now) && TrackMatches(entries, k, tracks[k], now))
  }

  lemma TracksAge(entries: map<nat, Entry>, tracks: map<nat, Track>, now: int, later: int)
    requires TracksMatch(entries, tracks, now) && now <= later
    ensures TracksMatch(entries, tracks, later)
  {
    hide Windowed;
    forall k | k in tracks
      ensures Tracked(tracks[k], later) && TrackMatches(entries, k, tracks[k], later)
    {
      assert Tracked(tracks[k], now) && TrackMatches(entries, k, tracks[k], now);
    }
  }

  lemma WritingKeepsTracks(entries: map<nat, Entry>, tracks: map<nat, Track>, key: nat, entry: Entry, t: Track, now: int)
    requires TracksMatch(entries, tracks, now) && Tracked(t, now)
    requires t.started == entry.windowStarted && t.requests == entry.requests
    ensures TracksMatch(entries[key := entry], tracks[key := t], now)
  {
    hide Tracked;
  }

  lemma IdleTracksStay(entries: map<nat, Entry>, tracks: map<nat, Track>, now: int)
    requires TracksMatch(entries, tracks, now)
    ensures TracksMatch(Kept(entries, now), tracks, now)
  {
    hide Tracked;
    forall k | k in tracks
      ensures TrackMatches(Kept(entries, now), k, tracks[k], now)
    {
      assert TrackMatches(entries, k, tracks[k], now);
    }
  }

  /** Entries idle for two seconds go; an entry in flight never does. */
  function Kept(entries: map<nat, Entry>, now: int): map<nat, Entry> {
    map k | k in entries && (entries[k].inFlight || now - entries[k].windowStarted < 2 * SECOND) :: entries[k]
  }

  /** The entry of a capability, made if there is none, with its window opened if the old one is over. */
  function LookedUp(entries: map<nat, Entry>, key: nat, now: int): Entry {
    var entry := if key in entries then entries[key] else Entry(now, 0, false);
    if now - entry.windowStarted >= SECOND then entry.(windowStarted := now, requests := 0) else entry
  }

  lemma Lookup(entries: map<nat, Entry>, key: nat, now: int)
    ensures LookedUp(entries, key, now).inFlight == InFlight(entries, key)
    ensures MayRequest(entries, key, now) <==>
              !LookedUp(entries, key, now).inFlight && LookedUp(entries, key, now).requests < MAX_PER_SECOND
  {
  }

  lemma KeptInFlight(entries: map<nat, Entry>, now: int)
    ensures forall k :: InFlight(entries, k) ==> InFlight(Kept(entries, now), k)
  {
  }

  /** When a capability is admitted: there is room for its entry, it is not in flight, and its window has room. */
  predicate Admissible(entries: map<nat, Entry>, key: nat, now: int) {
    HasRoom(Kept(entries, now), key) && MayRequest(Kept(entries, now), key, now)
  }

  predicate HasRoom(entries: map<nat, Entry>, key: nat) {
    key in entries || |entries| < MAX_ENTRIES
  }

  predicate MayRequest(entries: map<nat, Entry>, key: nat, now: int) {
    key in entries ==>
      !entries[key].inFlight && (entries[key].windowStarted + SECOND <= now || entries[key].requests < MAX_PER_SECOND)
  }

  /** The track when its entry is looked up at `now`: a new window if the old one is over. */
  function Opened(t: Track, now: int): Track {
    if t.started + SECOND <= now then Track(now, 0, Before(t.started, t.requests), t.times) else t
  }

  lemma OpenedIsTracked(t: Track, now: int)
    requires Tracked(t, now)
    ensures Tracked(Opened(t, now), now) && now < Opened(t, now).started + SECOND
  {
    if t.started + SECOND <= now {
      WindowOpens(t.started, t.requests, MAX_PER_SECOND, t.before, t.times, now);
    }
    hide Windowed, NotAfter;
  }

  lemma NewIsTracked(now: int)
    ensures Tracked(Track(now, 0, Before(now - SECOND, 0), []), now)
  {
  }

  lemma AdmittedIsTracked(t: Track, now: int)
    requires Tracked(t, now) && now < t.started + SECOND && t.requests < MAX_PER_SECOND
    ensures Tracked(t.(requests := t.requests + 1, times := t.times + [now]), now)
  {
    WindowAdmits(t.started, t.requests, MAX_PER_SECOND, t.before, t.times, now);
    OneMore(t.times, now);
    hide Windowed, NotAfter;
  }

  class AgentAdmission {
    var entries: map<nat, Entry>
    var windowStarted: int
    var requests: nat
    var inFlight: nat
    var unauthenticatedWindowStarted: int
    var unauthenticatedRequests: nat

    /** Guards handed out and not yet dropped. */
    ghost var channelGuards: nat
    ghost var capabilityGuards: multiset<nat>
    /** The requests of each capability that has not been forgotten since. */
    ghost var tracks: map<nat, Track>
    /** When channel requests, and unauthenticated ones, were admitted. */
    ghost var admitted: seq<int>
    ghost var unauthenticated: seq<int>
    ghost var before: Before
    ghost var unauthenticatedBefore: Before
    ghost var clock: int

    ghost predicate Valid()
      reads this
    {
      && inFlight == channelGuards <= MAX_CHANNEL_IN_FLIGHT
      && GuardsMatch(entries, capabilityGuards) && TracksMatch(entries, tracks, clock)
      && Windowed(windowStarted, requests, MAX_CHANNEL_PER_SECOND, before, admitted)
      && Windowed(unauthenticatedWindowStarted, unauthenticatedRequests, MAX_UNAUTHENTICATED_PER_SECOND, unauthenticatedBefore, unauthenticated)
      && windowStarted <= clock && unauthenticatedWindowStarted <= clock
      && NotAfter(admitted, clock) && NotAfter(unauthenticated, clock)
    }

    constructor (now: int)
      ensures Valid() && clock == now && channelGuards == 0 && capabilityGuards == multiset{} && tracks == map[]
      ensures admitted == [] && unauthenticated == []
    {
      entries := map[];
      windowStarted, requests, inFlight := now, 0, 0;
      unauthenticatedWindowStarted, unauthenticatedRequests := now, 0;
      channelGuards, capabilityGuards, tracks, admitted, unauthenticated := 0, multiset{}, map[], [], [];
      before, unauthenticatedBefore, clock := Before(now - SECOND, 0), Before(now - SECOND, 0), now;
    }

    /** `admit_unauthenticated`. */
    method AdmitUnauthenticated(now: int) returns (ok: bool)
      requires Valid() && clock <= now
      modifies this
      ensures Valid() && clock == now
      ensures unauthenticated == old(unauthenticated) + if ok then [now] else []
      ensures ok <==> old(unauthenticatedWindowStarted) + SECOND <= now || old(unauthenticatedRequests) < MAX_UNAUTHENTICATED_PER_SECOND
      ensures entries == old(entries) && channelGuards == old(channelGuards) && capabilityGuards == old(capabilityGuards)
      ensures tracks == old(tracks) && admitted == old(admitted)
    {
      hide Windowed, GuardsMatch, NotAfter, TracksMatch;
      TracksAge(entries, tracks, clock, now);
      StillNotAfter(admitted, clock, now);
      StillNotAfter(unauthenticated, clock, now);
      clock := now;
      if now - unauthenticatedWindowStarted >= SECOND {
        WindowOpens(unauthenticatedWindowStarted, unauthenticatedRequests, MAX_UNAUTHENTICATED_PER_SECOND, unauthenticatedBefore,
                    unauthenticated, now);
        unauthenticatedBefore := Before(unauthenticatedWindowStarted, unauthenticatedRequests);
        unauthenticatedWindowStarted := now;
        unauthenticatedRequests := 0;
      }
      if unauthenticatedRequests >= MAX_UNAUTHENTICATED_PER_SECOND {
        return false;
      }
      WindowAdmits(unauthenticatedWindowStarted, unauthenticatedRequests, MAX_UNAUTHENTICATED_PER_SECOND, unauthenticatedBefore,
                   unauthenticated, now);
      OneMore(unauthenticated, now);
      unauthenticated := unauthenticated + [now];
      unauthenticatedRequests := unauthenticatedRequests + 1;
      return true;
    }

    /** A second after it started, the channel window starts anew. */
    method OpenWindow(now: int)
      requires Valid() && clock == now
      modifies this`windowStarted, this`requests, this`before
      ensures Valid() && windowStarted <= now < windowStarted + SECOND
      ensures requests == if old(windowStarted) + SECOND <= now then 0 else old(requests)
    {
      hide Windowed, GuardsMatch, NotAfter, TracksMatch;
      if now - windowStarted >= SECOND {
        WindowOpens(windowStarted, requests, MAX_CHANNEL_PER_SECOND, before, admitted, now);
        before := Before(windowStarted, requests);
        windowStarted := now;
        requests := 0;
      }
    }

    /** `admit_channel`: on success the caller holds one more channel guard. */
    method AdmitChannel(now: int) returns (ok: bool)
      requires Valid() && clock <= now
      modifies this
      ensures Valid() && clock == now
      ensures channelGuards == old(channelGuards) + (if ok then 1 else 0)
      ensures admitted == old(admitted) + if ok then [now] else []
      ensures ok <==> old(inFlight) < MAX_CHANNEL_IN_FLIGHT
                      && (old(windowStarted) + SECOND <= now || old(requests) < MAX_CHANNEL_PER_SECOND)
      ensures entries == old(entries) && capabilityGuards == old(capabilityGuards)
      ensures tracks == old(tracks) && unauthenticated == old(unauthenticated)
    {
      hide Windowed, GuardsMatch, NotAfter, TracksMatch;
      TracksAge(entries, tracks, clock, now);
      StillNotAfter(admitted, clock, now);
      StillNotAfter(unauthenticated, clock, now);
      clock := now;
      OpenWindow(now);
      if inFlight >= MAX_CHANNEL_IN_FLIGHT || requests >= MAX_CHANNEL_PER_SECOND {
        return false;
      }
      WindowAdmits(windowStarted, requests, MAX_CHANNEL_PER_SECOND, before, admitted, now);
      OneMore(admitted, now);
      inFlight := inFlight + 1;
      requests := requests + 1;
      channelGuards, admitted := channelGuards + 1, admitted + [now];
      return true;
    }

    /** Forget the entries that have been idle for two seconds. */
    method DropIdle(now: int)
      requires Valid() && clock == now
      modifies this`entries
      ensures Valid() && entries == Kept(old(entries), now)
    {
      hide Windowed, GuardsMatch, NotAfter, TracksMatch;
      var kept := Kept(entries, now);
      PruningKeepsGuards(entries, kept, capabilityGuards);
      IdleTracksStay(entries, tracks, now);
      entries := kept;
    }

    /** `admit_capability`. */
    method AdmitCapability(key: nat, now: int) returns (ok: bool)
      requires Valid() && clock <= now
      modifies this
      ensures Valid() && clock == now
      ensures ok <==> Admissible(old(entries), key, now)
      ensures capabilityGuards == old(capabilityGuards) + if ok then multiset{key} else multiset{}
      ensures ok ==> old(capabilityGuards)[key] == 0 && InFlight(entries, key)
      ensures TrackOf(tracks, key).times == TrackOf(old(tracks), key).times + if ok then [now] else []
      ensures forall k :: k != key ==> TrackOf(tracks, k) == TrackOf(old(tracks), k)
      ensures forall k :: InFlight(old(entries), k) ==> InFlight(entries, k)
      ensures channelGuards == old(channelGuards) && admitted == old(admitted) && unauthenticated == old(unauthenticated)
    {
      hide Windowed, GuardsMatch, NotAfter, TracksMatch, Tracked, Kept, MayRequest;
      StillNotAfter(admitted, clock, now);
      StillNotAfter(unauthenticated, clock, now);
      TracksAge(entries, tracks, clock, now);
      clock := now;
      DropIdle(now);
      KeptInFlight(old(entries), now);
      if key !in entries && |entries| >= MAX_ENTRIES {
        return false;
      }
      ok := Enter(key, now);
    }

    /** Look the entry up or make it, open its window if that is over, and admit if it is free. */
    method Enter(key: nat, now: int) returns (ok: bool)
      requires Valid() && clock == now && HasRoom(entries, key)
      modifies this`entries, this`tracks, this`capabilityGuards
      ensures Valid()
      ensures ok <==> MayRequest(old(entries), key, now)
      ensures capabilityGuards == old(capabilityGuards) + if ok then multiset{key} else multiset{}
      ensures ok ==> old(capabilityGuards)[key] == 0 && InFlight(entries, key)
      ensures TrackOf(tracks, key).times == TrackOf(old(tracks), key).times + if ok then [now] else []
      ensures forall k :: k != key ==> TrackOf(tracks, k) == TrackOf(old(tracks), k)
      ensures forall k :: InFlight(old(entries), k) ==> InFlight(entries, k)
    {
      hide Windowed, GuardsMatch, NotAfter, TracksMatch, Tracked, LookedUp;
      var entry := LookedUp(entries, key, now);
      ghost var track := OpenTrack(key);
      Lookup(entries, key, now);
      ok := !entry.inFlight && entry.requests < MAX_PER_SECOND;
      if ok {
        AdmittedIsTracked(track, now);
        Store(key, entry.(inFlight := true, requests := entry.requests + 1),
              track.(requests := track.requests + 1, times := track.times + [now]));
      } else {
        Store(key, entry, track);
      }
    }

    /** Write one entry, with its guard and its track. */
    method Store(key: nat, entry: Entry, ghost track: Track)
      requires Valid() && HasRoom(entries, key) && Tracked(track, clock)
      requires track.started == entry.windowStarted && track.requests == entry.requests
      requires InFlight(entries, key) ==> entry.inFlight
      modifies this`entries, this`tracks, this`capabilityGuards
      ensures Valid() && entries == old(entries)[key := entry] && tracks == old(tracks)[key := track]
      ensures capabilityGuards == old(capabilityGuards)
                + if entry.inFlight && !InFlight(old(entries), key) then multiset{key} else multiset{}
      ensures old(capabilityGuards)[key] == if InFlight(old(entries), key) then 1 else 0
    {
      hide Windowed, GuardsMatch, NotAfter, TracksMatch, Tracked;
      WritingKeepsGuards(entries, key, entry, capabilityGuards);
      WritingKeepsTracks(entries, tracks, key, entry, track, clock);
      entries := entries[key := entry];
      tracks := tracks[key := track];
      capabilityGuards := capabilityGuards[key := if entry.inFlight then 1 else 0];
    }

    /** The track of a capability as its entry is looked up or made. */
    lemma OpenTrack(key: nat) returns (track: Track)
      requires Valid()
      ensures Tracked(track, clock) && clock < track.started + SECOND && track.times == TrackOf(tracks, key).times
      ensures track.started == LookedUp(entries, key, clock).windowStarted && track.requests == LookedUp(entries, key, clock).requests
    {
      hide Windowed, GuardsMatch, NotAfter, Tracked;
      if key in tracks {
        assert Tracked(tracks[key], clock) && TrackMatches(entries, key, tracks[key], clock);
        OpenedIsTracked(tracks[key], clock);
        track := Opened(tracks[key], clock);
      } else {
        NewIsTracked(clock);
        track := Track(clock, 0, Before(clock - SECOND, 0), []);
      }
    }

    /** `admit_authenticated`: when the capability is refused, the channel guard is dropped again. */
    method AdmitAuthenticated(key: nat, now: int) returns (ok: bool)
      requires Valid() && clock <= now
      modifies this
      ensures Valid() && clock == now
      ensures var channel := old(inFlight) < MAX_CHANNEL_IN_FLIGHT
                             && (old(windowStarted) + SECOND <= now || old(requests) < MAX_CHANNEL_PER_SECOND);
              && (ok <==> channel && Admissible(old(entries), key, now))
              && admitted == old(admitted) + if channel then [now] else []
      ensures channelGuards == old(channelGuards) + (if ok then 1 else 0)
      ensures capabilityGuards == old(capabilityGuards) + if ok then multiset{key} else multiset{}
      ensures TrackOf(tracks, key).times == TrackOf(old(tracks), key).times + if ok then [now] else []
      ensures forall k :: k != key ==> TrackOf(tracks, k) == TrackOf(old(tracks), k)
      ensures unauthenticated == old(unauthenticated)
    {
      hide Windowed, GuardsMatch, NotAfter, TracksMatch, Valid, Admissible;
      var channel := AdmitChannel(now);
      if !channel {
        return false;
      }
      var capability := AdmitCapability(key, now);
      if !capability {
        DropChannelGuard();
        return false;
      }
      return true;
    }

    /** A channel guard goes out of scope. */
    method DropChannelGuard()
      requires Valid() && 0 < channelGuards
      modifies this
      ensures Valid() && channelGuards == old(channelGuards) - 1 && clock == old(clock)
      ensures entries == old(entries) && capabilityGuards == old(capabilityGuards) && tracks == old(tracks)
      ensures admitted == old(admitted) && unauthenticated == old(unauthenticated)
    {
      hide Windowed, GuardsMatch, NotAfter, TracksMatch;
      inFlight := SaturatingDecrement(inFlight);
      channelGuards := channelGuards - 1;
    }

    /** A capability guard goes out of scope; its entry is still there. */
    method DropCapabilityGuard(key: nat)
      requires Valid() && 0 < capabilityGuards[key]
      modifies this
      ensures Valid() && capabilityGuards == old(capabilityGuards) - multiset{key} && clock == old(clock)
      ensures key in entries && !entries[key].inFlight && entries.Keys == old(entries).Keys
      ensures channelGuards == old(channelGuards) && admitted == old(admitted) && unauthenticated == old(unauthenticated)
      ensures tracks == old(tracks)
    {
      hide Windowed, GuardsMatch, NotAfter, Tracked;
      GuardedIsInFlight(entries, capabilityGuards, key);
      WritingKeepsGuards(entries, key, entries[key].(inFlight := false), capabilityGuards);
      entries := entries[key := entries[key].(inFlight := false)];
      capabilityGuards := capabilityGuards - multiset{key};
      assert TracksMatch(entries, tracks, clock) by {
        WritingKeepsTracks(old(entries), tracks, key, entries[key], tracks[key], clock);
        assert tracks[key := tracks[key]] == tracks;
      }
    }

    /**
     `replace_known_capabilities`: entries of capabilities no longer known go, unless they are in flight. Their
     requests are forgotten with them: a capability that becomes known again starts afresh.
     */
    method ReplaceKnown(active: set<nat>)
      requires Valid()
      modifies this
      ensures Valid() && clock == old(clock)
      ensures forall k :: k in entries <==> k in old(entries) && (old(entries)[k].inFlight || k in active)
      ensures channelGuards == old(channelGuards) && capabilityGuards == old(capabilityGuards)
      ensures admitted == old(admitted) && unauthenticated == old(unauthenticated)
      ensures forall k :: k in entries || k !in old(entries) ==> TrackOf(tracks, k) == TrackOf(old(tracks), k)
    {
      hide Windowed, GuardsMatch, NotAfter, Tracked;
      var kept := map k | k in entries && (entries[k].inFlight || k in active) :: entries[k];
      PruningKeepsGuards(entries, kept, capabilityGuards);
      ghost var remembered := map k | k in tracks && (k in kept || k !in entries) :: tracks[k];
      forall k | k in remembered
        ensures TrackMatches(kept, k, remembered[k], clock)
      {
        assert TrackMatches(entries, k, tracks[k], clock);
      }
      entries, tracks := kept, remembered;
    }

    /**
     At any time: at most four requests in flight, at most one guard per capability and its entry kept, at
     most 128 entries, and any 401 admitted channel requests took at least a second, as did any 201 of one
     capability and any 41 unauthenticated ones.
     */
    lemma Bounds(i: nat, j: nat, key: nat)
      requires Valid()
      ensures channelGuards <= 4 && |entries| <= 128
      ensures forall k :: capabilityGuards[k] <= 1 && (capabilityGuards[k] == 1 ==> k in entries && entries[k].inFlight)
      ensures i + 400 <= j < |admitted| ==> admitted[i] + SECOND <= admitted[j]
      ensures i + 40 <= j < |unauthenticated| ==> unauthenticated[i] + SECOND <= unauthenticated[j]
      ensures var times := TrackOf(tracks, key).times; i + 200 <= j < |times| ==> times[i] + SECOND <= times[j]
    {
      if key in tracks && i + 200 <= j < |tracks[key].times| {
        assert Tracked(tracks[key], clock);
        FarApart(tracks[key].times, 2 * MAX_PER_SECOND, i, j);
      }
      if i + 400 <= j < |admitted| {
        FarApart(admitted, 2 * MAX_CHANNEL_PER_SECOND, i, j);
      }
      if i + 40 <= j < |unauthenticated| {
        FarApart(unauthenticated, 2 * MAX_UNAUTHENTICATED_PER_SECOND, i, j);
      }
    }
  }

  lemma GuardedIsInFlight(entries: map<nat, Entry>, guards: multiset<nat>, key: nat)
    requires GuardsMatch(entries, guards) && 0 < guards[key]
    ensures InFlight(entries, key) && guards[key] == 1
  {
  }
}
