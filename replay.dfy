/**
 * Recording and playback of game sessions (js/modules/game/ReplaySystem.js):
 * the events of a session with their times and compact type codes, the seed
 * of the session's generator, the exported and imported replay data, the
 * playback schedule, and the list of saved replays.
 *
 * `Math.random`, `performance.now` and `Date.now` are parameters. The JSON
 * text, its base64 and URI encoding and `localStorage` are not modelled: the
 * exported data is the parsed `Json` value, and the saved list is passed in
 * and returned. Timers are the list of what was scheduled; a callback that a
 * timer runs is modelled by `Fires`.
 */
module Replay {
  import opened Common
  import Prng

  /** A parsed JSON value. */
  datatype Json = Null | Bool(b: bool) | Num(n: real) | Str(s: string) | Arr(items: seq<Json>)
                | Obj(fields: map<string, Json>)

  /** JavaScript truthiness of a parsed value (`NaN` does not occur). */
  predicate Truthy(j: Json)
  {
    match j
    case Null => false
    case Bool(b) => b
    case Num(n) => n != 0.0
    case Str(s) => |s| > 0
    case Arr(_) => true
    case Obj(_) => true
  }

  /** `data[key]` is present and truthy (a missing key and a non-object give `undefined`). */
  predicate FieldTruthy(data: Json, key: string)
  {
    data.Obj? && key in data.fields && Truthy(data.fields[key])
  }

  /** One recorded event: its time since the start of the recording and its (compact) type. */
  datatype Event = Event(t: int, kind: string)

  /** The full event types and their compact codes, position by position. */
  const Names: seq<string> := ["left", "right", "rotate", "soft_drop", "hard_drop", "pause", "resume"]
  const Codes: seq<string> := ["l", "r", "u", "d", "h", "p", "s"]

  /** The recording map (`typeMap[type] || type`): a full type becomes its code, anything else is kept. */
  function EncodeType(kind: string): (c: string)
    ensures forall i :: 0 <= i < |Names| && kind == Names[i] ==> c == Codes[i]
    ensures kind !in Names ==> c == kind
  {
    if kind == "left" then "l"
    else if kind == "right" then "r"
    else if kind == "rotate" then "u"
    else if kind == "soft_drop" then "d"
    else if kind == "hard_drop" then "h"
    else if kind == "pause" then "p"
    else if kind == "resume" then "s"
    else kind
  }

  /** The playback map: a code becomes its full type, anything else is kept. */
  function DecodeType(code: string): (k: string)
    ensures forall i :: 0 <= i < |Codes| && code == Codes[i] ==> k == Names[i]
    ensures code !in Codes ==> k == code
  {
    if code == "l" then "left"
    else if code == "r" then "right"
    else if code == "u" then "rotate"
    else if code == "d" then "soft_drop"
    else if code == "h" then "hard_drop"
    else if code == "p" then "pause"
    else if code == "s" then "resume"
    else code
  }

  /**
   * Playing back a recorded type gives the type back exactly when it is one
   * of the seven full types or not a code at all; an unknown type that
   * happens to be a code (say "l") comes back as the full type of that code.
   */
  lemma TypeRoundTrip(kind: string)
    ensures DecodeType(EncodeType(kind)) == kind <==> kind in Names || kind !in Codes
  {
    if kind in Names {
      var i :| 0 <= i < |Names| && kind == Names[i];
      assert EncodeType(kind) == Codes[i];
    } else if kind in Codes {
      var i :| 0 <= i < |Codes| && kind == Codes[i];
      assert DecodeType(kind) == Names[i];
    }
  }

  /** `Math.round`: the nearest integer, halves rounded up. */
  function Round(x: real): (r: int)
    ensures r as real - 0.5 <= x < r as real + 0.5
  {
    (x + 0.5).Floor
  }

  /** The largest seed bound, `2147483647`. */
  const SeedRange: int := 2147483647

  /** `Math.floor(Math.random() * 2147483647)` for a draw in [0, 1). */
  function SeedOf(draw: real): (seed: int)
    requires 0.0 <= draw < 1.0
    ensures 0 <= seed < SeedRange
  {
    (draw * SeedRange as real).Floor
  }

  function EventJson(e: Event): Json
  {
    Obj(map["t" := Num(e.t as real), "type" := Str(e.kind)])
  }

  /** The data of `export` before it is turned into text: format version 1, the seed, the metadata and the events. */
  function Export(seed: int, metadata: map<string, Json>, events: seq<Event>): (j: Json)
    ensures j.Obj? && j.fields.Keys == {"v", "s", "m", "e"}
    ensures j.fields["v"] == Num(1.0) && j.fields["s"] == Num(seed as real) && j.fields["m"] == Obj(metadata)
    ensures j.fields["e"].Arr? && |j.fields["e"].items| == |events|
    ensures forall i :: 0 <= i < |events| ==> j.fields["e"].items[i] == EventJson(events[i])
  {
    Obj(map["v" := Num(1.0), "s" := Num(seed as real), "m" := Obj(metadata),
            "e" := Arr(seq(|events|, i requires 0 <= i < |events| => EventJson(events[i])))])
  }

  /**
   * The validation of `import` on the parsed data: the data is returned
   * unchanged when its `v`, `s` and `e` are present and truthy and `e` is an
   * array, and refused otherwise; in particular a seed of 0 is refused.
   */
  function Import(data: Json): (r: Option<Json>)
    ensures r.Some? ==> r.value == data && data.Obj? && "e" in data.fields && data.fields["e"].Arr?
    ensures r.Some? <==> FieldTruthy(data, "v") && FieldTruthy(data, "s") && FieldTruthy(data, "e") &&
                         data.fields["e"].Arr?
    ensures data.Obj? && "s" in data.fields && data.fields["s"] == Num(0.0) ==> r.None?
  {
    if !FieldTruthy(data, "v") || !FieldTruthy(data, "s") || !FieldTruthy(data, "e") then None
    else if !data.fields["e"].Arr? then None
    else Some(data)
  }

  /** An exported replay imports back unchanged, except that a replay whose seed is 0 is refused. */
  lemma ExportImport(seed: int, metadata: map<string, Json>, events: seq<Event>)
    ensures Import(Export(seed, metadata, events)) ==
              if seed == 0 then None else Some(Export(seed, metadata, events))
  {
    var j := Export(seed, metadata, events);
    assert j.fields["v"] == Num(1.0) && j.fields["s"] == Num(seed as real);
    assert seed == 0 <==> seed as real == 0.0;
  }

  /** Decoded replay data, as `startPlayback` receives it. */
  datatype ReplayData = ReplayData(seed: int, metadata: map<string, Json>, events: seq<Event>)

  /** A scheduled timeout: one per event at the event's time, and the completion callback. */
  datatype Timer = EventTimer(delay: int, event: Event) | CompletionTimer(delay: int)

  /** How long after the last event the completion callback runs. */
  const CompletionDelay: int := 1000

  /**
   * The scheduling of `startPlayback`: a timeout for every event, in order,
   * then, when there are events and an `onComplete` callback, one second
   * after the last event's time, the completion timeout.
   */
  method ScheduleTimers(events: seq<Event>, hasOnComplete: bool) returns (timers: seq<Timer>)
    ensures |timers| == |events| + (if |events| > 0 && hasOnComplete then 1 else 0)
    ensures forall k :: 0 <= k < |events| ==> timers[k] == EventTimer(events[k].t, events[k])
    ensures |events| > 0 && hasOnComplete ==>
              timers[|events|] == CompletionTimer(events[|events| - 1].t + CompletionDelay)
  {
    timers := [];
    var k := 0;
    while k < |events|
      invariant 0 <= k <= |events| && |timers| == k
      invariant forall j :: 0 <= j < k ==> timers[j] == EventTimer(events[j].t, events[j])
    {
      timers := timers + [EventTimer(events[k].t, events[k])];
      k := k + 1;
    }
    if |events| > 0 && hasOnComplete {
      timers := timers + [CompletionTimer(events[|events| - 1].t + CompletionDelay)];
    }
  }

  /** A replay in the saved list. */
  datatype SavedReplay = SavedReplay(name: string, data: Json, metadata: map<string, Json>, savedAt: int)

  /** `saveReplay` keeps the ten most recent replays. */
  const MaxSaved: nat := 10

  /** The saved list after saving `r`: `r` first, then the previous ones, at most ten in all. */
  function SaveReplay(stored: seq<SavedReplay>, r: SavedReplay): (list: seq<SavedReplay>)
    ensures |list| == if |stored| + 1 < MaxSaved then |stored| + 1 else MaxSaved
    ensures list[0] == r
    ensures forall i :: 1 <= i < |list| ==> list[i] == stored[i - 1]
  {
    var all := [r] + stored;
    var kept := Take(all, MaxSaved);
    assert kept[0] == all[0];
    kept
  }

  /** `deleteReplay`: an index inside the list removes that replay and succeeds; any other index changes nothing. */
  function DeleteReplay(stored: seq<SavedReplay>, index: int): (r: (seq<SavedReplay>, bool))
    ensures r.1 <==> 0 <= index < |stored|
    ensures !r.1 ==> r.0 == stored
    ensures r.1 ==> |r.0| == |stored| - 1 &&
                    (forall i :: 0 <= i < index ==> r.0[i] == stored[i]) &&
                    (forall i :: index <= i < |r.0| ==> r.0[i] == stored[i + 1])
  {
    if 0 <= index < |stored| then (stored[..index] + stored[index + 1..], true) else (stored, false)
  }

  /** A saved list stays within ten replays however many are saved. */
  lemma {:induction false} SavedListBounded(stored: seq<SavedReplay>, rs: seq<SavedReplay>)
    requires |stored| <= MaxSaved
    ensures |SaveAll(stored, rs)| <= MaxSaved
    ensures |rs| > 0 ==> SaveAll(stored, rs)[0] == rs[|rs| - 1]
    decreases |rs|
  {
    if |rs| > 0 {
      SavedListBounded(stored, rs[..|rs| - 1]);
    }
  }

  /** Saving `rs` one after the other. */
  function SaveAll(stored: seq<SavedReplay>, rs: seq<SavedReplay>): seq<SavedReplay>
    decreases |rs|
  {
    if |rs| == 0 then stored else SaveReplay(SaveAll(stored, rs[..|rs| - 1]), rs[|rs| - 1])
  }

  class ReplaySystem {
    var events: seq<Event>
    var startTime: real
    var seed: int
    var recording: bool
    var playing: bool
    var metadata: map<string, Json>
    var playbackTimeouts: seq<Timer>
    /** The timeouts passed to `clearTimeout`, oldest first. */
    var cleared: seq<Timer>
    /** The current generator; `null` until a recording or a playback starts. */
    var rng: Prng.Mulberry32?

    constructor ()
      ensures events == [] && startTime == 0.0 && seed == 0 && !recording && !playing
      ensures metadata == map[] && playbackTimeouts == [] && cleared == [] && rng == null
    {
      events, startTime, seed, recording, playing := [], 0.0, 0, false, false;
      metadata, playbackTimeouts, cleared, rng := map[], [], [], null;
    }

    /**
     * `startRecording` with `Math.random()` given as `draw` and the time as
     * `now`: a seed in [0, 2147483647), a generator seeded with it, no
     * events, no metadata, and recording on.
     */
    method StartRecording(draw: real, now: real) returns (s: int)
      requires 0.0 <= draw < 1.0
      modifies this
      ensures s == seed == SeedOf(draw) && 0 <= s < SeedRange
      ensures fresh(rng) && rng.state == Prng.ToWord(seed)
      ensures events == [] && startTime == now && recording && metadata == map[]
      ensures playing == old(playing) && playbackTimeouts == old(playbackTimeouts) && cleared == old(cleared)
    {
      seed := SeedOf(draw);
      rng := new Prng.Mulberry32(seed);
      events := [];
      startTime := now;
      recording := true;
      metadata := map[];
      return seed;
    }

    /**
     * `recordEvent(type)` at time `now`: nothing unless recording; otherwise
     * exactly one event is appended, at the rounded time since the start,
     * with the type's code (an unknown type unchanged).
     */
    method RecordEvent(kind: string, now: real)
      modifies this
      ensures !old(recording) ==> events == old(events)
      ensures old(recording) ==> events == old(events) + [Event(Round(now - startTime), EncodeType(kind))]
      ensures startTime == old(startTime) && seed == old(seed) && recording == old(recording)
      ensures playing == old(playing) && metadata == old(metadata) && rng == old(rng)
      ensures playbackTimeouts == old(playbackTimeouts) && cleared == old(cleared)
    {
      if !recording {
        return;
      }
      var event := Event(Round(now - startTime), EncodeType(kind));
      events := events + [event];
    }

    /** `stopRecording`: recording off; the metadata is the given one with `date` set to `now`. */
    method StopRecording(final: map<string, Json>, now: int)
      modifies this
      ensures !recording && metadata == final["date" := Num(now as real)]
      ensures "date" in metadata && metadata["date"] == Num(now as real)
      ensures forall key :: key in final && key != "date" ==> key in metadata && metadata[key] == final[key]
      ensures events == old(events) && startTime == old(startTime) && seed == old(seed)
      ensures playing == old(playing) && rng == old(rng)
      ensures playbackTimeouts == old(playbackTimeouts) && cleared == old(cleared)
    {
      recording := false;
      metadata := final["date" := Num(now as real)];
    }

    /** `export` of the current replay, as parsed data. */
    function ExportData(): (j: Json)
      reads this
      ensures Import(j).Some? <==> seed != 0
    {
      ExportImport(seed, metadata, events);
      Export(seed, metadata, events)
    }

    /** What the timeout of an event does when it runs: nothing unless playing, otherwise the callback of its full type, if there is one. */
    function Fires(e: Event, callbacks: set<string>): (called: Option<string>)
      reads this
      ensures !playing ==> called.None?
      ensures playing ==> (called.Some? <==> DecodeType(e.kind) in callbacks)
      ensures called.Some? ==> called.value == DecodeType(e.kind)
    {
      if !playing then None
      else
        var eventType := DecodeType(e.kind);
        if eventType in callbacks then Some(eventType) else None
    }

    /** During playback an event recorded with one of the seven types calls that type's callback. */
    lemma RecordedTypePlaysBack(kind: string, t: int, callbacks: set<string>)
      requires playing && kind in Names && kind in callbacks
      ensures Fires(Event(t, EncodeType(kind)), callbacks) == Some(kind)
    {
      TypeRoundTrip(kind);
    }

    /** `stopPlayback`: playing off, every scheduled timeout cleared, and the list emptied. */
    method StopPlayback()
      modifies this
      ensures !playing && playbackTimeouts == [] && cleared == old(cleared) + old(playbackTimeouts)
      ensures events == old(events) && startTime == old(startTime) && seed == old(seed)
      ensures recording == old(recording) && metadata == old(metadata) && rng == old(rng)
    {
      playing := false;
      cleared := cleared + playbackTimeouts;
      playbackTimeouts := [];
    }

    /**
     * `startPlayback` as written: it sets `playing`, then clears any earlier
     * playback with `stopPlayback`, which sets `playing` back to false, and
     * only then schedules the events. Every event timeout therefore finds
     * playback off and calls nothing.
     */
    method StartPlaybackAsWritten(replay: ReplayData, hasOnComplete: bool)
      modifies this
      ensures seed == replay.seed && events == replay.events && metadata == replay.metadata
      ensures fresh(rng) && rng.state == Prng.ToWord(seed)
      ensures |playbackTimeouts| == |events| + (if |events| > 0 && hasOnComplete then 1 else 0)
      ensures forall k :: 0 <= k < |events| ==> playbackTimeouts[k] == EventTimer(events[k].t, events[k])
      ensures !playing
      ensures forall k, callbacks :: 0 <= k < |events| ==> Fires(events[k], callbacks).None?
    {
      playing := true;
      seed := replay.seed;
      rng := new Prng.Mulberry32(seed);
      events := replay.events;
      metadata := replay.metadata;
      StopPlayback();
      var timers := ScheduleTimers(events, hasOnComplete);
      playbackTimeouts := playbackTimeouts + timers;
      assert playbackTimeouts == timers;
      forall k, callbacks | 0 <= k < |events|
        ensures Fires(events[k], callbacks).None?
      {
      }
    }

    /**
     * `startPlayback` with the earlier playback cleared before `playing` is
     * set: the events are scheduled in order with the completion timeout
     * after them, and every event timeout calls the callback of its full
     * type when there is one.
     */
    method StartPlayback(replay: ReplayData, hasOnComplete: bool)
      modifies this
      ensures seed == replay.seed && events == replay.events && metadata == replay.metadata
      ensures fresh(rng) && rng.state == Prng.ToWord(seed)
      ensures |playbackTimeouts| == |events| + (if |events| > 0 && hasOnComplete then 1 else 0)
      ensures forall k :: 0 <= k < |events| ==> playbackTimeouts[k] == EventTimer(events[k].t, events[k])
      ensures |events| > 0 && hasOnComplete ==>
                playbackTimeouts[|events|] == CompletionTimer(events[|events| - 1].t + CompletionDelay)
      ensures cleared == old(cleared) + old(playbackTimeouts)
      ensures playing
      ensures forall k, callbacks :: 0 <= k < |events| && DecodeType(events[k].kind) in callbacks ==>
                Fires(events[k], callbacks) == Some(DecodeType(events[k].kind))
    {
      StopPlayback();
      playing := true;
      seed := replay.seed;
      rng := new Prng.Mulberry32(seed);
      events := replay.events;
      metadata := replay.metadata;
      var timers := ScheduleTimers(events, hasOnComplete);
      playbackTimeouts := timers;
    }

    /** The entry `saveReplay(name)` adds at time `now`: the exported data and the metadata. */
    function Snapshot(name: string, now: int): (r: SavedReplay)
      reads this
      ensures r.name == name && r.savedAt == now && r.metadata == metadata
      ensures Import(r.data).Some? <==> seed != 0
    {
      SavedReplay(name, ExportData(), metadata, now)
    }
  }
}
