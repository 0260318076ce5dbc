/** The audio and lip-sync scheduler (frontend/src/hooks/useVisemePlayer.js):
    a queue of audio chunks drained one batch at a time behind an
    `isPlaying` guard, a running end time of the audio scheduled so far,
    and viseme cues timed against that end time.

    Times are real seconds on the audio clock (`currentTime`, passed in
    as `now`); timer delays are real milliseconds. Decoding is not
    modelled: its outcome is an event, success with the decoded duration
    or failure. */
module VisemePlayer {
  import opened Common

  /** When a decoded batch starts: at the end of what is already
      scheduled, or now if that end has passed. */
  function StartTime(playbackTime: real, now: real): (t: real)
    ensures t >= playbackTime && t >= now
    ensures t == playbackTime || t == now
  {
    MaxReal(playbackTime, now)
  }

  /** One entry of the `visemes` list `handleViseme` is given: a mouth shape
      `value` due `time` seconds into the audio. */
  datatype Cue = Cue(time: real, value: string)

  /** A pending `setTimeout` that will show `value` after `delay` ms. */
  datatype Timer = Timer(delay: real, value: string)

  /** The delay `handleViseme` gives a cue: the cue's offset from the start
      of the next batch (the end of the audio scheduled so far, or now),
      in ms, and never negative. */
  function CueDelay(playbackTime: real, now: real, time: real): (d: real)
    ensures d >= 0.0
    ensures d >= (StartTime(playbackTime, now) - now + time) * 1000.0
    ensures d == 0.0 || d == (StartTime(playbackTime, now) - now + time) * 1000.0
  {
    MaxReal(0.0, (StartTime(playbackTime, now) - now + time) * 1000.0)
  }

  /** A later cue never gets a shorter delay. */
  lemma CueDelayMonotone(playbackTime: real, now: real, t1: real, t2: real)
    requires t1 <= t2
    ensures CueDelay(playbackTime, now, t1) <= CueDelay(playbackTime, now, t2)
  {
    var base := StartTime(playbackTime, now) - now;
    assert (base + t1) * 1000.0 <= (base + t2) * 1000.0;
  }

  /** A cue at a non-negative offset is not clamped, and it fires no
      earlier than the already scheduled audio ends: its delay is its
      offset plus the time left until then. */
  lemma CueDelayAfterScheduledAudio(playbackTime: real, now: real, time: real)
    requires time >= 0.0
    ensures CueDelay(playbackTime, now, time) == (StartTime(playbackTime, now) - now + time) * 1000.0
    ensures CueDelay(playbackTime, now, time) >= (playbackTime - now) * 1000.0
    ensures CueDelay(playbackTime, now, time) >= time * 1000.0
  {
    var s := StartTime(playbackTime, now);
    assert (s - now + time) * 1000.0 >= 0.0;
    assert (s - now + time) * 1000.0 >= (playbackTime - now) * 1000.0;
    assert (s - now + time) * 1000.0 >= time * 1000.0;
  }

  /** The timers `handleViseme` sets, one per cue in list order. */
  function CueTimers(visemes: seq<Cue>, playbackTime: real, now: real): (r: seq<Timer>)
    ensures |r| == |visemes|
    ensures forall i :: 0 <= i < |r| ==> r[i].value == visemes[i].value && r[i].delay >= 0.0
    ensures forall i :: 0 <= i < |r| ==> r[i].delay == CueDelay(playbackTime, now, visemes[i].time)
  {
    seq(|visemes|, i requires 0 <= i < |visemes| => Timer(CueDelay(playbackTime, now, visemes[i].time), visemes[i].value))
  }

  /** A started audio source: when it starts, how long it lasts, and the
      bytes it was decoded from. */
  datatype Segment = Segment(start: real, duration: real, audio: seq<byte>)

  /** Scheduled segments never overlap: each ends before the next starts,
      and all end by `playbackTime`. */
  predicate Sequential(segments: seq<Segment>, playbackTime: real)
  {
    && (forall i :: 0 <= i < |segments| ==>
          segments[i].duration >= 0.0 && segments[i].start + segments[i].duration <= playbackTime)
    && (forall i, j :: 0 <= i < j < |segments| ==> segments[i].start + segments[i].duration <= segments[j].start)
  }

  /** Appending a segment that starts at or after `playbackTime` keeps the
      segments sequential, with the new end as the new `playbackTime`. */
  lemma SequentialSnoc(segments: seq<Segment>, playbackTime: real, s: Segment)
    requires Sequential(segments, playbackTime)
    requires s.start >= playbackTime && s.duration >= 0.0
    ensures Sequential(segments + [s], s.start + s.duration)
  {
    var t := segments + [s];
    forall i, j | 0 <= i < j < |t| ensures t[i].start + t[i].duration <= t[j].start {
      if j == |segments| {
        assert t[i] == segments[i];
      } else {
        assert t[i] == segments[i] && t[j] == segments[j];
      }
    }
  }

  class Player {
    /** `currentViseme`. */
    var currentViseme: string
    /** `audioQueue`. */
    var queue: seq<seq<byte>>
    /** `isPlaying`. */
    var isPlaying: bool
    /** `audioPlaybackTime`. */
    var playbackTime: real
    /** The batch handed to `decodeAudioData` whose callback has not run. */
    var decoding: Option<seq<byte>>
    /** The started source whose `onended` has not run. */
    var playing: Option<Segment>
    /** Every segment started so far, in order (a record for the proofs;
        the hook keeps only their end, `playbackTime`). */
    ghost var scheduled: seq<Segment>
    /** The viseme timers that have not fired. */
    var timers: seq<Timer>

    /** `isPlaying` is set exactly while a batch is being decoded or
        played, never both; the scheduled audio never overlaps; every
        pending viseme delay is non-negative. */
    ghost predicate Valid()
      reads this
    {
      && (isPlaying <==> decoding.Some? || playing.Some?)
      && !(decoding.Some? && playing.Some?)
      && playbackTime >= 0.0
      && Sequential(scheduled, playbackTime)
      && (forall i :: 0 <= i < |timers| ==> timers[i].delay >= 0.0)
    }

    /** `useVisemePlayer()` on first render: the mouth is closed ('sil'),
        nothing is queued or playing, and the playback time is 0. */
    constructor ()
      ensures Valid()
      ensures currentViseme == "sil" && queue == [] && !isPlaying && playbackTime == 0.0
      ensures decoding == None && playing == None && scheduled == [] && timers == []
    {
      currentViseme := "sil";
      queue := [];
      isPlaying := false;
      playbackTime := 0.0;
      decoding := None;
      playing := None;
      scheduled := [];
      timers := [];
    }

    /** `processAudioQueue`: nothing happens while a batch is in flight or
        when the queue is empty; otherwise the whole queue is taken at
        once, its chunks joined in arrival order, and handed to the
        decoder. */
    method ProcessAudioQueue()
      requires Valid()
      modifies this
      ensures Valid()
      ensures old(isPlaying) || old(queue) == [] ==>
        queue == old(queue) && isPlaying == old(isPlaying) && decoding == old(decoding)
      ensures !old(isPlaying) && old(queue) != [] ==>
        isPlaying && queue == [] && decoding == Some(Concat(old(queue)))
      ensures playing == old(playing) && playbackTime == old(playbackTime) && scheduled == old(scheduled)
      ensures timers == old(timers) && currentViseme == old(currentViseme)
    {
      if isPlaying || |queue| == 0 {
        return;
      }
      isPlaying := true;
      var chunksToProcess := queue;
      queue := [];
      var blob := Concat(chunksToProcess);
      decoding := Some(blob);
    }

    /** `addAudioChunk`: the chunk joins the end of the queue, and the
        queue is processed. */
    method AddAudioChunk(chunk: seq<byte>)
      requires Valid()
      modifies this
      ensures Valid()
      ensures old(isPlaying) ==>
        queue == old(queue) + [chunk] && isPlaying && decoding == old(decoding)
      ensures !old(isPlaying) ==>
        isPlaying && queue == [] && decoding == Some(Concat(old(queue) + [chunk]))
      ensures playing == old(playing) && playbackTime == old(playbackTime) && scheduled == old(scheduled)
      ensures timers == old(timers) && currentViseme == old(currentViseme)
    {
      queue := queue + [chunk];
      ProcessAudioQueue();
    }

    /** The decoder's success callback, at audio time `now`, with the
        decoded duration: the batch starts when the scheduled audio ends,
        or now if that is past; the playback time moves to its end. */
    method DecodeSucceeded(now: real, duration: real)
      requires Valid() && decoding.Some? && duration >= 0.0
      modifies this
      ensures Valid()
      ensures var start := StartTime(old(playbackTime), now);
        && playing == Some(Segment(start, duration, old(decoding).value))
        && scheduled == old(scheduled) + [Segment(start, duration, old(decoding).value)]
        && playbackTime == start + duration
      ensures playbackTime >= old(playbackTime) && playbackTime >= now
      ensures decoding == None && isPlaying && queue == old(queue)
      ensures timers == old(timers) && currentViseme == old(currentViseme)
    {
      var startTime := if playbackTime < now then now else playbackTime;
      var segment := Segment(startTime, duration, decoding.value);
      SequentialSnoc(scheduled, playbackTime, segment);
      scheduled := scheduled + [segment];
      playbackTime := startTime + duration;
      playing := Some(segment);
      decoding := None;
    }

    /** The decoder's error callback: the guard is lifted, the batch is
        lost, and the queue is not looked at again until the next chunk. */
    method DecodeFailed()
      requires Valid() && decoding.Some?
      modifies this
      ensures Valid()
      ensures !isPlaying && decoding == None && queue == old(queue)
      ensures playing == old(playing) && playbackTime == old(playbackTime) && scheduled == old(scheduled)
      ensures timers == old(timers) && currentViseme == old(currentViseme)
    {
      isPlaying := false;
      decoding := None;
    }

    /** The source's `onended`: the guard is lifted and the queue is
        processed again, so chunks that came in during playback are played
        next. */
    method SegmentEnded()
      requires Valid() && playing.Some?
      modifies this
      ensures Valid()
      ensures playing == None
      ensures old(queue) == [] ==> !isPlaying && queue == [] && decoding == None
      ensures old(queue) != [] ==> isPlaying && queue == [] && decoding == Some(Concat(old(queue)))
      ensures playbackTime == old(playbackTime) && scheduled == old(scheduled)
      ensures timers == old(timers) && currentViseme == old(currentViseme)
    {
      playing := None;
      isPlaying := false;
      ProcessAudioQueue();
    }

    /** `handleViseme` at audio time `now`: one timer per cue, in list
        order, timed from the end of the scheduled audio (or now); the
        playback time itself is only read. */
    method HandleViseme(visemes: seq<Cue>, now: real)
      requires Valid()
      modifies this
      ensures Valid()
      ensures timers == old(timers) + CueTimers(visemes, old(playbackTime), now)
      ensures queue == old(queue) && isPlaying == old(isPlaying) && playbackTime == old(playbackTime)
      ensures decoding == old(decoding) && playing == old(playing) && scheduled == old(scheduled)
      ensures currentViseme == old(currentViseme)
    {
      var base := playbackTime;
      if base < now {
        base := now;
      }
      var i := 0;
      while i < |visemes|
        invariant 0 <= i <= |visemes|
        invariant timers == old(timers) + CueTimers(visemes[..i], old(playbackTime), now)
        invariant queue == old(queue) && isPlaying == old(isPlaying) && playbackTime == old(playbackTime)
        invariant decoding == old(decoding) && playing == old(playing) && scheduled == old(scheduled)
        invariant currentViseme == old(currentViseme)
        invariant Valid()
      {
        var delay := (base - now + visemes[i].time) * 1000.0;
        var t := Timer(MaxReal(0.0, delay), visemes[i].value);
        assert t == Timer(CueDelay(playbackTime, now, visemes[i].time), visemes[i].value);
        assert CueTimers(visemes[..i + 1], playbackTime, now) == CueTimers(visemes[..i], playbackTime, now) + [t];
        timers := timers + [t];
        i := i + 1;
      }
      assert visemes[..i] == visemes;
    }

    /** The timer of entry `k` fires: its viseme becomes the current one.
        No other event changes `currentViseme`. */
    method CueFires(k: nat)
      requires Valid() && k < |timers|
      modifies this
      ensures Valid()
      ensures currentViseme == old(timers)[k].value
      ensures timers == old(timers)[..k] + old(timers)[k + 1..]
      ensures queue == old(queue) && isPlaying == old(isPlaying) && playbackTime == old(playbackTime)
      ensures decoding == old(decoding) && playing == old(playing) && scheduled == old(scheduled)
    {
      currentViseme := timers[k].value;
      timers := timers[..k] + timers[k + 1..];
    }
  }
}
