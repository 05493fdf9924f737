/** The scanning session: the four module-level variables of the page
    script, the camera start guard, the per-frame polling loop, the QR
    handler with its unconditional cleanup, and the close button. */
module Scanner {
  import opened Wrappers
  import opened Tickets
  import opened Store
  import opened Redemption

  /** A camera stream granted by the browser. */
  datatype MediaStream = MediaStream(id: nat)

  /** The video element created for a stream. */
  datatype VideoElement = VideoElement(srcObject: MediaStream)

  /** `requestAnimationFrame` handles are positive integers. */
  type FrameHandle = n: int | 0 < n witness 1

  /** The session variables, plus what the host has been asked to do:
      `frameRequests` counts the animation frames requested so far (the next
      request returns `frameRequests + 1`), and `released` lists the streams
      whose tracks have been stopped, in order. */
  datatype Session = Session(
    videoEl: Option<VideoElement>,
    cameraStream: Option<MediaStream>,
    rafId: Option<FrameHandle>,
    scanning: bool,
    frameRequests: nat,
    released: seq<MediaStream>)

  /** No video, no stream, no pending frame, no handler running. */
  predicate Idle(s: Session)
  {
    s.videoEl.None? && s.cameraStream.None? && s.rafId.None? && !s.scanning
  }

  /** What `stopCamera` does to the session. */
  function Stop(s: Session): (r: Session)
    ensures Idle(r)
    ensures r.frameRequests == s.frameRequests
    ensures s.cameraStream.Some? ==> r.released == s.released + [s.cameraStream.value]
    ensures s.cameraStream.None? ==> r.released == s.released
    ensures Idle(s) ==> r == s
  {
    Session(None, None, None, false, s.frameRequests,
            if s.cameraStream.Some? then s.released + [s.cameraStream.value] else s.released)
  }

  /** What one animation frame shows the decoder: not enough data buffered
      yet, or a frame with the decoder's result. */
  datatype Frame = NotReady | Ready(code: Option<string>)

  /** A frame that makes `tick` hand a code over (`code?.data` is truthy). */
  predicate Decodable(f: Frame)
  {
    f.Ready? && f.code.Some? && f.code.value != ""
  }

  /** The index of the first frame that yields a code. */
  function FirstCode(frames: seq<Frame>): (r: Option<nat>)
    ensures r.Some? ==> r.value < |frames| && Decodable(frames[r.value])
    ensures r.Some? ==> forall j :: 0 <= j < r.value ==> !Decodable(frames[j])
    ensures r.None? ==> forall j :: 0 <= j < |frames| ==> !Decodable(frames[j])
  {
    if frames == [] then None
    else if Decodable(frames[0]) then Some(0)
    else
      match FirstCode(frames[1..])
      case None => None
      case Some(i) => Some(i + 1)
  }

  /** The session after `n` ticks that each rescheduled themselves. */
  function Ticked(s: Session, n: nat): (r: Session)
    ensures r.videoEl == s.videoEl && r.cameraStream == s.cameraStream
    ensures r.scanning == s.scanning && r.released == s.released
    ensures r.frameRequests == s.frameRequests + n
    ensures n == 0 ==> r.rafId == s.rafId
    ensures n > 0 ==> r.rafId == Some(s.frameRequests + n)
  {
    if n == 0 then s
    else s.(rafId := Some(s.frameRequests + n), frameRequests := s.frameRequests + n)
  }

  /** Everything the scanner and the store hold. */
  datatype World = World(session: Session, store: Partitions, calls: seq<StoreCall>)

  datatype Handled = Handled(world: World, result: Option<Outcome>)

  /** `handleQRCode(data)`: ignored while a handler is running; otherwise one
      redemption followed, on every outcome, by `stopCamera`. */
  function HandleSpec(decode: string -> Option<Ticket>, w: World, data: string, faults: StoreFaults): (r: Handled)
    ensures w.session.scanning ==> r == Handled(w, None)
    ensures !w.session.scanning ==> r.result.Some? && Idle(r.world.session)
    ensures !w.session.scanning ==> r.world.session == Stop(w.session)
    ensures r.world.session.frameRequests == w.session.frameRequests
    ensures !w.session.scanning && w.session.cameraStream.Some? ==>
      r.world.session.released == w.session.released + [w.session.cameraStream.value]
    ensures !w.session.scanning ==>
      var step := Redeem(w.store, decode(data), faults);
      r.result == Some(step.outcome) && r.world.store == step.after && r.world.calls == w.calls + step.calls
    ensures r.result == Some(Invalid) ==> r.world.store == w.store
    ensures decode(data).None? ==> r.world.store == w.store && r.world.calls == w.calls
  {
    if w.session.scanning then Handled(w, None)
    else
      var step := Redeem(w.store, decode(data), faults);
      Handled(World(Stop(w.session), step.after, w.calls + step.calls), Some(step.outcome))
  }

  /** How the polling loop ends: it never ran (no video), it is still
      waiting for a code, or it handed one code to the handler. */
  datatype LoopResult = Stopped | Pending | Decoded(code: string, outcome: Option<Outcome>)

  datatype Looped = Looped(world: World, result: LoopResult)

  /** `scanLoop` and the ticks that follow it, one per frame in `frames`; the
      first tick runs synchronously, so there is always at least one. */
  function LoopSpec(decode: string -> Option<Ticket>, w: World, frames: seq<Frame>, faults: StoreFaults): (r: Looped)
    requires frames != []
    ensures r.result.Stopped? <==> w.session.videoEl.None?
    ensures r.result.Stopped? ==> r.world == w
    // The string handed over is the first code any frame yields.
    ensures r.result.Decoded? ==>
      exists i :: 0 <= i < |frames| && Decodable(frames[i]) && frames[i].code.value == r.result.code
        && forall j :: 0 <= j < i ==> !Decodable(frames[j])
    ensures r.result.Pending? ==> forall j :: 0 <= j < |frames| ==> !Decodable(frames[j])
    // While no code is found the store is untouched and the loop stays scheduled.
    ensures !r.result.Decoded? ==> r.world.store == w.store && r.world.calls == w.calls
    ensures r.result.Pending? ==>
      && r.world.session.videoEl == w.session.videoEl
      && r.world.session.cameraStream == w.session.cameraStream
      && r.world.session.scanning == w.session.scanning
      && r.world.session.rafId == Some(w.session.frameRequests + |frames|)
      && r.world.session.frameRequests == w.session.frameRequests + |frames|
      && r.world.session.released == w.session.released
    // The code is handled once, after the ticks before it rescheduled themselves.
    ensures r.result.Decoded? ==>
      && FirstCode(frames).Some?
      && r.result.code == frames[FirstCode(frames).value].code.value
      && Handled(r.world, r.result.outcome)
         == HandleSpec(decode, w.(session := Ticked(w.session, FirstCode(frames).value)), r.result.code, faults)
    // A handled code ends the session.
    ensures r.result.Decoded? && !w.session.scanning ==> Idle(r.world.session)
  {
    if w.session.videoEl.None? then Looped(w, Stopped)
    else
      match FirstCode(frames)
      case None => Looped(w.(session := Ticked(w.session, |frames|)), Pending)
      case Some(i) =>
        var code := frames[i].code.value;
        var h := HandleSpec(decode, w.(session := Ticked(w.session, i)), code, faults);
        Looped(h.world, Decoded(code, h.result))
  }

  /** How `startCamera` ends. */
  datatype StartResult = AlreadyStarted | CannotAccessCamera | Started(loop: LoopResult)

  datatype StartStep = StartStep(world: World, result: StartResult)

  /** `startCamera`: `camera` is what `getUserMedia` grants (`None` when it
      rejects), `playOk` whether `play()` resolves. */
  function StartSpec(decode: string -> Option<Ticket>, w: World, camera: Option<MediaStream>, playOk: bool,
                     frames: seq<Frame>, faults: StoreFaults): (r: StartStep)
    requires frames != []
    ensures w.session.videoEl.Some? <==> r.result.AlreadyStarted?
    ensures r.result.AlreadyStarted? ==> r.world == w
    // A camera failure never starts the loop, touches the store or the guard.
    ensures r.result.CannotAccessCamera? ==>
      && r.world.store == w.store && r.world.calls == w.calls
      && r.world.session.scanning == w.session.scanning
      && r.world.session.rafId == w.session.rafId
      && r.world.session.frameRequests == w.session.frameRequests
    // A failed play() keeps the video and the stream it was attached to.
    ensures w.session.videoEl.None? && camera.Some? && !playOk ==>
      && r.result.CannotAccessCamera?
      && r.world.session.videoEl == Some(VideoElement(camera.value))
      && r.world.session.cameraStream == camera
      && r.world.session.released == w.session.released
    // A denied camera changes nothing at all, so a retry starts afresh.
    ensures w.session.videoEl.None? && camera.None? ==> r == StartStep(w, CannotAccessCamera)
    // The loop starts exactly when the camera is granted and plays.
    ensures r.result.Started? <==> w.session.videoEl.None? && camera.Some? && playOk
    ensures r.result.Started? ==>
      var shown := w.(session := w.session.(cameraStream := camera, videoEl := Some(VideoElement(camera.value))));
      !r.result.loop.Stopped? && Looped(r.world, r.result.loop) == LoopSpec(decode, shown, frames, faults)
  {
    if w.session.videoEl.Some? then StartStep(w, AlreadyStarted)
    else if camera.None? then StartStep(w, CannotAccessCamera)
    else
      var shown := w.(session := w.session.(cameraStream := camera, videoEl := Some(VideoElement(camera.value))));
      if !playOk then StartStep(shown, CannotAccessCamera)
      else
        var l := LoopSpec(decode, shown, frames, faults);
        StartStep(l.world, Started(l.result))
  }

  /** After a failed `play()` the camera button does nothing: every later
      start is ignored until something stops the camera. */
  lemma FailedPlayBlocksRestart(decode: string -> Option<Ticket>, w: World, c: MediaStream,
                                camera: Option<MediaStream>, playOk: bool, frames: seq<Frame>, faults: StoreFaults)
    requires w.session.videoEl.None? && frames != []
    ensures var failed := StartSpec(decode, w, Some(c), false, frames, faults).world;
      StartSpec(decode, failed, camera, playOk, frames, faults) == StartStep(failed, AlreadyStarted)
  {
  }

  /** A session started from idle that decodes a code ends idle, with the
      granted stream's tracks stopped exactly once, whatever the outcome. */
  lemma ReleasedOncePerSession(decode: string -> Option<Ticket>, w: World, c: MediaStream,
                               frames: seq<Frame>, faults: StoreFaults)
    requires Idle(w.session) && FirstCode(frames).Some?
    ensures var r := StartSpec(decode, w, Some(c), true, frames, faults);
      && r.result.Started? && r.result.loop.Decoded? && r.result.loop.outcome.Some?
      && Idle(r.world.session)
      && r.world.session.released == w.session.released + [c]
  {
  }

  /** The page script's state: the session variables and the database. */
  class Scanner {
    const db: TicketStore
    /** `CryptoJS.AES.decrypt` with the embedded secret, then `JSON.parse`. */
    const decode: string -> Option<Ticket>

    var videoEl: Option<VideoElement>
    var cameraStream: Option<MediaStream>
    var rafId: Option<FrameHandle>
    var scanning: bool
    var frameRequests: nat
    var released: seq<MediaStream>

    constructor (db: TicketStore, decode: string -> Option<Ticket>)
      ensures this.db == db && this.decode == decode
      ensures Idle(Vars()) && frameRequests == 0 && released == []
    {
      this.db := db;
      this.decode := decode;
      videoEl, cameraStream, rafId, scanning := None, None, None, false;
      frameRequests, released := 0, [];
    }

    function Vars(): Session
      reads this
    {
      Session(videoEl, cameraStream, rafId, scanning, frameRequests, released)
    }

    function Now(): World
      reads this, db
    {
      World(Vars(), db.State(), db.calls)
    }

    /** `stopCamera`: pause and drop the video, stop the stream's tracks,
        cancel the pending frame, clear the guard. */
    method StopCamera()
      modifies this
      ensures Vars() == Stop(old(Vars()))
    {
      if videoEl.Some? {
        videoEl := None;
      }
      if cameraStream.Some? {
        released := released + [cameraStream.value];
        cameraStream := None;
      }
      if rafId.Some? {
        rafId := None;
      }
      scanning := false;
    }

    /** `handleQRCode(encryptedData)`. */
    method HandleQRCode(encryptedData: string, faults: StoreFaults) returns (result: Option<Outcome>)
      modifies this, db
      ensures Handled(Now(), result) == HandleSpec(decode, old(Now()), encryptedData, faults)
    {
      if scanning {
        return None;
      }
      scanning := true;
      var outcome := Redeeming(encryptedData, faults);
      // the `finally` block
      StopCamera();
      result := Some(outcome);
    }

    /** The `try` block of `handleQRCode`: decrypt, parse, derive the path,
        then read, copy and delete; any exception becomes a Scan Error. */
    method Redeeming(encryptedData: string, faults: StoreFaults) returns (outcome: Outcome)
      modifies db
      ensures var step := Redeem(old(db.State()), decode(encryptedData), faults);
        outcome == step.outcome && db.State() == step.after && db.calls == old(db.calls) + step.calls
    {
      var parsed := decode(encryptedData);
      if parsed.None? || parsed.value.key.None? {
        // decrypt or parse threw, or `data.key.slice` did
        return ScanError;
      }
      var data := parsed.value;
      var path := DerivedPath(data.name, data.key.value);
      var snap := db.Read(Unused, path, faults.getFails);
      if snap.Failed? {
        return ScanError;
      }
      if snap.value.None? {
        return Invalid;
      }
      var ok := db.Write(Used, path, snap.value.value, faults.setFails);
      if !ok {
        return ScanError;
      }
      ok := db.Delete(Unused, path, faults.removeFails);
      outcome := if ok then Approved(data) else ScanError;
    }

    /** `scanLoop` and its `tick`s: `frames[i]` is what the i-th tick sees;
        the first tick runs at once, so at least one frame is seen. */
    method ScanLoop(frames: seq<Frame>, faults: StoreFaults) returns (result: LoopResult)
      requires frames != []
      modifies this, db
      ensures Looped(Now(), result) == LoopSpec(decode, old(Now()), frames, faults)
    {
      if videoEl.None? {
        return Stopped;
      }
      var i := 0;
      while i < |frames| && videoEl.Some?
        invariant 0 <= i <= |frames|
        invariant forall j :: 0 <= j < i ==> !Decodable(frames[j])
        invariant Now() == old(Now()).(session := Ticked(old(Vars()), i))
      {
        if Decodable(frames[i]) {
          var code := frames[i].code.value;
          ghost var ticked := Now();
          assert FirstCode(frames) == Some(i);
          var outcome := HandleQRCode(code, faults);
          assert Handled(Now(), outcome) == HandleSpec(decode, ticked, code, faults);
          return Decoded(code, outcome);
        }
        frameRequests := frameRequests + 1;
        rafId := Some(frameRequests);
        i := i + 1;
      }
      result := Pending;
    }

    /** `startCamera`, followed by the scan loop it starts. */
    method StartCamera(camera: Option<MediaStream>, playOk: bool, frames: seq<Frame>, faults: StoreFaults)
      returns (result: StartResult)
      requires frames != []
      modifies this, db
      ensures StartStep(Now(), result) == StartSpec(decode, old(Now()), camera, playOk, frames, faults)
    {
      if videoEl.Some? {
        return AlreadyStarted;
      }
      if camera.None? {
        return CannotAccessCamera;
      }
      cameraStream := camera;
      videoEl := Some(VideoElement(camera.value));
      if !playOk {
        return CannotAccessCamera;
      }
      var loop := ScanLoop(frames, faults);
      result := Started(loop);
    }

    /** The close button: hides the popup and clears the guard, nothing else. */
    method Close()
      modifies this`scanning
      ensures Vars() == old(Vars()).(scanning := false)
    {
      scanning := false;
    }
  }
}
