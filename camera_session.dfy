/** The one-shot camera session of the gate and food screens: list the cameras, start the first
    one, stop on the first decoded text, and only then handle that text. The scanner library's
    promises become events the session reacts to. */
module CameraSession {
  import opened Js
  import opened Transport
  import opened Scanning

  const NoCameraText := "No camera found"
  const PermissionText := "Camera permission denied or not available"

  /** Where the session is. `Stopping` remembers the text whose decode asked for the stop. */
  datatype Phase =
    | Listing
    | Starting(camera: string)
    | Running(camera: string)
    | Stopping(camera: string, text: string)
    | Stopped
    | Idle

  class Scanner {
    /** Which screen the session belongs to. */
    const screen: Screen
    var phase: Phase
    /** Every text written to the result element, in order. */
    var shown: seq<Display>
    /** Every apiGet call made, in order. */
    var calls: seq<Params>
    /** Every camera start requested, in order. */
    var started: seq<string>

    /** At most one camera start and at most one verification per session, and a verification
        only once the camera has stopped for good. */
    predicate Valid()
      reads this
    {
      && |started| <= 1
      && |calls| <= 1
      && (calls != [] ==> phase == Stopped)
      && (phase.Listing? ==> started == [])
      && (phase.Starting? || phase.Running? || phase.Stopping? ==> started == [phase.camera])
    }

    /** Page load: the scanner exists and the camera list is being fetched. */
    constructor(screen: Screen)
      ensures Valid()
      ensures this.screen == screen && phase == Listing && shown == [] && calls == [] && started == []
    {
      this.screen := screen;
      phase := Listing;
      shown := [];
      calls := [];
      started := [];
    }

    /** `getCameras()` resolved: start the first camera, or report that there is none. */
    method CamerasListed(cameras: seq<string>)
      requires Valid()
      modifies this
      ensures Valid()
      ensures old(phase).Listing? && cameras != [] ==>
        phase == Starting(cameras[0]) && started == [cameras[0]] && shown == old(shown) && calls == old(calls)
      ensures old(phase).Listing? && cameras == [] ==>
        phase == Idle && shown == old(shown) + [Plain(NoCameraText)] && started == old(started) && calls == old(calls)
      ensures !old(phase).Listing? ==>
        phase == old(phase) && shown == old(shown) && calls == old(calls) && started == old(started)
    {
      if phase.Listing? {
        if |cameras| > 0 {
          started := started + [cameras[0]];
          phase := Starting(cameras[0]);
        } else {
          shown := shown + [Plain(NoCameraText)];
          phase := Idle;
        }
      }
    }

    /** `getCameras()` rejected. */
    method CamerasFailed()
      requires Valid()
      modifies this
      ensures Valid()
      ensures old(phase).Listing? ==>
        phase == Idle && shown == old(shown) + [Plain(PermissionText)] && calls == old(calls) && started == old(started)
      ensures !old(phase).Listing? ==>
        phase == old(phase) && shown == old(shown) && calls == old(calls) && started == old(started)
    {
      if phase.Listing? {
        shown := shown + [Plain(PermissionText)];
        phase := Idle;
      }
    }

    /** `start(...)` settled. Its rejection is not handled: the session just ends. */
    method StartSettled(ok: bool)
      requires Valid()
      modifies this
      ensures Valid()
      ensures old(phase).Starting? ==> phase == (if ok then Running(old(phase).camera) else Idle)
      ensures !old(phase).Starting? ==> phase == old(phase)
      ensures shown == old(shown) && calls == old(calls) && started == old(started)
    {
      if phase.Starting? {
        phase := if ok then Running(phase.camera) else Idle;
      }
    }

    /** The library reported a decoded text: the handler asks for `stop()` and does nothing else
        yet. Decodes arrive only while the camera runs. */
    method FrameDecoded(text: string)
      requires Valid()
      modifies this
      ensures Valid()
      ensures old(phase).Running? ==> phase == Stopping(old(phase).camera, text)
      ensures !old(phase).Running? ==> phase == old(phase)
      ensures shown == old(shown) && calls == old(calls) && started == old(started)
    {
      if phase.Running? {
        phase := Stopping(phase.camera, text);
      }
    }

    /** `stop()` settled. On success the decoded text is handled, with the verification request
        answered by `net` from fetch number `next`; the camera is never started again. On failure
        nothing is parsed or requested, and the camera keeps running. */
    method StopSettled(ok: bool, net: Network, next: nat)
      requires Valid()
      modifies this
      ensures Valid()
      ensures old(phase).Stopping? && ok ==>
        var o := AfterStop(screen, old(phase).text, net, next);
        phase == Stopped && shown == old(shown) + o.shown && calls == old(calls) + o.calls
      ensures old(phase).Stopping? && !ok ==>
        phase == Running(old(phase).camera) && shown == old(shown) && calls == old(calls)
      ensures !old(phase).Stopping? ==> phase == old(phase) && shown == old(shown) && calls == old(calls)
      ensures started == old(started)
    {
      if phase.Stopping? {
        if ok {
          var o := AfterStop(screen, phase.text, net, next);
          shown := shown + o.shown;
          calls := calls + o.calls;
          phase := Stopped;
        } else {
          phase := Running(phase.camera);
        }
      }
    }
  }

  /** The events the library and the network deliver to a session. */
  datatype Event =
    | Listed(cameras: seq<string>)
    | ListFailed
    | StartDone(startOk: bool)
    | Decoded(text: string)
    | StopDone(stopOk: bool, net: Network, next: nat)

  /** Deliver `events` in order to a fresh session. Whatever the order, the session starts at most
      one camera and verifies at most one pass. */
  method RunSession(screen: Screen, events: seq<Event>) returns (s: Scanner)
    ensures fresh(s) && s.Valid()
    ensures |s.calls| <= 1 && |s.started| <= 1
  {
    s := new Scanner(screen);
    var i := 0;
    while i < |events|
      invariant 0 <= i <= |events|
      invariant fresh(s) && s.Valid()
    {
      match events[i] {
        case Listed(cameras) => s.CamerasListed(cameras);
        case ListFailed => s.CamerasFailed();
        case StartDone(ok) => s.StartSettled(ok);
        case Decoded(text) => s.FrameDecoded(text);
        case StopDone(ok, net, next) => s.StopSettled(ok, net, next);
      }
      i := i + 1;
    }
  }

  /** A session on either screen: first camera started, a pass decoded, the camera stopped. The
      result element then shows the scanned text and the guard's or the server's verdict, and
      exactly the decoded text's REG is asked about. */
  method ScanScenario(screen: Screen, camera: string, others: seq<string>, text: string, net: Network, next: nat)
    returns (s: Scanner)
    ensures s.screen == screen && s.phase == Stopped && s.started == [camera]
    ensures s.shown == AfterStop(screen, text, net, next).shown
    ensures s.calls == AfterStop(screen, text, net, next).calls
  {
    s := new Scanner(screen);
    s.CamerasListed([camera] + others);
    s.StartSettled(true);
    s.FrameDecoded(text);
    s.StopSettled(true, net, next);
    assert [] + AfterStop(screen, text, net, next).shown == AfterStop(screen, text, net, next).shown;
  }
}
