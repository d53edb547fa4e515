/** The window-size protocol and the per-frame pass order of main.cpp. The resize callback
    (main.cpp:44-48) only records the new size and raises a pending flag; the top of each frame
    (main.cpp:320-338) drains the flag by resetting the viewport and reallocating all six render
    targets at the recorded size; then the four passes run (main.cpp:349-417). GLFW delivers the
    callback only while events are polled at the end of a frame (main.cpp:433). */
module FrameLoop {

  /** A width and height in pixels. */
  datatype Size = Size(width: int, height: int)

  /** The five textures and the depth renderbuffer whose storage follows the window size. */
  datatype Target =
    | PositionTexture
    | NormalTexture
    | AlbedoTexture
    | OcclusionTexture
    | BlurredOcclusionTexture
    | DepthRenderbuffer

  const ALL_TARGETS: set<Target> :=
    {PositionTexture, NormalTexture, AlbedoTexture, OcclusionTexture, BlurredOcclusionTexture, DepthRenderbuffer}

  /** The size-related state: `g_width`/`g_height`, `g_windowResized`, the viewport and the
      storage size of each render target. */
  datatype Window = Window(size: Size, resized: bool, viewport: Size, targets: map<Target, Size>)

  /** The state the frame loop relies on: every target exists and has the viewport's size, and
      without a pending resize the viewport is the window size. */
  predicate Consistent(w: Window) {
    w.targets.Keys == ALL_TARGETS
    && (forall t :: t in w.targets ==> w.targets[t] == w.viewport)
    && (!w.resized ==> w.viewport == w.size)
  }

  /** `onWindowResize` (main.cpp:44-48): the new size is recorded and the flag raised; the
      viewport and the render targets are not touched. */
  function OnResize(w: Window, width: int, height: int): (r: Window)
    ensures r.size == Size(width, height) && r.resized
    ensures r.viewport == w.viewport && r.targets == w.targets
  {
    w.(size := Size(width, height), resized := true)
  }

  /** The six reallocations of main.cpp:326-337, one target after the other. */
  function Reallocate(targets: map<Target, Size>, s: Size): (r: map<Target, Size>)
    ensures r.Keys == targets.Keys + ALL_TARGETS
    ensures forall t :: t in ALL_TARGETS ==> r[t] == s
  {
    targets[PositionTexture := s][NormalTexture := s][AlbedoTexture := s]
           [OcclusionTexture := s][BlurredOcclusionTexture := s][DepthRenderbuffer := s]
  }

  /** The block at the top of the frame loop (main.cpp:320-338). With the flag raised, the
      viewport and every target take the recorded size and the flag is cleared; otherwise
      nothing changes. */
  function Drain(w: Window): (r: Window)
    ensures !r.resized && r.size == w.size
    ensures w.resized ==> r.viewport == w.size && forall t :: t in ALL_TARGETS ==> t in r.targets && r.targets[t] == w.size
    ensures !w.resized ==> r == w
  {
    if w.resized then Window(w.size, false, w.size, Reallocate(w.targets, w.size)) else w
  }

  /** The callback keeps the state consistent: it touches neither the viewport nor the targets,
      and it leaves the flag raised. */
  lemma OnResizeKeepsConsistent(w: Window, width: int, height: int)
    requires Consistent(w)
    ensures Consistent(OnResize(w, width, height))
  {
  }

  /** After the drain every target has the window size: all six targets share one size, the one
      `g_width` and `g_height` hold, whenever a pass runs. */
  lemma DrainMakesTargetsMatchWindow(w: Window)
    requires Consistent(w)
    ensures Consistent(Drain(w))
    ensures forall t :: t in Drain(w).targets ==> Drain(w).targets[t] == Drain(w).size
  {
  }

  /** Draining twice is draining once. */
  lemma DrainIdempotent(w: Window)
    ensures Drain(Drain(w)) == Drain(w)
  {
  }

  /** The callbacks delivered in one round of event polling, in order. */
  function AfterEvents(w: Window, events: seq<Size>): (r: Window)
    ensures r.viewport == w.viewport && r.targets == w.targets
    ensures |events| > 0 ==> r.resized && r.size == events[|events| - 1]
    ensures |events| == 0 ==> r == w
  {
    if |events| == 0 then w
    else
      var last := events[|events| - 1];
      OnResize(AfterEvents(w, events[..|events| - 1]), last.width, last.height)
  }

  /** Several callbacks between two frames coalesce: the next drain applies only the last size,
      whatever came before it. */
  lemma {:induction false} ResizesCoalesce(w: Window, events: seq<Size>)
    requires Consistent(w) && |events| > 0
    ensures Consistent(AfterEvents(w, events))
    ensures Drain(AfterEvents(w, events)) == Drain(OnResize(w, events[|events| - 1].width, events[|events| - 1].height))
  {
    if |events| > 1 {
      ResizesCoalesce(w, events[..|events| - 1]);
    }
  }

  /** Resizing to (W, H) and back, with a frame in between, restores the targets of a settled
      window of the original size. */
  lemma ResizeRoundTrip(w: Window, width: int, height: int)
    requires Consistent(w) && !w.resized
    ensures Drain(OnResize(Drain(OnResize(w, width, height)), w.size.width, w.size.height)) == w
  {
    var back := Drain(OnResize(Drain(OnResize(w, width, height)), w.size.width, w.size.height));
    assert back.targets.Keys == w.targets.Keys;
  }

  /** One pass of the frame, with the values the code hands to its shader. */
  datatype Pass =
    | GeometryPass              // main.cpp:349-358, into the G-buffer
    | OcclusionPass(screen: Size)  // main.cpp:360-383, with `g_width` and `g_height` as uniforms
    | BlurPass(enabled: int)    // main.cpp:385-396, with the blur flag as an integer uniform
    | CompositionPass           // main.cpp:398-417, to the default framebuffer

  /** `g_shouldBlur ? 1 : 0` (main.cpp:393): the integer the blur shader receives, 1 exactly when
      blurring is on and 0 exactly when it is off. */
  function BlurUniform(shouldBlur: bool): (enabled: int)
    ensures enabled == 0 || enabled == 1
    ensures enabled == 1 <==> shouldBlur
  {
    if shouldBlur then 1 else 0
  }

  /** The passes of one frame, in their fixed order. */
  function FramePasses(screen: Size, shouldBlur: bool): (passes: seq<Pass>)
    ensures |passes| == 4
    ensures passes[0].GeometryPass? && passes[1].OcclusionPass? && passes[2].BlurPass? && passes[3].CompositionPass?
    ensures passes[1].screen == screen && (passes[2].enabled == 1 <==> shouldBlur)
  {
    [GeometryPass, OcclusionPass(screen), BlurPass(BlurUniform(shouldBlur)), CompositionPass]
  }

  /** The renderer's global state: the size globals, the flag, the viewport, the target sizes,
      `g_shouldBlur`, and the log of passes run so far. */
  class Renderer {
    var width: int
    var height: int
    var resized: bool
    var viewport: Size
    var targets: map<Target, Size>
    var shouldBlur: bool
    var passes: seq<Pass>

    function State(): Window
      reads this
    {
      Window(Size(width, height), resized, viewport, targets)
    }

    predicate Valid()
      reads this
    {
      Consistent(State())
    }

    /** Start-up: the size queried from the window (main.cpp:110) becomes the window size, the
        targets are created at it (main.cpp:166-239) and the viewport is set to it
        (main.cpp:311); blurring starts on (main.cpp:36). */
    constructor (queried: Size)
      ensures Valid() && Size(width, height) == queried && !resized && viewport == queried
      ensures forall t :: t in targets ==> targets[t] == queried
      ensures shouldBlur && passes == []
    {
      width, height := queried.width, queried.height;
      resized := false;
      viewport := queried;
      targets := Reallocate(map[], queried);
      shouldBlur := true;
      passes := [];
    }

    /** `onWindowResize` (main.cpp:44-48). */
    method OnWindowResize(newWidth: int, newHeight: int)
      modifies this
      ensures State() == OnResize(old(State()), newWidth, newHeight)
      ensures shouldBlur == old(shouldBlur) && passes == old(passes)
    {
      width := newWidth;
      height := newHeight;
      resized := true;
    }

    /** The resize drain at the top of the frame loop (main.cpp:320-338). */
    method DrainResize()
      modifies this
      ensures State() == Drain(old(State()))
      ensures shouldBlur == old(shouldBlur) && passes == old(passes)
    {
      if resized {
        viewport := Size(width, height);
        resized := false;
        var s := Size(width, height);
        targets := targets[PositionTexture := s];
        targets := targets[NormalTexture := s];
        targets := targets[AlbedoTexture := s];
        targets := targets[OcclusionTexture := s];
        targets := targets[BlurredOcclusionTexture := s];
        targets := targets[DepthRenderbuffer := s];
      }
    }

    /** The four passes of main.cpp:349-417. They run with no resize pending, so every target
        has the window size the occlusion pass is told about. */
    method RunPasses()
      requires Valid() && !resized
      modifies this
      ensures State() == old(State()) && shouldBlur == old(shouldBlur)
      ensures passes == old(passes) + FramePasses(Size(width, height), shouldBlur)
      ensures forall t :: t in targets ==> targets[t] == Size(width, height)
    {
      passes := passes + [GeometryPass];
      passes := passes + [OcclusionPass(Size(width, height))];
      passes := passes + [BlurPass(if shouldBlur then 1 else 0)];
      passes := passes + [CompositionPass];
    }

    /** The "Blur" checkbox of the settings window (main.cpp:424). */
    method SetBlur(b: bool)
      modifies this
      ensures State() == old(State()) && passes == old(passes)
      ensures shouldBlur == b
    {
      shouldBlur := b;
    }

    /** One iteration of the frame loop (main.cpp:317-435): drain, the four passes, the checkbox,
        then the callbacks delivered while polling events. The blur pass sees the checkbox value
        of the previous frame; the passes see the size drained at the top of the frame. */
    method Frame(blur: bool, events: seq<Size>)
      requires Valid()
      modifies this
      ensures Valid()
      ensures passes == old(passes) + FramePasses(Drain(old(State())).size, old(shouldBlur))
      ensures State() == AfterEvents(Drain(old(State())), events)
      ensures shouldBlur == blur
    {
      DrainMakesTargetsMatchWindow(State());
      DrainResize();
      RunPasses();
      SetBlur(blur);
      ghost var drained := State();
      var k := 0;
      while k < |events|
        invariant k <= |events|
        invariant State() == AfterEvents(drained, events[..k])
        invariant Valid() && shouldBlur == blur
        invariant passes == old(passes) + FramePasses(Drain(old(State())).size, old(shouldBlur))
      {
        assert events[..k + 1][..k] == events[..k];
        OnWindowResize(events[k].width, events[k].height);
        k := k + 1;
      }
      assert events[..k] == events;
    }
  }
}
