/**
  What a frame of the blur scenes asks the GPU to do, as a trace: each
  draw pass reads one texture and writes one render target, and the passes
  may be grouped by debug-group pushes and pops (`push_debug_group` and
  `pop_debug_group` of `src/common_gl.rs`, which only emit markers).
 */
module RenderTrace {

  /**
    The textures and render targets of the blur scenes: the source image,
    level `k` of the Kawase chain, the composite and ping-pong targets of
    the two-pass blur, and the window's default framebuffer.
   */
  datatype Target = SourceImage | Level(k: nat) | Comp | PingPong | Screen

  datatype PassKind =
    | Copy                                                       // texture shader, full-screen triangles
    | KawaseBlur(distance: real, upsample: bool)                 // kawase shader
    | DirectionalBlur(angle: real, radius: real, kernelSize: int) // blur shader along one direction
    | QuadDraw(dithered: bool)                                   // the image quad drawn through the camera

  /** One draw into `dst` sampling the texture of `src`. */
  datatype Pass = Pass(src: Target, dst: Target, kind: PassKind)

  datatype Event = PushGroup(name: string) | PopGroup | Draw(pass: Pass)

  /** How an event changes the debug-group depth. */
  function Delta(e: Event): int {
    match e
    case PushGroup(_) => 1
    case PopGroup => -1
    case Draw(_) => 0
  }

  /** The debug-group depth after the trace: pushes minus pops. */
  function Depth(t: seq<Event>): int {
    if |t| == 0 then 0 else Depth(t[..|t| - 1]) + Delta(t[|t| - 1])
  }

  /** No prefix of the trace pops more groups than it pushed. */
  predicate Nested(t: seq<Event>) {
    |t| == 0 || (Nested(t[..|t| - 1]) && Depth(t) >= 0)
  }

  /** Every pop closes an earlier push and every push is closed. */
  predicate Balanced(t: seq<Event>) {
    Nested(t) && Depth(t) == 0
  }

  /** The draw passes of a trace, in order. */
  function PassesOf(t: seq<Event>): seq<Pass> {
    if |t| == 0 then []
    else PassesOf(t[..|t| - 1]) + (if t[|t| - 1].Draw? then [t[|t| - 1].pass] else [])
  }

  /** Each pass samples the target the preceding pass wrote. */
  predicate Chained(ps: seq<Pass>) {
    forall i :: 0 < i < |ps| ==> ps[i].src == ps[i - 1].dst
  }

  /** No pass samples the target it writes. */
  predicate NoSelfRead(ps: seq<Pass>) {
    forall i :: 0 <= i < |ps| ==> ps[i].src != ps[i].dst
  }

  /** `Nested` says exactly that every prefix has a non-negative depth. */
  lemma {:induction false} NestedIffPrefixesNonNegative(t: seq<Event>)
    ensures Nested(t) <==> forall k :: 0 <= k <= |t| ==> Depth(t[..k]) >= 0
  {
    if |t| == 0 {
      assert t[..0] == t;
    } else {
      var s := t[..|t| - 1];
      NestedIffPrefixesNonNegative(s);
      assert t[..|t|] == t;
      forall k | 0 <= k <= |s|
        ensures t[..k] == s[..k]
      {
      }
      if Nested(t) {
        forall k | 0 <= k <= |t|
          ensures Depth(t[..k]) >= 0
        {
          if k < |t| {
            assert t[..k] == s[..k];
          }
        }
      }
      if forall k :: 0 <= k <= |t| ==> Depth(t[..k]) >= 0 {
        forall k | 0 <= k <= |s|
          ensures Depth(s[..k]) >= 0
        {
          assert t[..k] == s[..k];
        }
        assert Depth(t[..|t|]) >= 0;
      }
    }
  }

  /** The trace with one more event: depth, nesting and passes extend by that event alone. */
  function Emit(t: seq<Event>, e: Event): (r: seq<Event>)
    ensures r == t + [e]
    ensures Depth(r) == Depth(t) + Delta(e)
    ensures Nested(r) <==> Nested(t) && Depth(t) + Delta(e) >= 0
    ensures PassesOf(r) == PassesOf(t) + (if e.Draw? then [e.pass] else [])
  {
    var r := t + [e];
    assert r[..|r| - 1] == t;
    r
  }
}
