/**
  The colour swapchain format the OpenGL plugin asks the runtime for: the
  first format in the runtime's list that the plugin supports.
*/
module Swapchain {
  import opened Wrappers

  /** OpenGL internal-format enumerants, as defined by the OpenGL headers. */
  const GlRgb10A2: int := 0x8059
  const GlRgba16F: int := 0x881A
  const GlRgba8: int := 0x8058
  const GlRgba8Snorm: int := 0x8F97

  /**
    The formats the plugin can render to, best first; the last two are
    linear formats kept only as a fallback.
  */
  const SupportedColorSwapchainFormats: seq<int> := [GlRgb10A2, GlRgba16F, GlRgba8, GlRgba8Snorm]

  /** The message the plugin throws when no runtime format is supported. */
  const NoSupportedFormat: string := "No runtime swapchain format supported for color swapchain"

  predicate Supported(format: int) {
    format in SupportedColorSwapchainFormats
  }

  /**
    `SelectColorSwapchainFormat`: the first runtime format (in the
    runtime's order) that is supported; failure when none is.
  */
  function SelectColorSwapchainFormat(runtimeFormats: seq<int>): (r: Result<int, string>)
    ensures r.Failure? <==> forall i :: 0 <= i < |runtimeFormats| ==> !Supported(runtimeFormats[i])
    ensures r.Failure? ==> r.error == NoSupportedFormat
    ensures r.Success? ==> Supported(r.value) && exists i :: (0 <= i < |runtimeFormats| && runtimeFormats[i] == r.value
      && forall j :: 0 <= j < i ==> !Supported(runtimeFormats[j]))
  {
    if runtimeFormats == [] then Failure(NoSupportedFormat)
    else if Supported(runtimeFormats[0]) then Success(runtimeFormats[0])
    else
      var r := SelectColorSwapchainFormat(runtimeFormats[1..]);
      assert forall i :: 0 < i < |runtimeFormats| ==> runtimeFormats[i] == runtimeFormats[1..][i - 1];
      if r.Success? then
        var i :| 0 <= i < |runtimeFormats[1..]| && runtimeFormats[1..][i] == r.value
          && forall j :: 0 <= j < i ==> !Supported(runtimeFormats[1..][j]);
        assert runtimeFormats[i + 1] == r.value;
        r
      else r
  }

  /**
    The runtime's order decides, not the plugin's preference: any prefix
    of unsupported formats is skipped, and the first supported format
    wins even over a better one behind it.
  */
  lemma RuntimeOrderDecides(unsupported: seq<int>, format: int, rest: seq<int>)
    requires forall i :: 0 <= i < |unsupported| ==> !Supported(unsupported[i])
    requires Supported(format)
    ensures SelectColorSwapchainFormat(unsupported + [format] + rest) == Success(format)
  {
    var rf := unsupported + [format] + rest;
    var r := SelectColorSwapchainFormat(rf);
    assert rf[|unsupported|] == format;
    assert forall j :: 0 <= j < |unsupported| ==> rf[j] == unsupported[j];
  }

  /** A runtime offering only the 8-bit fallback ahead of the 10-bit format gets the fallback. */
  lemma FallbackFirstIsChosen()
    ensures SelectColorSwapchainFormat([GlRgba8, GlRgb10A2]) == Success(GlRgba8)
  {
    RuntimeOrderDecides([], GlRgba8, [GlRgb10A2]);
    assert [] + [GlRgba8] + [GlRgb10A2] == [GlRgba8, GlRgb10A2];
  }
}
