/** The auto-resizing textarea hook both input components define: the height follows the
    content's scroll height, clamped to the component's bounds. Heights are whole pixels. */
module AutoResize {
  /** `Math.max(minHeight, Math.min(scrollHeight, maxHeight))`. */
  function FitHeight(scrollHeight: int, minHeight: int, maxHeight: int): (h: int)
    ensures h >= minHeight
    ensures minHeight <= maxHeight ==> h <= maxHeight
    ensures minHeight <= scrollHeight <= maxHeight ==> h == scrollHeight
    ensures scrollHeight <= minHeight ==> h == minHeight
    ensures minHeight <= maxHeight <= scrollHeight ==> h == maxHeight
  {
    var capped := if scrollHeight < maxHeight then scrollHeight else maxHeight;
    if minHeight < capped then capped else minHeight
  }

  /** `adjustHeight(reset)` on a mounted textarea: a reset leaves the minimum height,
      otherwise the clamped scroll height. */
  function AdjustedHeight(reset: bool, scrollHeight: int, minHeight: int, maxHeight: int): (h: int)
    ensures reset ==> h == minHeight
    ensures minHeight <= h
    ensures minHeight <= maxHeight ==> h <= maxHeight
  {
    if reset then minHeight else FitHeight(scrollHeight, minHeight, maxHeight)
  }
}
