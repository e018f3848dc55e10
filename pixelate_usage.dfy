/**
 * What a caller of the filter can rely on, derived from the contracts of
 * the constructor and the accessors alone.
 */
module PixelateUsage {
  import opened JsObject
  import opened Pixelate

  /** `new PixelateFilter()`: blocks of 10 by 10 and no base options, whatever `DEFAULT_OPTIONS.size` is. */
  method DefaultFilter<V>(defaultSize: real) returns (x: real, y: real, forwarded: Object<Field<V>>)
    ensures x == 10.0 && y == 10.0
    ensures forwarded == Empty()
  {
    var f := new PixelateFilter<V>(DefaultArg(), defaultSize);
    x, y, forwarded := f.GetSizeX(), f.GetSizeY(), f.forwarded;
  }

  /**
   * An options object without `size`: square blocks of the current
   * `DEFAULT_OPTIONS.size`, and every option goes to the base filter as given.
   */
  method OptionsWithoutSize<V>(options: Object<Field<V>>, defaultSize: real) returns (x: real, y: real, forwarded: Object<Field<V>>)
    requires WellFormed(options) && Get(options, "size").None?
    ensures x == defaultSize && y == defaultSize
    ensures forwarded == options
  {
    var f := new PixelateFilter<V>(OptionsArg(options), defaultSize);
    x, y, forwarded := f.GetSizeX(), f.GetSizeY(), f.forwarded;
  }

  /**
   * After `size = a` the filter writes into `a`, and the buffer it held
   * before is left alone by every later setter.
   */
  method ReplacedBufferIsDetached<V>(f: PixelateFilter<V>, a: array<real>, x: real, y: real)
    requires f.Valid() && a.Length >= 2 && a != f.uSize && a != f.float32
    modifies f, f.uSize, a
    ensures f.Valid() && f.GetSize() == a
    ensures a[..] == old(a[..])[0 := x][1 := y]
    ensures f.GetSizeX() == x && f.GetSizeY() == y
    ensures unchanged(old(f.uSize))
  {
    f.SetSize(Vector(a));
    f.SetSizeX(x);
    f.SetSizeY(y);
  }
}
