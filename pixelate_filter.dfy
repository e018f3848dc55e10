/**
 * The block-size configuration layer of the pixelate filter: how the
 * constructor argument is resolved against the default options, and how the
 * `size`, `sizeX` and `sizeY` accessors read and write the `uSize` uniform
 * buffer the shader samples with. Block sizes are exact reals here.
 */
module Pixelate {
  import opened JsObject

  /** A block size as callers give it: one number, an array `[x, y]`, or a point. */
  datatype Size = Scalar(s: real) | Vector(buffer: array<real>) | Point(x: real, y: real)

  /**
   * A property value of an options object: a `size`, one of the filter's own
   * programs or its uniform group, or any other value of the base filter's
   * options.
   */
  datatype Field<V> = SizeField(size: Size) | GpuProgram | GlProgram | Resources | BaseField(value: V)

  /** The constructor's one argument: a bare size, or an options object. */
  datatype Arg<V> = SizeArg(size: Size) | OptionsArg(options: Object<Field<V>>)

  /** The constructor's argument once resolved: the size to apply and the options forwarded to the base filter. */
  datatype Resolved<V> = Resolved(size: Size, rest: Object<Field<V>>)

  /** The value `DEFAULT_OPTIONS.size` starts with. */
  const InitialDefaultSize: real := 10.0

  /** The constructor's default parameter, a literal of its own. */
  const DefaultArgSize: real := 10.0

  /**
   * `DEFAULT_OPTIONS`: `{ size }`. The object is public and its `size` may
   * be reassigned, so each construction reads its current value `size`.
   */
  function DefaultOptions<V>(size: real): (o: Object<Field<V>>)
    ensures WellFormed(o)
    ensures Get(o, "size") == Some(SizeField(Scalar(size)))
    ensures forall k :: k != "size" ==> Get(o, k).None?
  {
    var named: seq<Property<Field<V>>> := [Property("size", SizeField(Scalar(size)))];
    NonDigitFirstIsNamed("size");
    LookupKeys(named);
    assert named[1..] == [];
    assert Keys(named) == ["size"];
    assert Distinct(named);
    assert forall k :: Lookup(named, k).Some? ==> !IsArrayIndex(k);
    Object(map[], named)
  }

  /** The argument used when none is given: the number 10, whatever `DEFAULT_OPTIONS` holds. */
  function DefaultArg<V>(): (arg: Arg<V>)
    ensures WellTyped(arg)
    ensures forall defaultSize :: Resolve(arg, defaultSize).size == Scalar(DefaultArgSize)
    ensures forall defaultSize :: Resolve(arg, defaultSize).rest == Empty()
  {
    SizeArg(Scalar(DefaultArgSize))
  }

  /** What the declared types guarantee of an argument: an options object is a real object whose `size`, if any, is a Size. */
  ghost predicate WellTyped<V>(arg: Arg<V>)
  {
    arg.OptionsArg? ==>
      WellFormed(arg.options) &&
      (Get(arg.options, "size").None? || Get(arg.options, "size").value.SizeField?)
  }

  /** An array assigned to `size` has both slots the accessors use. */
  predicate Assignable(value: Size)
  {
    value.Vector? ==> value.buffer.Length >= 2
  }

  /**
   * The constructor's option resolution: a bare size is used as it is and
   * nothing is forwarded; an options object is spread over the defaults,
   * whose `size` is currently `defaultSize`, and `size` is split off from
   * the rest.
   */
  function Resolve<V>(arg: Arg<V>, defaultSize: real): (r: Resolved<V>)
    requires WellTyped(arg)
    ensures arg.SizeArg? ==> r.size == arg.size && r.rest == Empty()
    ensures arg.OptionsArg? ==> r.rest == Omit(arg.options, "size")
    ensures arg.OptionsArg? ==>
      r.size == (if Get(arg.options, "size").Some? then Get(arg.options, "size").value.size else Scalar(defaultSize))
    ensures WellFormed(r.rest)
  {
    match arg
    case SizeArg(s) => Resolved(s, Empty())
    case OptionsArg(o) =>
      var defaults := Copy(Empty(), DefaultOptions(defaultSize));
      var merged: Object<Field<V>> := Copy(defaults, o);
      OmitCopy(defaults, o, "size");
      CopyOfObject(DefaultOptions<V>(defaultSize));
      assert Omit(defaults, "size") == Empty();
      CopyOfObject(Omit(o, "size"));
      var size := Get(merged, "size");
      assert size.Some? && size.value.SizeField?;
      Resolved(size.value.size, Omit(merged, "size"))
  }

  /** `{ gpuProgram, glProgram, resources }`, the options the filter itself gives the base filter. */
  function OwnOptions<V>(): (o: Object<Field<V>>)
    ensures WellFormed(o)
    ensures Get(o, "gpuProgram") == Some(GpuProgram)
    ensures Get(o, "glProgram") == Some(GlProgram)
    ensures Get(o, "resources") == Some(Resources)
    ensures forall k :: k !in {"gpuProgram", "glProgram", "resources"} ==> Get(o, k).None?
  {
    NonDigitFirstIsNamed("gpuProgram");
    NonDigitFirstIsNamed("glProgram");
    NonDigitFirstIsNamed("resources");
    var named := [Property("gpuProgram", GpuProgram), Property("glProgram", GlProgram), Property("resources", Resources)];
    LookupKeys(named);
    Object(map[], named)
  }

  /**
   * `{ gpuProgram, glProgram, resources, ...rest }`: the options object the
   * base filter is built from. The rest comes last, so a key it shares with
   * the filter's own entries overrides them.
   */
  function BaseOptions<V>(rest: Object<Field<V>>): (r: Object<Field<V>>)
    requires WellFormed(rest)
    ensures WellFormed(r)
    ensures forall k :: Get(rest, k).Some? ==> Get(r, k) == Get(rest, k)
    ensures Get(rest, "gpuProgram").None? ==> Get(r, "gpuProgram") == Some(GpuProgram)
    ensures Get(rest, "glProgram").None? ==> Get(r, "glProgram") == Some(GlProgram)
    ensures Get(rest, "resources").None? ==> Get(r, "resources") == Some(Resources)
    ensures forall k :: Get(r, k).Some? ==> Get(rest, k).Some? || k in {"gpuProgram", "glProgram", "resources"}
  {
    Copy(OwnOptions(), rest)
  }

  /** A value found in an allocated property list is allocated. */
  lemma LookupAllocated<V>(props: seq<Property<V>>, k: string)
    requires allocated(props)
    ensures Lookup(props, k).Some? ==> allocated(Lookup(props, k).value)
  {
  }

  /** The size an argument resolves to predates the filter: an array in it is the caller's. */
  lemma ResolvedSizeAllocated<V>(arg: Arg<V>, defaultSize: real)
    requires WellTyped(arg)
    ensures allocated(Resolve(arg, defaultSize).size)
  {
    if arg.OptionsArg? {
      NonDigitFirstIsNamed("size");
      LookupAllocated(arg.options.named, "size");
    }
  }

  /**
   * A pixelate filter. Of the base filter it keeps only the options it was
   * given; its state is the `uSize` uniform buffer.
   */
  class PixelateFilter<V> {
    /** The rest of the options, forwarded to the base filter. */
    const forwarded: Object<Field<V>>
    /** The `Float32Array(2)` the constructor allocates for `uSize`. */
    ghost const float32: array<real>
    /** The `uSize` uniform: the block size the shader reads, x in slot 0 and y in slot 1. */
    var uSize: array<real>

    ghost predicate Valid()
      reads this
    {
      uSize.Length >= 2
    }

    /**
     * Resolves the argument against the current `DEFAULT_OPTIONS.size`,
     * `defaultSize`, hands the rest of the options to the base filter
     * together with a fresh two-slot buffer, then assigns `size`.
     */
    constructor (arg: Arg<V>, defaultSize: real)
      requires WellTyped(arg) && Assignable(Resolve(arg, defaultSize).size)
      ensures Valid()
      ensures forwarded == Resolve(arg, defaultSize).rest
      ensures WellFormed(forwarded)
      ensures fresh(float32) && float32.Length == 2
      ensures match Resolve(arg, defaultSize).size
        case Vector(a) => uSize == a && uSize[..] == old(a[..])
        case Scalar(s) => uSize == float32 && uSize[..] == [s, s]
        case Point(x, y) => uSize == float32 && uSize[..] == [x, y]
    {
      var r := Resolve(arg, defaultSize);
      var size := r.size;
      ResolvedSizeAllocated(arg, defaultSize);
      forwarded := r.rest;
      var buffer := new real[2](_ => 0.0);
      float32 := buffer;
      uSize := buffer;
      new;
      SetSize(size);
    }

    /** The options object the base filter was built from: the filter's own entries, then the forwarded rest. */
    function BaseFilterOptions(): Object<Field<V>>
      requires WellFormed(forwarded)
    {
      BaseOptions(forwarded)
    }

    /** The `size` getter: the live buffer itself. */
    function GetSize(): (buffer: array<real>)
      reads this
      requires Valid()
      ensures buffer == uSize && buffer.Length >= 2
    {
      uSize
    }

    /** The `sizeX` getter: slot 0 of the buffer `size` returns. */
    function GetSizeX(): (x: real)
      reads this, uSize
      requires Valid()
      ensures x == GetSize()[0]
    {
      uSize[0]
    }

    /** The `sizeY` getter: slot 1 of the buffer `size` returns. */
    function GetSizeY(): (y: real)
      reads this, uSize
      requires Valid()
      ensures y == GetSize()[1]
    {
      uSize[1]
    }

    /** The `sizeX` setter: writes slot 0 of the current buffer in place. */
    method SetSizeX(value: real)
      requires Valid()
      modifies uSize
      ensures Valid() && uSize == old(uSize)
      ensures uSize[..] == old(uSize[..])[0 := value]
      ensures GetSizeX() == value && GetSizeY() == old(GetSizeY())
    {
      uSize[0] := value;
    }

    /** The `sizeY` setter: writes slot 1 of the current buffer in place. */
    method SetSizeY(value: real)
      requires Valid()
      modifies uSize
      ensures Valid() && uSize == old(uSize)
      ensures uSize[..] == old(uSize[..])[1 := value]
      ensures GetSizeY() == value && GetSizeX() == old(GetSizeX())
    {
      uSize[1] := value;
    }

    /**
     * The `size` setter. A point and a number are written into the current
     * buffer through the per-axis setters; an array becomes the buffer.
     */
    method SetSize(value: Size)
      requires Valid() && Assignable(value)
      requires value.Vector? ==> value.buffer != float32
      modifies this, uSize
      ensures Valid()
      ensures value.Vector? ==>
        uSize == value.buffer && uSize[..] == old(value.buffer[..]) && unchanged(old(uSize))
      ensures value.Point? ==>
        uSize == old(uSize) && uSize[..] == old(uSize[..])[0 := value.x][1 := value.y]
      ensures value.Scalar? ==>
        uSize == old(uSize) && uSize[..] == old(uSize[..])[0 := value.s][1 := value.s]
    {
      match value
      case Point(x, y) =>
        SetSizeX(x);
        SetSizeY(y);
      case Vector(a) =>
        uSize := a;
      case Scalar(s) =>
        // `this.sizeX = this.sizeY = value` runs the y setter first
        SetSizeY(s);
        SetSizeX(s);
    }
  }
}
