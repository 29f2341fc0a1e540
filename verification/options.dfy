/** The option records the harness runs under, and the tolerance each one gets.
    Only the flags the harness sets or reads are modelled; every record starts
    from the library's default option record, whose values are a parameter. */
module Configuration {

  /** The option flags the harness sets or reads. */
  datatype Options = Options(
    useVulkanCompute: bool,
    usePackingLayout: bool,
    useFp16Packed: bool,
    useFp16Storage: bool,
    useBf16Storage: bool,
    useShaderPack8: bool,
    useImageStorage: bool)

  /** Tolerance for records that use a reduced-precision path. */
  const ReducedPrecisionEpsilon: real := 0.1

  /** Tolerance for full-precision records. */
  const FullPrecisionEpsilon: real := 0.01

  /** The record stores or packs values in a reduced-precision format. */
  predicate ReducedPrecision(o: Options) {
    o.useBf16Storage || o.useFp16Packed || o.useFp16Storage
  }

  /** The tolerance the harness derives from an option record. */
  function Epsilon(o: Options): (eps: real)
    ensures eps == ReducedPrecisionEpsilon <==> ReducedPrecision(o)
    ensures eps == FullPrecisionEpsilon <==> !ReducedPrecision(o)
  {
    if o.useBf16Storage || o.useFp16Packed || o.useFp16Storage then ReducedPrecisionEpsilon
    else FullPrecisionEpsilon
  }

  /** Packing layout, 8-wide shader packing, image storage and the backend
      switch do not move the tolerance. */
  lemma EpsilonIgnoresLayoutFlags(o: Options, packing: bool, pack8: bool, image: bool, vulkan: bool)
    ensures Epsilon(o.(usePackingLayout := packing, useShaderPack8 := pack8,
                       useImageStorage := image, useVulkanCompute := vulkan)) == Epsilon(o)
  {
  }

  /** Switching on a reduced-precision flag never tightens the tolerance. */
  lemma EpsilonMonotone(o: Options)
    ensures Epsilon(o) <= Epsilon(o.(useBf16Storage := true))
    ensures Epsilon(o) <= Epsilon(o.(useFp16Packed := true))
    ensures Epsilon(o) <= Epsilon(o.(useFp16Storage := true))
  {
  }

  /** The four option records of the harness, each the default record with the
      listed flags overwritten. Records 0 and 1 leave bf16 storage, and all four
      leave the backend switch, at their defaults. */
  function Configs(defaults: Options): (cs: seq<Options>)
    ensures |cs| == 4
    ensures forall i :: 0 <= i < 4 ==> cs[i].useVulkanCompute == defaults.useVulkanCompute
    ensures !cs[0].usePackingLayout && !cs[0].useFp16Packed && !cs[0].useFp16Storage
    ensures cs[0].useBf16Storage == defaults.useBf16Storage && cs[1].useBf16Storage == defaults.useBf16Storage
    ensures cs[2].useBf16Storage && !cs[3].useBf16Storage
    ensures cs[3] == cs[2].(useBf16Storage := false)
  {
    [ defaults.(usePackingLayout := false, useFp16Packed := false, useFp16Storage := false,
                useShaderPack8 := false, useImageStorage := false),
      defaults.(usePackingLayout := true, useFp16Packed := true, useFp16Storage := false,
                useShaderPack8 := true, useImageStorage := false),
      defaults.(usePackingLayout := true, useFp16Packed := true, useFp16Storage := true,
                useBf16Storage := true, useShaderPack8 := true, useImageStorage := true),
      defaults.(usePackingLayout := true, useFp16Packed := true, useFp16Storage := true,
                useBf16Storage := false, useShaderPack8 := true, useImageStorage := true) ]
  }

  /** Records 1 to 3 always get the reduced-precision tolerance; record 0 gets it
      exactly when the default record already enables bf16 storage. */
  lemma ConfigEpsilons(defaults: Options)
    ensures forall i :: 1 <= i < 4 ==> Epsilon(Configs(defaults)[i]) == ReducedPrecisionEpsilon
    ensures Epsilon(Configs(defaults)[0]) ==
      (if defaults.useBf16Storage then ReducedPrecisionEpsilon else FullPrecisionEpsilon)
  {
  }
}
