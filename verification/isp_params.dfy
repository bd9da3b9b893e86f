/** The part of the RkISP1 per-frame parameter buffer (`rkisp1_params_cfg`)
    that black-level correction writes. The buffer's layout and the value of
    the BLS module bit belong to the kernel's uAPI header, which is not part of
    this model: the three module masks and the BLS configuration are explicit,
    and everything else the buffer holds is kept as opaque bytes. */
module IspParams {

  /** `RKISP1_CIF_ISP_MODULE_BLS`: the black-level-subtraction bit of the
      module masks. Only its being a fixed mask is relied on. */
  const ModuleBls: bv32 := 1 << 1

  /** `fixed_val`: the fixed black levels the hardware subtracts, one per
      Bayer channel, in the 12-bit register domain. */
  datatype FixedVal = FixedVal(r: int, gr: int, gb: int, b: int)

  /** `bls_config`: the auto-measurement switch, the fixed levels, and the
      measurement-window settings (opaque here). */
  datatype BlsConfig = BlsConfig(enableAuto: bv8, fixedVal: FixedVal, measurement: seq<bv8>)

  /** One frame's parameter buffer: the three module masks, the BLS
      configuration, and every other module's configuration (opaque). */
  datatype Params = Params(
    moduleEnUpdate: bv32,
    moduleEns: bv32,
    moduleCfgUpdate: bv32,
    bls: BlsConfig,
    otherModules: seq<bv8>)

  /** `after` is `before` with the bits of `mask` set and all other bits as
      they were. */
  predicate SetsOnly(before: bv32, after: bv32, mask: bv32)
  {
    after & mask == mask && after & !mask == before & !mask
  }
}
