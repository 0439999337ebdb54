/** Domain-separation tags of the random oracles. */
module OracleTags {
  import opened Bits
  import opened Hashes

  function Ascii(s: string): Bytes {
    seq(|s|, i requires 0 <= i < |s| => ToByte(s[i] as int % 256))
  }

  const TAG_COMMITMENT := Ascii("dkls23/commitment/v1")
  const TAG_DLOG_PROOF_FISCHLIN := Ascii("dkls23/proofs/dlog/fischlin/v1")
  const TAG_DLOG_PROOF_COMMITMENT := Ascii("dkls23/proofs/dlog/commitment/v1")
  const TAG_ENCPROOF_FS := Ascii("dkls23/proofs/enc/fs/v1")
  const TAG_ZERO_SHARE_FRAGMENT := Ascii("dkls23/zero-share/fragment/v1")
  const TAG_OT_BASE_H := Ascii("dkls23/ot/base/h/v1")
  const TAG_OT_BASE_MSG := Ascii("dkls23/ot/base/msg/v1")
  const TAG_OTE_PRG := Ascii("dkls23/ot/extension/prg/v1")
  const TAG_OTE_CHI := Ascii("dkls23/ot/extension/chi/v1")
  const TAG_OTE_RANDOMIZE := Ascii("dkls23/ot/extension/randomize/v1")
  const TAG_MUL_GADGET := Ascii("dkls23/mul/gadget/v1")
  const TAG_MUL_CHI_TILDE := Ascii("dkls23/mul/chi-tilde/v1")
  const TAG_MUL_CHI_HAT := Ascii("dkls23/mul/chi-hat/v1")
  const TAG_MUL_VERIFY := Ascii("dkls23/mul/verify/v1")
  const TAG_REFRESH_FAST_R0 := Ascii("dkls23/refresh/fast/r0/v1")
  const TAG_REFRESH_FAST_R1 := Ascii("dkls23/refresh/fast/r1/v1")
  const TAG_REFRESH_FAST_B := Ascii("dkls23/refresh/fast/b/v1")
}
