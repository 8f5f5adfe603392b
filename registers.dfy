/**
 * The control-register map used by CG_SetSTBYReleaseINTSrc: which byte of the
 * IMC register block holds the policy and enable bits of each interrupt source.
 */
module Registers {
  import opened Wrappers
  import opened Policy

  /** Number of interrupt channels (CHANNEL_NUM). */
  const CHANNEL_NUM: nat := 22
  /** The NewState argument values. */
  const DISABLE: bv8 := 0
  const ENABLE: bv8 := 1
  /** The value written first to clear a latched interrupt flag. */
  const CLR_INT_FLAG: bv8 := 0xC0

  /** The IMC registers that CG_SetSTBYReleaseINTSrc addresses by name. */
  datatype Base = IMC033 | IMC034 | IMC050 | IMC052 | IMC054 | IMC056 | IMC058 | IMC059 | IMC069

  /** A control byte named as a register plus a byte offset from it. */
  datatype RegRef = RegRef(base: Base, offset: nat)

  /**
   * The content of one control byte: a raw value, or `ActiveState | NewState`,
   * whose numeric encoding is not part of this model.
   */
  datatype RegByte = Raw(value: bv8) | Combined(state: ActiveState, newState: bv8)

  /** Bytes of the IMC block covered by the model, IMC000 to IMC069. */
  const IMC_BYTES: nat := 70

  /** The byte offset of a named register inside the block: IMCnnn sits at nnn. */
  function BaseOffset(b: Base): (n: nat)
    ensures n < IMC_BYTES
  {
    match b
    case IMC033 => 33
    case IMC034 => 34
    case IMC050 => 50
    case IMC052 => 52
    case IMC054 => 54
    case IMC056 => 56
    case IMC058 => 58
    case IMC059 => 59
    case IMC069 => 69
  }

  function ByteAddress(r: RegRef): nat
  {
    BaseOffset(r.base) + r.offset
  }

  /** The interrupt sources CG_SetSTBYReleaseINTSrc has a register for. */
  predicate Supported(src: nat)
  {
    src <= 18 || src == 21
  }

  /**
   * The control byte of an interrupt source, or None for the sources (19, 20
   * and 22 upwards) for which the source leaves `ptr` NULL.
   */
  function ControlRegister(src: nat): (r: Option<RegRef>)
    ensures r.Some? <==> Supported(src)
    ensures r.Some? ==> ByteAddress(r.value) < IMC_BYTES && r.value.offset < 15
  {
    if src == 0 then Some(RegRef(IMC033, 0))
    else if src <= 8 then Some(RegRef(IMC034, (src - 1) * 2))
    else if src <= 10 then Some(RegRef(IMC050, src - 9))
    else if src == 11 then Some(RegRef(IMC052, 0))
    else if src <= 13 then Some(RegRef(IMC054, src - 12))
    else if src == 14 then Some(RegRef(IMC056, 0))
    else if src == 15 then Some(RegRef(IMC058, 0))
    else if src <= 18 then Some(RegRef(IMC059, (src - 16) * 2))
    else if src == 21 then Some(RegRef(IMC069, 0))
    else None
  }

  /** The byte index written for a supported source. */
  function Address(src: nat): (a: nat)
    requires Supported(src)
    ensures a < IMC_BYTES
  {
    ByteAddress(ControlRegister(src).value)
  }

  /** Two different supported sources never name the same (register, offset) pair. */
  lemma ControlRegisterInjective(s: nat, t: nat)
    requires Supported(s) && Supported(t) && s != t
    ensures ControlRegister(s) != ControlRegister(t)
  {
  }

  /** Consecutive supported sources have strictly increasing byte addresses. */
  lemma AddressStep(s: nat, t: nat)
    requires Supported(s) && Supported(t) && s < t
    requires forall u :: s < u < t ==> !Supported(u)
    ensures Address(s) < Address(t)
  {
    if s == 18 {
      assert !Supported(19) && !Supported(20);
      assert t == 21;
    } else {
      assert Supported(s + 1);
    }
  }

  /**
   * The byte address grows strictly with the source number, so the sequencer
   * never writes the control byte of one source when asked for another.
   */
  lemma {:induction false} AddressIncreasing(s: nat, t: nat)
    requires Supported(s) && Supported(t) && s < t
    ensures Address(s) < Address(t)
    decreases t - s
  {
    var n := if s == 18 then 21 else s + 1;
    assert Supported(n) && n <= t;
    AddressStep(s, n);
    if n < t {
      AddressIncreasing(n, t);
    }
  }

  lemma AddressInjective(s: nat, t: nat)
    requires Supported(s) && Supported(t) && s != t
    ensures Address(s) != Address(t)
  {
    if s < t { AddressIncreasing(s, t); } else { AddressIncreasing(t, s); }
  }
}
