/** Value types of the Cybor token ledger: the fixed-width integers the
    contract uses, the race templates, the per-token records, the events
    it emits and the host inputs every handler receives. */
module Types {

  // Rust's unsigned integer widths; arithmetic that can leave a width is
  // checked explicitly by the handlers.
  const U16_LIMIT: nat := 0x1_0000
  const U32_LIMIT: nat := 0x1_0000_0000
  const U128_LIMIT: nat := 0x1_0000_0000_0000_0000_0000_0000_0000_0000
  const U256_LIMIT: nat := 0x1_0000_0000_0000_0000_0000_0000_0000_0000_0000_0000_0000_0000_0000_0000_0000_0000

  type u16 = x: nat | x < U16_LIMIT
  type u32 = x: nat | x < U32_LIMIT
  type u128 = x: nat | x < U128_LIMIT
  type u256 = x: nat | x < U256_LIMIT

  /** A 32-byte actor address, identified here by its numeric value. */
  type ActorId = nat
  type TokenId = u256
  type MessageId = nat

  const ZERO_ID: ActorId := 0
  /** The message id a burn without refund reports (`MessageId::default()`). */
  const DEFAULT_MESSAGE_ID: MessageId := 0

  // Contract constants.
  const MAX_SUPPLY: u32 := 100000
  const FIRST_TOKEN_ID: TokenId := 100
  const LEVEL_UP_EXP_COST: u128 := 864000
  const LEVEL_UP_VALUE_FLOOR: u128 := 101_000_000_000_000
  /** 60 * 60 * 24 / 3 blocks a day times 100 gas per block. */
  const REFUND_GAS_LIMIT: u128 := 60 * 60 * 24 / 3 * 100
  const REFUND_GRADE_THRESHOLD: u16 := 2
  const REFUND_PAYLOAD: string := "CONGRATS! Please claim the refund in 24 hours!"

  datatype CyborRace = Rodriguez | Nguyen

  /** Immutable base stats and price of a race. */
  datatype CyborTemplate = CyborTemplate(
    raceName: string,
    price: u128,
    basicDamage: nat,
    basicHp: nat,
    basicMoveSpeed: nat,
    basicKnockdownHit: nat,
    scorePerBlock: nat)

  /** `CyborTemplate::default()`: empty name and zero numerics. */
  const DEFAULT_TEMPLATE: CyborTemplate := CyborTemplate("", 0, 0, 0, 0, 0, 0)

  /** The two compile-time race templates. Their values are constants of the
      contract that this model keeps abstract: every handler that needs
      them receives the registry as a parameter. */
  datatype Registry = Registry(rodriguez: CyborTemplate, nguyen: CyborTemplate)

  /** The template lookup `get_template`, `mint` and `debug_info` share. The
      race enumeration is closed, so the "NotFound" sentinel branch of the
      source is never taken. */
  function GetTemplate(reg: Registry, race: CyborRace): CyborTemplate
  {
    match race
    case Rodriguez => reg.rodriguez
    case Nguyen => reg.nguyen
  }

  /** Immutable per-token record, written once at mint. */
  datatype CyborMetadata = CyborMetadata(
    race: CyborRace,
    cyborTemplate: CyborTemplate,
    isHaveFinishingSkill: bool,
    mintAt: u32,
    image: string)

  const DEFAULT_METADATA: CyborMetadata :=
    CyborMetadata(Rodriguez, DEFAULT_TEMPLATE, false, 0, "")

  /** Mutable per-token record. `startAt` is the block at which the current
      accrual window began, or 0 when the token is not accruing. */
  datatype CyborDynamic = CyborDynamic(
    level: u16,
    grade: u16,
    lucky: u32,
    exp: u128,
    startAt: u32)

  /** The materialised view `cybor_info` returns. */
  datatype CyborStream = CyborStream(
    raceName: string,
    basicDamage: nat,
    basicHp: nat,
    basicMoveSpeed: nat,
    basicKnockdownHit: nat,
    scorePerBlock: nat,
    isHaveFinishingSkill: bool,
    mintAt: u32,
    image: string,
    level: u16,
    grade: u16,
    lucky: u32,
    exp: u128,
    isFreeze: bool)

  const DEFAULT_STREAM: CyborStream :=
    CyborStream("", 0, 0, 0, 0, 0, false, 0, "", 0, 0, 0, 0, false)

  datatype CyborEvent =
    | Minted(to: ActorId, value: TokenId, nextId: TokenId, lenByMinted: u32, lenByGroupUser: u32)
    | Burned(from: ActorId, value: TokenId, msgId: MessageId)
    | Freeze(from: ActorId, value: TokenId)
    | UnFreeze(from: ActorId, value: TokenId)
    | Uplevel(from: ActorId, value: TokenId)

  /** What the host supplies to a handler: `msg::source`, `msg::value`,
      `exec::block_height` and `exec::value_available`. */
  datatype Context = Context(sender: ActorId, value: u128, blockHeight: u32, valueAvailable: u128)

  /** The host's answer to `msg::send_bytes_with_gas`, decided outside the model. */
  datatype SendResult = Accepted(id: MessageId) | Rejected

  /** An outbound value-carrying message the handler asked the host to send. */
  datatype Send = Send(to: ActorId, payload: string, gasLimit: u128, value: u128)

  /** Why a handler panicked; the host then rolls back every change. */
  datatype FatalReason =
    | ZeroAddress        // mint from the zero actor
    | SoldOut            // supply cap reached
    | Underpaid          // attached value below the template price
    | NotMinted          // burn of a token without owner
    | NotOwner           // burn by someone other than the owner
    | MissingEntry       // `unwrap` of an absent metadata or dynamic entry
    | RefundUnfunded     // program balance below the refund price
    | RefundUnderflow    // price - gas limit below zero
    | SendFailed         // host rejected the refund message
    | LowValue           // up_level with too little attached value
    | LowExp             // up_level with too little experience
    | Overflow           // checked arithmetic left its integer width
}
