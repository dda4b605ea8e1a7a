/** The Cybor NFT service: the five state-changing handlers `mint`, `burn`,
    `freeze`, `unfreeze` and `up_level`, each one pure transition from the
    state before the message to its `Outcome`, and the read-only views
    `max_supply`, `cybor_metadata` and `cybor_info`. */
module Service {
  import opened Types
  import opened Ledger

  /** `max_supply`. */
  function MaxSupply(): u32
  {
    MAX_SUPPLY
  }

  /** The supply check of `mint`: the table size is cast to `u32` before the
      comparison, so it is taken modulo 2^32. */
  predicate SupplyExhausted(w: World)
  {
    MaxSupply() <= |w.cybor.metadataById| % U32_LIMIT
  }

  /** Everything `mint` needs to accept a message from `ctx`. */
  predicate MintAccepts(w: World, reg: Registry, ctx: Context, race: CyborRace)
  {
    && ctx.sender != ZERO_ID
    && !SupplyExhausted(w)
    && GetTemplate(reg, race).price <= ctx.value
    && w.cybor.currentCyborId + 1 < U256_LIMIT
  }

  /** `mint(race)`: a new token with the next id, owned by the sender. */
  function Mint(w: World, reg: Registry, ctx: Context, race: CyborRace): (o: Outcome)
    // failures, in the order the handler checks them
    ensures ctx.sender == ZERO_ID ==> o == Fatal(ZeroAddress)
    ensures ctx.sender != ZERO_ID && SupplyExhausted(w) ==> o == Fatal(SoldOut)
    ensures (ctx.sender != ZERO_ID && !SupplyExhausted(w) && ctx.value < GetTemplate(reg, race).price)
            ==> o == Fatal(Underpaid)
    ensures o.Done? <==> MintAccepts(w, reg, ctx, race)
    ensures !o.NoOp?
    // the new token
    ensures o.Done? ==>
      var tid := w.cybor.currentCyborId;
      var p := o.post;
      && p.cybor.currentCyborId == tid + 1
      && p.cybor.metadataById.Keys == w.cybor.metadataById.Keys + {tid}
      && p.cybor.dynamicById.Keys == w.cybor.dynamicById.Keys + {tid}
      && p.cybor.metadataById[tid].race == race
      && p.cybor.metadataById[tid].cyborTemplate == GetTemplate(reg, race)
      && p.cybor.metadataById[tid].mintAt == ctx.blockHeight
      && (p.cybor.metadataById[tid].isHaveFinishingSkill <==> ctx.blockHeight % 100 == 0)
      && p.cybor.metadataById[tid].image == ""
      && p.cybor.dynamicById[tid] == CyborDynamic(1, 1, 1, 0, ctx.blockHeight)
      && tid in p.cybor.freezeById && p.cybor.freezeById[tid]
      && tid in p.base.ownerById && p.base.ownerById[tid] == ctx.sender
      && TokensOf(p, ctx.sender) == TokensOf(w, ctx.sender) + {tid}
      && o.event == Minted(ctx.sender, tid, tid + 1,
                           |p.base.ownerById| % U32_LIMIT, |p.base.tokensForOwner| % U32_LIMIT)
      && o.sends == []
    // nothing else changes
    ensures o.Done? ==>
      && (forall t :: t != w.cybor.currentCyborId ==> SameToken(w, o.post, t))
      && (forall a :: a != ctx.sender ==> SameAt(w.base.tokensForOwner, o.post.base.tokensForOwner, a))
      && o.post.base.tokenApprovals == w.base.tokenApprovals
  {
    if ctx.sender == ZERO_ID then Fatal(ZeroAddress)
    else if SupplyExhausted(w) then Fatal(SoldOut)
    else
      var template := GetTemplate(reg, race);
      if ctx.value < template.price then Fatal(Underpaid)
      // `current_cybor_id += 1` on a U256 panics on overflow
      else if w.cybor.currentCyborId + 1 >= U256_LIMIT then Fatal(Overflow)
      else
        var tid := w.cybor.currentCyborId;
        var block := ctx.blockHeight;
        var metadata := CyborMetadata(race, template, block % 100 == 0, block, "");
        var post := Inserted(w, tid, ctx.sender, metadata, CyborDynamic(1, 1, 1, 0, block));
        var event := Minted(ctx.sender, tid, tid + 1,
                            |post.base.ownerById| % U32_LIMIT, |post.base.tokensForOwner| % U32_LIMIT);
        Done(post, event, [])
  }

  /** `mint` after its checks: the entries of the token `tid` written for
      `owner`, and the counter moved past `tid`. */
  function Inserted(w: World, tid: TokenId, owner: ActorId, metadata: CyborMetadata, dynamic: CyborDynamic): (p: World)
    requires tid + 1 < U256_LIMIT
    ensures p.cybor.currentCyborId == tid + 1
    ensures p.cybor.metadataById.Keys == w.cybor.metadataById.Keys + {tid}
    ensures p.cybor.dynamicById.Keys == w.cybor.dynamicById.Keys + {tid}
    ensures p.cybor.metadataById[tid] == metadata && p.cybor.dynamicById[tid] == dynamic
    ensures tid in p.cybor.freezeById && p.cybor.freezeById[tid]
    ensures tid in p.base.ownerById && p.base.ownerById[tid] == owner
    ensures TokensOf(p, owner) == TokensOf(w, owner) + {tid}
    ensures forall t :: t != tid ==> SameToken(w, p, t)
    ensures forall a :: a != owner ==> SameAt(w.base.tokensForOwner, p.base.tokensForOwner, a)
    ensures p.base.tokenApprovals == w.base.tokenApprovals
  {
    var cybor := CyborState(
      w.cybor.metadataById[tid := metadata],
      w.cybor.dynamicById[tid := dynamic],
      w.cybor.freezeById[tid := true],
      tid + 1);
    var base := w.base.(
      tokensForOwner := w.base.tokensForOwner[owner := TokensOf(w, owner) + {tid}],
      ownerById := w.base.ownerById[tid := owner]);
    World(cybor, base)
  }

  /** `burn` after its checks: every entry of `tid` removed, and `tid`
      dropped from the sender's token set when the sender has one. */
  function Removed(w: World, tid: TokenId, from: ActorId): World
  {
    var cybor := w.cybor.(
      metadataById := w.cybor.metadataById - {tid},
      dynamicById := w.cybor.dynamicById - {tid},
      freezeById := w.cybor.freezeById - {tid});
    var tokensForOwner :=
      if from in w.base.tokensForOwner
      then w.base.tokensForOwner[from := w.base.tokensForOwner[from] - {tid}]
      else w.base.tokensForOwner;
    var base := Storage(w.base.ownerById - {tid}, tokensForOwner, w.base.tokenApprovals - {tid});
    World(cybor, base)
  }

  /** A burned token of this grade is owed a refund. */
  predicate OwesRefund(grade: u16)
  {
    grade > REFUND_GRADE_THRESHOLD
  }

  /** Everything `burn` needs to accept a message from `ctx`, given the
      host's answer `send` to the refund message. */
  predicate BurnAccepts(w: World, ctx: Context, send: SendResult, tid: TokenId)
  {
    && tid in w.base.ownerById
    && w.base.ownerById[tid] == ctx.sender
    && tid in w.cybor.metadataById
    && tid in w.cybor.dynamicById
    && (OwesRefund(w.cybor.dynamicById[tid].grade) ==>
          var price := w.cybor.metadataById[tid].cyborTemplate.price;
          && price <= ctx.valueAvailable
          && REFUND_GAS_LIMIT <= price
          && send.Accepted?)
  }

  /** `burn(tid)`: the owner destroys a token; above grade 2 the template
      price, less the gas reserved for the message, goes back to them. */
  function Burn(w: World, ctx: Context, send: SendResult, tid: TokenId): (o: Outcome)
    ensures tid !in w.base.ownerById ==> o == Fatal(NotMinted)
    ensures tid in w.base.ownerById && w.base.ownerById[tid] != ctx.sender ==> o == Fatal(NotOwner)
    ensures o.Done? <==> BurnAccepts(w, ctx, send, tid)
    ensures !o.NoOp?
    // refund rule
    ensures o.Done? && !OwesRefund(w.cybor.dynamicById[tid].grade) ==>
      o.sends == [] && o.event == Burned(ctx.sender, tid, DEFAULT_MESSAGE_ID)
    ensures o.Done? && OwesRefund(w.cybor.dynamicById[tid].grade) ==>
      var price := w.cybor.metadataById[tid].cyborTemplate.price;
      && o.sends == [Send(ctx.sender, REFUND_PAYLOAD, REFUND_GAS_LIMIT, price - REFUND_GAS_LIMIT)]
      && o.event.Burned? && o.event.from == ctx.sender && o.event.value == tid
      && send == Accepted(o.event.msgId)
    ensures (&& tid in w.base.ownerById && w.base.ownerById[tid] == ctx.sender
             && tid in w.cybor.metadataById && tid in w.cybor.dynamicById
             && OwesRefund(w.cybor.dynamicById[tid].grade)
             && w.cybor.metadataById[tid].cyborTemplate.price > ctx.valueAvailable)
            ==> o == Fatal(RefundUnfunded)
    // the token is gone and nothing else changes
    ensures o.Done? ==>
      var p := o.post;
      && p.cybor.metadataById.Keys == w.cybor.metadataById.Keys - {tid}
      && p.cybor.dynamicById.Keys == w.cybor.dynamicById.Keys - {tid}
      && tid !in p.cybor.freezeById
      && tid !in p.base.ownerById
      && tid !in p.base.tokenApprovals
      && TokensOf(p, ctx.sender) == TokensOf(w, ctx.sender) - {tid}
      && p.cybor.currentCyborId == w.cybor.currentCyborId
      && (forall t :: t != tid ==> SameToken(w, p, t))
      && (forall a :: a != ctx.sender ==> SameAt(w.base.tokensForOwner, p.base.tokensForOwner, a))
  {
    if tid !in w.base.ownerById then Fatal(NotMinted)
    else if w.base.ownerById[tid] != ctx.sender then Fatal(NotOwner)
    else if tid !in w.cybor.metadataById || tid !in w.cybor.dynamicById then Fatal(MissingEntry)
    else
      var owner := w.base.ownerById[tid];
      var price := w.cybor.metadataById[tid].cyborTemplate.price;
      var post := Removed(w, tid, ctx.sender);
      if !OwesRefund(w.cybor.dynamicById[tid].grade) then
        Done(post, Burned(ctx.sender, tid, DEFAULT_MESSAGE_ID), [])
      else if price > ctx.valueAvailable then Fatal(RefundUnfunded)
      // `template.price - gas_limit` on u128 panics below zero
      else if price < REFUND_GAS_LIMIT then Fatal(RefundUnderflow)
      else match send
        case Rejected => Fatal(SendFailed)
        case Accepted(id) =>
          Done(post, Burned(ctx.sender, tid, id),
               [Send(owner, REFUND_PAYLOAD, REFUND_GAS_LIMIT, price - REFUND_GAS_LIMIT)])
  }

  /** `tid` has an owner and the message comes from it. */
  predicate OwnedBySender(w: World, ctx: Context, tid: TokenId)
  {
    tid in w.base.ownerById && w.base.ownerById[tid] == ctx.sender
  }

  /** `w` with the dynamic record of `tid` replaced. */
  function WithDynamic(w: World, tid: TokenId, d: CyborDynamic): World
  {
    w.(cybor := w.cybor.(dynamicById := w.cybor.dynamicById[tid := d]))
  }

  /** `freeze(tid)`: the owner restarts accrual of a token that is not
      accruing. Everything else is ignored silently. */
  function Freeze(w: World, ctx: Context, tid: TokenId): (o: Outcome)
    ensures !OwnedBySender(w, ctx, tid) ==> o == NoOp
    ensures OwnedBySender(w, ctx, tid) && tid !in w.cybor.dynamicById ==> o == Fatal(MissingEntry)
    ensures (OwnedBySender(w, ctx, tid) && tid in w.cybor.dynamicById
             && w.cybor.dynamicById[tid].startAt != 0) ==> o == NoOp
    ensures o.Done? <==>
      OwnedBySender(w, ctx, tid) && tid in w.cybor.dynamicById && w.cybor.dynamicById[tid].startAt == 0
    ensures o.Done? ==>
      var p := o.post;
      var d := w.cybor.dynamicById[tid];
      && p.cybor.dynamicById.Keys == w.cybor.dynamicById.Keys
      && p.cybor.dynamicById[tid] == d.(startAt := ctx.blockHeight)
      && tid in p.cybor.freezeById && p.cybor.freezeById[tid]
      && p.cybor.metadataById == w.cybor.metadataById
      && p.cybor.currentCyborId == w.cybor.currentCyborId
      && p.base == w.base
      && (forall t :: t != tid ==> SameToken(w, p, t))
      && o.event == CyborEvent.Freeze(ctx.sender, tid)
      && o.sends == []
  {
    if !OwnedBySender(w, ctx, tid) then NoOp
    else if tid !in w.cybor.dynamicById then Fatal(MissingEntry)
    else
      var d := w.cybor.dynamicById[tid];
      if d.startAt != 0 then NoOp
      else
        var w1 := WithDynamic(w, tid, d.(startAt := ctx.blockHeight));
        var w2 := w1.(cybor := w1.cybor.(freezeById := w1.cybor.freezeById[tid := true]));
        Done(w2, CyborEvent.Freeze(ctx.sender, tid), [])
  }

  /** `unfreeze(tid)`: the owner stops accrual and banks the experience.
      As written, the handler resets `start_at` to 0 before it computes
      `block_height - start_at`, so the banked amount is the whole block
      height rather than the length of the accrual window. */
  function Unfreeze(w: World, ctx: Context, tid: TokenId): (o: Outcome)
    ensures !OwnedBySender(w, ctx, tid) ==> o == NoOp
    ensures OwnedBySender(w, ctx, tid) && tid !in w.cybor.dynamicById ==> o == Fatal(MissingEntry)
    ensures o.Done? <==>
      && OwnedBySender(w, ctx, tid)
      && tid in w.cybor.dynamicById
      && w.cybor.dynamicById[tid].exp + ctx.blockHeight < U128_LIMIT
    ensures !o.NoOp? <==> OwnedBySender(w, ctx, tid)
    ensures o.Done? ==>
      var p := o.post;
      var d := w.cybor.dynamicById[tid];
      && p.cybor.dynamicById.Keys == w.cybor.dynamicById.Keys
      && tid !in p.cybor.freezeById
      && (var d' := p.cybor.dynamicById[tid];
          && d'.startAt == 0
          && d'.exp == d.exp + ctx.blockHeight
          && d'.level == d.level && d'.grade == d.grade && d'.lucky == d.lucky)
      && p.cybor.metadataById == w.cybor.metadataById
      && p.cybor.currentCyborId == w.cybor.currentCyborId
      && p.base == w.base
      && (forall t :: t != tid ==> SameToken(w, p, t))
      && o.event == UnFreeze(ctx.sender, tid)
      && o.sends == []
  {
    if !OwnedBySender(w, ctx, tid) then NoOp
    else if tid !in w.cybor.dynamicById then Fatal(MissingEntry)
    else
      var w1 := w.(cybor := w.cybor.(freezeById := w.cybor.freezeById - {tid}));
      // `start_at = 0` first, then `exp += block_height - start_at`
      var reset := w.cybor.dynamicById[tid].(startAt := 0);
      var banked := reset.exp + (ctx.blockHeight - reset.startAt);
      if banked >= U128_LIMIT then Fatal(Overflow)
      else Done(WithDynamic(w1, tid, reset.(exp := banked)), UnFreeze(ctx.sender, tid), [])
  }

  /** `up_level(tid)`: the owner pays at least 101 * 10^12 and spends
      864000 experience for one level; the grade is re-derived as level / 10. */
  function UpLevel(w: World, ctx: Context, tid: TokenId): (o: Outcome)
    ensures !OwnedBySender(w, ctx, tid) ==> o == NoOp
    ensures OwnedBySender(w, ctx, tid) && ctx.value < LEVEL_UP_VALUE_FLOOR ==> o == Fatal(LowValue)
    ensures (&& OwnedBySender(w, ctx, tid) && LEVEL_UP_VALUE_FLOOR <= ctx.value
             && tid in w.cybor.dynamicById && w.cybor.dynamicById[tid].exp < LEVEL_UP_EXP_COST)
            ==> o == Fatal(LowExp)
    ensures o.Done? <==>
      && OwnedBySender(w, ctx, tid)
      && LEVEL_UP_VALUE_FLOOR <= ctx.value
      && tid in w.cybor.dynamicById
      && LEVEL_UP_EXP_COST <= w.cybor.dynamicById[tid].exp
      && w.cybor.dynamicById[tid].level + 1 < U16_LIMIT
    ensures o.Done? ==>
      var p := o.post;
      var d := w.cybor.dynamicById[tid];
      && p.cybor.dynamicById.Keys == w.cybor.dynamicById.Keys
      && (var d' := p.cybor.dynamicById[tid];
          && d'.exp + LEVEL_UP_EXP_COST == d.exp
          && d'.level == d.level + 1
          && d'.grade * 10 <= d'.level < d'.grade * 10 + 10
          && d'.lucky == d.lucky && d'.startAt == d.startAt)
      && p.cybor.metadataById == w.cybor.metadataById
      && p.cybor.freezeById == w.cybor.freezeById
      && p.cybor.currentCyborId == w.cybor.currentCyborId
      && p.base == w.base
      && (forall t :: t != tid ==> SameToken(w, p, t))
      && o.event == Uplevel(ctx.sender, tid)
      && o.sends == []
  {
    if !OwnedBySender(w, ctx, tid) then NoOp
    else if ctx.value < LEVEL_UP_VALUE_FLOOR then Fatal(LowValue)
    else if tid !in w.cybor.dynamicById then Fatal(MissingEntry)
    else
      var d := w.cybor.dynamicById[tid];
      if d.exp < LEVEL_UP_EXP_COST then Fatal(LowExp)
      // `level += 1` on a u16 panics on overflow
      else if d.level + 1 >= U16_LIMIT then Fatal(Overflow)
      else
        var level := d.level + 1;
        var d' := d.(exp := d.exp - LEVEL_UP_EXP_COST, level := level, grade := level / 10);
        Done(WithDynamic(w, tid, d'), Uplevel(ctx.sender, tid), [])
  }

  /** `cybor_metadata(tid)`: the immutable record, or the default one. */
  function MetadataOf(w: World, tid: TokenId): CyborMetadata
  {
    if tid in w.cybor.metadataById then w.cybor.metadataById[tid] else DEFAULT_METADATA
  }

  /** The answer of a query; a query that panics answers nothing. */
  datatype Reply<T> = Answer(value: T) | Panicked

  /** The live experience `exp + block_height - start_at`, evaluated left to
      right in u128: the sum may overflow and the difference may underflow. */
  function LiveExp(d: CyborDynamic, blockHeight: u32): (r: Reply<u128>)
    ensures r.Answer? <==> d.exp + blockHeight < U128_LIMIT && d.startAt <= d.exp + blockHeight
    ensures r.Answer? ==> r.value + d.startAt == d.exp + blockHeight
  {
    var sum := d.exp + blockHeight;
    if sum >= U128_LIMIT || sum < d.startAt then Panicked else Answer(sum - d.startAt)
  }

  /** `cybor_info(tid)` at `blockHeight`: the template and metadata fields,
      the dynamic fields with live experience, and whether the freeze flag
      is present. Each part falls back to the default when its table has
      no entry. The view reads the state and returns none. */
  function CyborInfo(w: World, blockHeight: u32, tid: TokenId): (r: Reply<CyborStream>)
    ensures r.Panicked? <==> tid in w.cybor.dynamicById && LiveExp(w.cybor.dynamicById[tid], blockHeight).Panicked?
    ensures r.Answer? ==> (r.value.isFreeze <==> tid in w.cybor.freezeById)
    ensures r.Answer? && tid in w.cybor.metadataById ==>
      var m := w.cybor.metadataById[tid];
      && r.value.raceName == m.cyborTemplate.raceName
      && r.value.basicDamage == m.cyborTemplate.basicDamage
      && r.value.basicHp == m.cyborTemplate.basicHp
      && r.value.basicMoveSpeed == m.cyborTemplate.basicMoveSpeed
      && r.value.basicKnockdownHit == m.cyborTemplate.basicKnockdownHit
      && r.value.scorePerBlock == m.cyborTemplate.scorePerBlock
      && r.value.isHaveFinishingSkill == m.isHaveFinishingSkill
      && r.value.mintAt == m.mintAt
      && r.value.image == m.image
    ensures r.Answer? && tid in w.cybor.dynamicById ==>
      var d := w.cybor.dynamicById[tid];
      && r.value.level == d.level
      && r.value.grade == d.grade
      && r.value.lucky == d.lucky
      && r.value.exp + d.startAt == d.exp + blockHeight
    ensures (tid !in w.cybor.metadataById && tid !in w.cybor.dynamicById && tid !in w.cybor.freezeById)
            ==> r == Answer(DEFAULT_STREAM)
  {
    var s0 := DEFAULT_STREAM;
    var s1 :=
      if tid in w.cybor.metadataById then
        var m := w.cybor.metadataById[tid];
        s0.(raceName := m.cyborTemplate.raceName,
            basicDamage := m.cyborTemplate.basicDamage,
            basicHp := m.cyborTemplate.basicHp,
            basicMoveSpeed := m.cyborTemplate.basicMoveSpeed,
            basicKnockdownHit := m.cyborTemplate.basicKnockdownHit,
            scorePerBlock := m.cyborTemplate.scorePerBlock,
            isHaveFinishingSkill := m.isHaveFinishingSkill,
            mintAt := m.mintAt,
            image := m.image)
      else s0;
    if tid in w.cybor.dynamicById then
      var d := w.cybor.dynamicById[tid];
      match LiveExp(d, blockHeight)
      case Panicked => Panicked
      case Answer(exp) =>
        Answer(s1.(level := d.level, grade := d.grade, lucky := d.lucky, exp := exp,
                   isFreeze := tid in w.cybor.freezeById))
    else
      Answer(s1.(isFreeze := tid in w.cybor.freezeById))
  }
}
