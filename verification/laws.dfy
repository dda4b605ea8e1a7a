/** Laws relating the handlers to each other and to the views: the
    mint-then-burn round trip, experience accrual across freeze, unfreeze
    and the `cybor_info` view, and the boundaries of the price, supply,
    level-up and refund checks. */
module Laws {
  import opened Types
  import opened Ledger
  import opened Service

  /** A context that differs from `ctx` only in the block height. */
  function AtBlock(ctx: Context, block: u32): Context
  {
    ctx.(blockHeight := block)
  }

  /** Burning a token right after minting it, as the same sender, succeeds
      without refund (a new token has grade 1), restores the three token
      tables exactly and removes the id from every ownership map. The
      counter stays advanced, and the sender keeps a `tokens_for_owner`
      entry, which is empty if the sender had none before. */
  lemma MintThenBurn(w: World, reg: Registry, ctx: Context, race: CyborRace, burnCtx: Context, send: SendResult)
    requires Valid(w)
    requires MintAccepts(w, reg, ctx, race)
    requires burnCtx.sender == ctx.sender
    ensures var tid := w.cybor.currentCyborId;
      var b := Burn(Mint(w, reg, ctx, race).post, burnCtx, send, tid);
      && b.Done?
      && b.sends == []
      && b.event == Burned(ctx.sender, tid, DEFAULT_MESSAGE_ID)
      && b.post.cybor.metadataById == w.cybor.metadataById
      && b.post.cybor.dynamicById == w.cybor.dynamicById
      && b.post.cybor.freezeById == w.cybor.freezeById
      && b.post.cybor.currentCyborId == tid + 1
      && b.post.base.ownerById == w.base.ownerById - {tid}
      && b.post.base.tokenApprovals == w.base.tokenApprovals - {tid}
      && TokensOf(b.post, ctx.sender) == TokensOf(w, ctx.sender) - {tid}
      && b.post.base.tokensForOwner == w.base.tokensForOwner[ctx.sender := TokensOf(w, ctx.sender) - {tid}]
  {
    var tid := w.cybor.currentCyborId;
    assert TokenWellFormed(w, tid);
    var o := Mint(w, reg, ctx, race);
    var m := o.post;
    var b := Burn(m, burnCtx, send, tid);
    assert b.Done?;
    var p := b.post;
    forall t | t != tid
      ensures SameAt(w.cybor.metadataById, m.cybor.metadataById, t) && SameAt(m.cybor.metadataById, p.cybor.metadataById, t)
      ensures SameAt(w.cybor.dynamicById, m.cybor.dynamicById, t) && SameAt(m.cybor.dynamicById, p.cybor.dynamicById, t)
      ensures SameAt(w.cybor.freezeById, m.cybor.freezeById, t) && SameAt(m.cybor.freezeById, p.cybor.freezeById, t)
      ensures SameAt(w.base.ownerById, m.base.ownerById, t) && SameAt(m.base.ownerById, p.base.ownerById, t)
      ensures SameAt(w.base.tokenApprovals, m.base.tokenApprovals, t) && SameAt(m.base.tokenApprovals, p.base.tokenApprovals, t)
    {
      assert SameToken(w, m, t) && SameToken(m, p, t);
    }
    AgreeOffKey(w.cybor.metadataById, m.cybor.metadataById, p.cybor.metadataById, tid);
    AgreeOffKey(w.cybor.dynamicById, m.cybor.dynamicById, p.cybor.dynamicById, tid);
    AgreeOffKey(w.cybor.freezeById, m.cybor.freezeById, p.cybor.freezeById, tid);
    AgreeOffKey(w.base.ownerById, m.base.ownerById, p.base.ownerById, tid);
    AgreeOffKey(w.base.tokenApprovals, m.base.tokenApprovals, p.base.tokenApprovals, tid);
    forall a | a != ctx.sender
      ensures SameAt(w.base.tokensForOwner, m.base.tokensForOwner, a) && SameAt(m.base.tokensForOwner, p.base.tokensForOwner, a)
    {
    }
    AgreeOffActor(w.base.tokensForOwner, m.base.tokensForOwner, p.base.tokensForOwner, ctx.sender);
  }

  /** Two steps that agree on every actor but `k`, the last of which keeps an
      entry for `k`, amount to overwriting `k`'s entry. */
  lemma AgreeOffActor<V>(before: map<ActorId, V>, between: map<ActorId, V>, after: map<ActorId, V>, k: ActorId)
    requires k in after
    requires forall a :: a != k ==> SameAt(before, between, a) && SameAt(between, after, a)
    ensures after == before[k := after[k]]
  {
    var r := before[k := after[k]];
    assert after.Keys == r.Keys by {
      forall a | a in after.Keys ensures a in r.Keys {
        assert a == k || (SameAt(before, between, a) && SameAt(between, after, a));
      }
      forall a | a in r.Keys ensures a in after.Keys {
        assert a == k || (SameAt(before, between, a) && SameAt(between, after, a));
      }
    }
    forall a | a in after ensures after[a] == r[a] {
      assert a == k || (SameAt(before, between, a) && SameAt(between, after, a));
    }
  }

  /** Two steps `before` to `between` to `after` that agree on every key but
      `k`, the last of which removes `k`, amount to removing `k`. */
  lemma AgreeOffKey<V>(before: map<TokenId, V>, between: map<TokenId, V>, after: map<TokenId, V>, k: TokenId)
    requires k !in after
    requires forall t :: t != k ==> SameAt(before, between, t) && SameAt(between, after, t)
    ensures after == before - {k}
    ensures k !in before ==> after == before
  {
    assert after.Keys == before.Keys - {k} by {
      forall t | t in after.Keys ensures t in before.Keys - {k} {
        assert SameAt(before, between, t) && SameAt(between, after, t);
      }
      forall t | t in before.Keys - {k} ensures t in after.Keys {
        assert SameAt(before, between, t) && SameAt(between, after, t);
      }
    }
    forall t | t in after ensures after[t] == before[t] {
      assert SameAt(before, between, t) && SameAt(between, after, t);
    }
    if k !in before {
      assert before - {k} == before;
    }
  }

  /** Right after a mint, `cybor_metadata` reports the record the mint
      wrote; right after a burn it reports the default record. */
  lemma MetadataAfterMintAndBurn(w: World, reg: Registry, ctx: Context, race: CyborRace,
                                 burnCtx: Context, send: SendResult, tid: TokenId)
    ensures var o := Mint(w, reg, ctx, race);
      o.Done? ==>
        MetadataOf(o.post, w.cybor.currentCyborId)
          == CyborMetadata(race, GetTemplate(reg, race), ctx.blockHeight % 100 == 0, ctx.blockHeight, "")
    ensures var o := Burn(w, burnCtx, send, tid);
      o.Done? ==> MetadataOf(o.post, tid) == DEFAULT_METADATA
  {
  }

  /** A token minted at block `b0` and queried at a later block `b1`
      reports `b1 - b0` experience, level, grade and luck 1, and a present
      freeze flag. */
  lemma FreshMintInfo(w: World, reg: Registry, ctx: Context, race: CyborRace, b1: u32)
    requires MintAccepts(w, reg, ctx, race)
    requires ctx.blockHeight <= b1
    ensures var tid := w.cybor.currentCyborId;
      var r := CyborInfo(Mint(w, reg, ctx, race).post, b1, tid);
      && r.Answer?
      && r.value.exp == b1 - ctx.blockHeight
      && r.value.level == 1 && r.value.grade == 1 && r.value.lucky == 1
      && r.value.mintAt == ctx.blockHeight
      && r.value.raceName == GetTemplate(reg, race).raceName
      && r.value.isFreeze
  {
  }

  /** After a burn, `cybor_info` answers the default view with no freeze flag. */
  lemma BurnedInfo(w: World, ctx: Context, send: SendResult, tid: TokenId, block: u32)
    requires Valid(w)
    ensures var o := Burn(w, ctx, send, tid);
      o.Done? ==> CyborInfo(o.post, block, tid) == Answer(DEFAULT_STREAM)
  {
  }

  /** `unfreeze` right after an accepted `freeze`, in the same block `b`:
      the accrual window is empty, yet as written the token banks `b`
      experience, because the handler resets `start_at` before it
      subtracts it. */
  lemma FreezeThenUnfreeze(w: World, ctx: Context, tid: TokenId)
    requires Service.Freeze(w, ctx, tid).Done?
    requires w.cybor.dynamicById[tid].exp + ctx.blockHeight < U128_LIMIT
    ensures var f := Service.Freeze(w, ctx, tid).post;
      var u := Unfreeze(f, ctx, tid);
      && u.Done?
      && u.post.cybor.dynamicById[tid].startAt == 0
      && u.post.cybor.dynamicById[tid].exp == w.cybor.dynamicById[tid].exp + ctx.blockHeight
      && tid !in u.post.cybor.freezeById
  {
  }

  /** A freshly minted token is already accruing (`start_at` is the mint
      block), so `freeze` ignores it unless it was minted at block 0. */
  lemma FreezeFreshToken(w: World, reg: Registry, ctx: Context, race: CyborRace, freezeCtx: Context)
    requires MintAccepts(w, reg, ctx, race)
    requires freezeCtx.sender == ctx.sender
    ensures var f := Service.Freeze(Mint(w, reg, ctx, race).post, freezeCtx, w.cybor.currentCyborId);
      f.NoOp? <==> ctx.blockHeight != 0
  {
  }

  /** The accrual scenario: mint at block 10, unfreeze at 30, freeze at 50,
      query at 75. As written the unfreeze banks 30 rather than the 20
      blocks of the window, so the view reports 30 + (75 - 50) = 55. */
  lemma AccrualScenario(w: World, reg: Registry, ctx: Context, race: CyborRace)
    requires MintAccepts(w, reg, ctx, race)
    requires ctx.blockHeight == 10
    ensures var tid := w.cybor.currentCyborId;
      var w1 := Mint(w, reg, ctx, race).post;
      var u := Unfreeze(w1, AtBlock(ctx, 30), tid);
      && u.Done? && u.post.cybor.dynamicById[tid].exp == 30
      && (var f := Service.Freeze(u.post, AtBlock(ctx, 50), tid);
          && f.Done? && f.post.cybor.dynamicById[tid].startAt == 50
          && (var r := CyborInfo(f.post, 75, tid);
              r.Answer? && r.value.exp == 55 && r.value.isFreeze))
  {
  }

  /** Attached value equal to the price passes the price check; one less fails it. */
  lemma MintPriceBoundary(w: World, reg: Registry, ctx: Context, race: CyborRace)
    requires ctx.sender != ZERO_ID && !SupplyExhausted(w)
    requires w.cybor.currentCyborId + 1 < U256_LIMIT
    requires GetTemplate(reg, race).price > 0
    ensures Mint(w, reg, ctx.(value := GetTemplate(reg, race).price), race).Done?
    ensures Mint(w, reg, ctx.(value := GetTemplate(reg, race).price - 1), race) == Fatal(Underpaid)
  {
  }

  /** In a valid ledger the supply check is exactly "100000 tokens live". */
  lemma SupplyBoundary(w: World)
    requires Valid(w)
    ensures SupplyExhausted(w) <==> |w.cybor.metadataById| == MAX_SUPPLY
  {
  }

  /** Level-up with exactly 864000 experience succeeds and leaves none;
      with one less it fails. */
  lemma UpLevelBoundary(w: World, ctx: Context, tid: TokenId)
    requires OwnedBySender(w, ctx, tid) && LEVEL_UP_VALUE_FLOOR <= ctx.value
    requires tid in w.cybor.dynamicById && w.cybor.dynamicById[tid].level + 1 < U16_LIMIT
    ensures var d := w.cybor.dynamicById[tid];
      var o := UpLevel(WithDynamic(w, tid, d.(exp := LEVEL_UP_EXP_COST)), ctx, tid);
      && o.Done?
      && o.post.cybor.dynamicById[tid].exp == 0
      && o.post.cybor.dynamicById[tid].level == d.level + 1
    ensures var d := w.cybor.dynamicById[tid];
      UpLevel(WithDynamic(w, tid, d.(exp := LEVEL_UP_EXP_COST - 1)), ctx, tid) == Fatal(LowExp)
  {
  }

  /** A burn at grade 2 sends nothing; at grade 3 it sends the owner the
      price less the 2880000 gas reserve. */
  lemma BurnRefundBoundary(w: World, ctx: Context, id: MessageId, tid: TokenId)
    requires OwnedBySender(w, ctx, tid)
    requires tid in w.cybor.metadataById && tid in w.cybor.dynamicById
    requires REFUND_GAS_LIMIT <= w.cybor.metadataById[tid].cyborTemplate.price <= ctx.valueAvailable
    ensures var d := w.cybor.dynamicById[tid];
      var o := Burn(WithDynamic(w, tid, d.(grade := 2)), ctx, Accepted(id), tid);
      o.Done? && o.sends == [] && o.event.msgId == DEFAULT_MESSAGE_ID
    ensures var d := w.cybor.dynamicById[tid];
      var price := w.cybor.metadataById[tid].cyborTemplate.price;
      var o := Burn(WithDynamic(w, tid, d.(grade := 3)), ctx, Accepted(id), tid);
      && o.Done?
      && o.sends == [Send(ctx.sender, REFUND_PAYLOAD, 2_880_000, price - 2_880_000)]
      && o.event.msgId == id
  {
  }
}
