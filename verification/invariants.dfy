/** The ledger invariant is kept by every Cybor handler, hence by every
    sequence of messages to those handlers; experience only moves the ways
    the handlers allow. */
module Invariants {
  import opened Types
  import opened Ledger
  import opened Service

  /** One message's worth of state: the same `Valid` world before and after. */
  lemma MintPreservesValid(w: World, reg: Registry, ctx: Context, race: CyborRace)
    requires Valid(w)
    ensures Valid(After(w, Mint(w, reg, ctx, race)))
  {
    var o := Mint(w, reg, ctx, race);
    if o.Done? {
      var p := o.post;
      var tid := w.cybor.currentCyborId;
      // the new id is not live yet: every live id is below the counter
      assert !Live(w, tid) by { assert TokenWellFormed(w, tid); }
      MintedSize(w, p, tid);
      forall t
        ensures TokenWellFormed(p, t)
      {
        if t != tid {
          KeptWellFormed(w, p, t, ctx.sender);
        }
      }
    }
  }

  /** Inserting a fresh id into a table below the supply cap stays within it. */
  lemma MintedSize(w: World, p: World, tid: TokenId)
    requires |w.cybor.metadataById| <= MAX_SUPPLY
    requires |w.cybor.metadataById| % U32_LIMIT < MAX_SUPPLY
    requires tid !in w.cybor.metadataById
    requires p.cybor.metadataById.Keys == w.cybor.metadataById.Keys + {tid}
    ensures |p.cybor.metadataById| <= MAX_SUPPLY
  {
    assert |w.cybor.metadataById| % U32_LIMIT == |w.cybor.metadataById|;
    assert |p.cybor.metadataById.Keys| == |w.cybor.metadataById.Keys| + 1;
  }

  /** A token whose own entries a message leaves alone, whose owner still
      lists it afterwards, and whose id stays below the counter, stays well
      formed. `actor` is the only one whose token set changed. */
  lemma KeptWellFormed(w: World, p: World, t: TokenId, actor: ActorId)
    requires TokenWellFormed(w, t)
    requires SameToken(w, p, t)
    requires w.cybor.currentCyborId <= p.cybor.currentCyborId
    requires forall a :: a != actor ==> SameAt(w.base.tokensForOwner, p.base.tokensForOwner, a)
    requires Live(w, t) && w.base.ownerById[t] == actor ==> t in TokensOf(p, actor)
    ensures TokenWellFormed(p, t)
  {
    if Live(w, t) {
      var owner := w.base.ownerById[t];
      assert SameAt(w.base.tokensForOwner, p.base.tokensForOwner, owner) || owner == actor;
    }
  }

  lemma BurnPreservesValid(w: World, ctx: Context, send: SendResult, tid: TokenId)
    requires Valid(w)
    ensures Valid(After(w, Burn(w, ctx, send, tid)))
  {
    var o := Burn(w, ctx, send, tid);
    if o.Done? {
      var p := o.post;
      assert |p.cybor.metadataById| <= |w.cybor.metadataById| by {
        assert p.cybor.metadataById.Keys <= w.cybor.metadataById.Keys;
        SubsetCard(p.cybor.metadataById.Keys, w.cybor.metadataById.Keys);
      }
      forall t
        ensures TokenWellFormed(p, t)
      {
        if t != tid {
          assert TokenWellFormed(w, t);
          KeptWellFormed(w, p, t, ctx.sender);
        }
      }
    }
  }

  /** A subset of a finite set is no larger. */
  lemma SubsetCard<T>(a: set<T>, b: set<T>)
    requires a <= b
    ensures |a| <= |b|
  {
    assert b == a + (b - a);
  }

  lemma FreezePreservesValid(w: World, ctx: Context, tid: TokenId)
    requires Valid(w)
    ensures Valid(After(w, Service.Freeze(w, ctx, tid)))
  {
    var o := Service.Freeze(w, ctx, tid);
    if o.Done? {
      var p := o.post;
      forall t
        ensures TokenWellFormed(p, t)
      {
        assert TokenWellFormed(w, t);
        if t != tid {
          assert SameToken(w, p, t);
        }
      }
    }
  }

  lemma UnfreezePreservesValid(w: World, ctx: Context, tid: TokenId)
    requires Valid(w)
    ensures Valid(After(w, Unfreeze(w, ctx, tid)))
  {
    var o := Unfreeze(w, ctx, tid);
    if o.Done? {
      var p := o.post;
      forall t
        ensures TokenWellFormed(p, t)
      {
        assert TokenWellFormed(w, t);
        if t != tid {
          assert SameToken(w, p, t);
        }
      }
    }
  }

  lemma UpLevelPreservesValid(w: World, ctx: Context, tid: TokenId)
    requires Valid(w)
    ensures Valid(After(w, UpLevel(w, ctx, tid)))
  {
    var o := UpLevel(w, ctx, tid);
    if o.Done? {
      var p := o.post;
      forall t
        ensures TokenWellFormed(p, t)
      {
        assert TokenWellFormed(w, t);
        if t != tid {
          assert SameToken(w, p, t);
        }
      }
    }
  }

  /** The state-changing Cybor service methods. The base service's transfer
      and approval methods are not part of this model. */
  datatype Request =
    | MintRequest(race: CyborRace)
    | BurnRequest(tid: TokenId)
    | FreezeRequest(tid: TokenId)
    | UnfreezeRequest(tid: TokenId)
    | UpLevelRequest(tid: TokenId)

  /** One inbound message: the host context, the host's answer to a refund
      send should the handler make one, and the method called. */
  datatype Message = Message(ctx: Context, send: SendResult, request: Request)

  /** Dispatch one message to its handler. */
  function Step(w: World, reg: Registry, m: Message): Outcome
  {
    match m.request
    case MintRequest(race) => Mint(w, reg, m.ctx, race)
    case BurnRequest(tid) => Burn(w, m.ctx, m.send, tid)
    case FreezeRequest(tid) => Service.Freeze(w, m.ctx, tid)
    case UnfreezeRequest(tid) => Unfreeze(w, m.ctx, tid)
    case UpLevelRequest(tid) => UpLevel(w, m.ctx, tid)
  }

  /** The host delivers messages one at a time, each to completion. */
  function Run(w: World, reg: Registry, ms: seq<Message>): World
    decreases |ms|
  {
    if |ms| == 0 then w else Run(After(w, Step(w, reg, ms[0])), reg, ms[1..])
  }

  lemma StepPreservesValid(w: World, reg: Registry, m: Message)
    requires Valid(w)
    ensures Valid(After(w, Step(w, reg, m)))
  {
    match m.request
    case MintRequest(race) => MintPreservesValid(w, reg, m.ctx, race);
    case BurnRequest(tid) => BurnPreservesValid(w, m.ctx, m.send, tid);
    case FreezeRequest(tid) => FreezePreservesValid(w, m.ctx, tid);
    case UnfreezeRequest(tid) => UnfreezePreservesValid(w, m.ctx, tid);
    case UpLevelRequest(tid) => UpLevelPreservesValid(w, m.ctx, tid);
  }

  /** Every ledger reached through the Cybor handlers is valid, and the
      counter never goes back. */
  lemma {:induction false} RunPreservesValid(w: World, reg: Registry, ms: seq<Message>)
    requires Valid(w)
    ensures Valid(Run(w, reg, ms))
    ensures w.cybor.currentCyborId <= Run(w, reg, ms).cybor.currentCyborId
    decreases |ms|
  {
    if |ms| > 0 {
      var w1 := After(w, Step(w, reg, ms[0]));
      StepPreservesValid(w, reg, ms[0]);
      StepKeepsCounterMonotone(w, reg, ms[0]);
      RunPreservesValid(w1, reg, ms[1..]);
    }
  }

  /** Only a successful mint moves the counter, and by exactly one. */
  lemma StepKeepsCounterMonotone(w: World, reg: Registry, m: Message)
    ensures var w' := After(w, Step(w, reg, m));
      || w'.cybor.currentCyborId == w.cybor.currentCyborId
      || (m.request.MintRequest? && w'.cybor.currentCyborId == w.cybor.currentCyborId + 1)
  {
  }

  /** The dynamic record of token `t`, for a live token of a valid world. */
  function DynamicOf(w: World, t: TokenId): CyborDynamic
    requires t in w.cybor.dynamicById
  {
    w.cybor.dynamicById[t]
  }

  /** Experience of a token that survives a message never decreases, except
      by exactly 864000 when that message is its own successful level-up. */
  lemma StepExpAccounting(w: World, reg: Registry, m: Message, t: TokenId)
    requires Valid(w)
    requires Live(w, t) && Live(After(w, Step(w, reg, m)), t)
    ensures Valid(After(w, Step(w, reg, m)))
    ensures var w' := After(w, Step(w, reg, m));
      || DynamicOf(w, t).exp <= DynamicOf(w', t).exp
      || (m.request == UpLevelRequest(t) && DynamicOf(w', t).exp + LEVEL_UP_EXP_COST == DynamicOf(w, t).exp)
  {
    StepPreservesValid(w, reg, m);
    var o := Step(w, reg, m);
    assert TokenWellFormed(w, t);
    if o.Done? {
      match m.request
      case MintRequest(_) =>
        assert t != w.cybor.currentCyborId;
        assert SameToken(w, o.post, t);
      case BurnRequest(tid) =>
        assert t != tid;
        assert SameToken(w, o.post, t);
      case FreezeRequest(tid) =>
        if t != tid { assert SameToken(w, o.post, t); }
      case UnfreezeRequest(tid) =>
        if t != tid { assert SameToken(w, o.post, t); }
      case UpLevelRequest(tid) =>
        if t != tid { assert SameToken(w, o.post, t); }
    }
  }

  /** The metadata of a token that survives a message is the record its
      mint wrote: no handler but `mint` and `burn` touches the table. */
  lemma StepKeepsMetadata(w: World, reg: Registry, m: Message, t: TokenId)
    requires Valid(w)
    requires Live(w, t) && Live(After(w, Step(w, reg, m)), t)
    ensures After(w, Step(w, reg, m)).cybor.metadataById[t] == w.cybor.metadataById[t]
  {
    var o := Step(w, reg, m);
    assert TokenWellFormed(w, t);
    if o.Done? {
      match m.request
      case MintRequest(_) =>
        assert t != w.cybor.currentCyborId;
        assert SameToken(w, o.post, t);
      case BurnRequest(tid) =>
        assert t != tid;
        assert SameToken(w, o.post, t);
      case FreezeRequest(tid) =>
      case UnfreezeRequest(tid) =>
      case UpLevelRequest(tid) =>
    }
  }

  /** Every live token carries the template `get_template` gives for its race. */
  ghost predicate TemplatesMatch(w: World, reg: Registry)
  {
    forall t :: t in w.cybor.metadataById ==>
      w.cybor.metadataById[t].cyborTemplate == GetTemplate(reg, w.cybor.metadataById[t].race)
  }

  /** Any sequence of messages keeps every live token's template snapshot
      equal to its race's template. */
  lemma {:induction false} RunKeepsTemplates(w: World, reg: Registry, ms: seq<Message>)
    requires Valid(w) && TemplatesMatch(w, reg)
    ensures TemplatesMatch(Run(w, reg, ms), reg)
    decreases |ms|
  {
    if |ms| > 0 {
      var w1 := After(w, Step(w, reg, ms[0]));
      StepPreservesValid(w, reg, ms[0]);
      forall t | t in w1.cybor.metadataById
        ensures w1.cybor.metadataById[t].cyborTemplate == GetTemplate(reg, w1.cybor.metadataById[t].race)
      {
        if Live(w, t) {
          StepKeepsMetadata(w, reg, ms[0], t);
        }
      }
      RunKeepsTemplates(w1, reg, ms[1..]);
    }
  }
}
