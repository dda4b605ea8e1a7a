/** The ledger's state: the Cybor token store (three keyed tables and the
    id counter) next to the base NFT service's ownership maps, which the
    Cybor handlers read and write directly; the outcome of one handler;
    and the invariant every accepted message preserves. */
module Ledger {
  import opened Types

  /** `CyborState`: the token store. */
  datatype CyborState = CyborState(
    metadataById: map<TokenId, CyborMetadata>,
    dynamicById: map<TokenId, CyborDynamic>,
    freezeById: map<TokenId, bool>,
    currentCyborId: TokenId)

  /** The base service's `Storage` maps the handlers touch. */
  datatype Storage = Storage(
    ownerById: map<TokenId, ActorId>,
    tokensForOwner: map<ActorId, set<TokenId>>,
    tokenApprovals: map<TokenId, ActorId>)

  datatype World = World(cybor: CyborState, base: Storage)

  /** The result of handling one message. `Fatal` is a panic: the host
      rolls the message back, so the state is the one before it. `NoOp`
      is a silent ignore. `Done` carries the new state, the one event the
      handler publishes and the value-carrying messages it asked the host
      to send. */
  datatype Outcome =
    | Fatal(reason: FatalReason)
    | NoOp
    | Done(post: World, event: CyborEvent, sends: seq<Send>)

  /** The state a message leaves behind. */
  function After(w: World, o: Outcome): World
  {
    if o.Done? then o.post else w
  }

  /** `CyborState::new`: empty tables, counter at 100. */
  function NewCyborState(): CyborState
  {
    CyborState(map[], map[], map[], FIRST_TOKEN_ID)
  }

  /** A token is live when it has a metadata entry. */
  predicate Live(w: World, t: TokenId)
  {
    t in w.cybor.metadataById
  }

  /** The per-token part of the invariant. A live token has an owner that
      lists it, an id the counter has passed, a level of at least 1 with a
      grade not above it, and it is accruing (`startAt != 0`) only while
      its freeze flag is present. A freeze flag only exists for a live
      token and is always `true`. */
  ghost predicate TokenWellFormed(w: World, t: TokenId)
  {
    && (Live(w, t) ==>
          && t < w.cybor.currentCyborId
          && t in w.base.ownerById
          && w.base.ownerById[t] in w.base.tokensForOwner
          && t in w.base.tokensForOwner[w.base.ownerById[t]]
          && t in w.cybor.dynamicById
          && 1 <= w.cybor.dynamicById[t].level
          && w.cybor.dynamicById[t].grade <= w.cybor.dynamicById[t].level
          && (t !in w.cybor.freezeById ==> w.cybor.dynamicById[t].startAt == 0))
    && (t in w.cybor.freezeById ==> Live(w, t) && w.cybor.freezeById[t])
  }

  /** The ledger invariant. */
  ghost predicate Valid(w: World)
  {
    && w.cybor.dynamicById.Keys == w.cybor.metadataById.Keys
    && |w.cybor.metadataById| <= MAX_SUPPLY
    && FIRST_TOKEN_ID <= w.cybor.currentCyborId
    && forall t :: TokenWellFormed(w, t)
  }

  /** `k` has the same entry, or the same absence, in both maps. */
  predicate SameAt<K, V(==)>(m: map<K, V>, m': map<K, V>, k: K)
  {
    (k in m <==> k in m') && (k in m ==> m[k] == m'[k])
  }

  /** Every per-token entry of `t` is the same in `w` and `w'`. */
  predicate SameToken(w: World, w': World, t: TokenId)
  {
    && SameAt(w.cybor.metadataById, w'.cybor.metadataById, t)
    && SameAt(w.cybor.dynamicById, w'.cybor.dynamicById, t)
    && SameAt(w.cybor.freezeById, w'.cybor.freezeById, t)
    && SameAt(w.base.ownerById, w'.base.ownerById, t)
    && SameAt(w.base.tokenApprovals, w'.base.tokenApprovals, t)
  }

  /** The tokens `a` holds according to `tokens_for_owner`, empty when absent. */
  function TokensOf(w: World, a: ActorId): set<TokenId>
  {
    if a in w.base.tokensForOwner then w.base.tokensForOwner[a] else {}
  }

  /** A fresh token store is valid whatever the base storage holds: it has
      no live token and its counter starts at 100. */
  lemma NewIsValid(base: Storage)
    ensures Valid(World(NewCyborState(), base))
    ensures World(NewCyborState(), base).cybor.currentCyborId == 100
    ensures forall t :: !Live(World(NewCyborState(), base), t)
  {
  }
}
