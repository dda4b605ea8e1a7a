# Cybor token ledger — a Dafny model

This project models the Cybor NFT service of the Sigmaverse contract. The
service is a ledger of "Cybor" tokens kept by a single-threaded actor
program. Each token has three records, keyed by token id:

- an immutable metadata record: race, a snapshot of the race template, the
  finishing-skill flag, the mint block and an image;
- a mutable dynamic record: level, grade, luck, banked experience and the
  block at which the current accrual window began (0 when not accruing);
- a freeze flag, present while the token accrues experience.

A counter hands out token ids from 100 on. The handlers also read and write
the ownership maps of the base NFT service: `owner_by_id`,
`tokens_for_owner` and `token_approvals`.

Each handler is one pure transition from the state before a message to an
`Outcome`:

- `Fatal(reason)` is a panic. The host rolls the message back, so the state
  stays as it was and no event is published.
- `NoOp` is a silent ignore.
- `Done(post, event, sends)` is success. It carries the new state, the one
  event published, and the value-carrying messages the handler asked the
  host to send.

The host supplies the sender, attached value, block height and callable
balance as a `Context`. Its answer to the refund send is an input
(`SendResult`).

Files:

- `types.dfy` (module `Types`): fixed-width integers as subset types
  (`u16`, `u32`, `u128`, `u256`), the contract constants, races, templates,
  per-token records, events, the context and the fatal reasons. The
  template lookup `get_template` is `Types.GetTemplate`.
- `ledger.dfy` (module `Ledger`): the state (`CyborState`, the base
  `Storage`, `World`) and `CyborState::new`. It also holds the invariant
  `Valid`, which requires:
  - the metadata and dynamic tables have the same keys;
  - at most 100000 tokens are live;
  - the counter is at least 100;
  - every live token has an id below the counter, an owner who lists it in
    `tokens_for_owner`, a level of at least 1 and a grade not above its
    level;
  - a token without a freeze flag has `start_at == 0`;
  - freeze flags exist only for live tokens and are always `true`.
- `service.dfy` (module `Service`): `max_supply`, `mint`, `burn`, `freeze`,
  `unfreeze`, `up_level`, `cybor_metadata` and `cybor_info`.
- `invariants.dfy` (module `Invariants`): each handler preserves `Valid`.
  It also defines message dispatch (`Step`) and delivery of a message
  sequence (`Run`). It proves experience accounting, that metadata never
  changes, and that template snapshots match `get_template`.
- `laws.dfy` (module `Laws`): the mint-then-burn round trip, accrual through
  freeze, unfreeze and `cybor_info`, and the boundaries of the supply,
  price, level-up and refund checks.

Integer widths follow the source. Checked arithmetic that would leave its
width is a panic, as in a build with overflow checks:

- the U256 counter increment (the U256 type panics on overflow in every
  build);
- `level += 1` on a `u16`;
- `exp += block_height` on a `u128`;
- `price - 2_880_000` on a `u128`;
- the view's `exp + block_height - start_at`.

The `len() as u32` casts truncate modulo 2^32.

Where the code and the intended design disagree, this model follows the
code:

- `unfreeze` sets `start_at = 0` before it computes
  `exp += block_height - start_at`. It therefore banks the whole block
  height, not the length of the accrual window. `Laws.FreezeThenUnfreeze`
  shows this: a freeze followed by an unfreeze in the same block `b` adds
  `b`, not 0. `Laws.AccrualScenario` shows the same effect: mint at 10,
  unfreeze at 30, freeze at 50 and a query at 75 report 55 where the
  elapsed-window reading gives 45.
- The invariant does not claim `grade == level / 10`, because `mint` writes
  level 1 with grade 1. Only `up_level` re-derives the grade.
- The invariant does not claim that every live token has a freeze flag,
  because `unfreeze` removes it.
- A freshly minted token already accrues (`start_at` is its mint block), so
  `freeze` ignores it unless it was minted at block 0
  (`Laws.FreezeFreshToken`).

## Model

| member | source | states |
|---|---|---|
| `Ledger.NewIsValid` | contracts/sigmaverse/app/src/cybor_nft/mod.rs:60-66 | The fresh token store has no live token, its counter is 100, and it satisfies the ledger invariant whatever the base storage holds. |
| `Service.Mint` | contracts/sigmaverse/app/src/cybor_nft/mod.rs:212-295 | Mint fails on the zero sender, then on a full supply (table size cast to u32 at or above 100000), then on attached value below the price; a value equal to the price passes. It succeeds exactly when every check passes (and the U256 counter does not overflow); it is never silently ignored. On success the new token takes the old counter value and the counter advances by one. Its metadata snapshots `get_template(race)`, has `mint_at` = block and the finishing skill iff block % 100 == 0. Its dynamic record is level 1, grade 1, lucky 1, exp 0, start_at = block. Its freeze flag is true, it is owned by the sender and added to the sender's token set, and the Minted event reports it. No other token's entries, no other owner's token set and no approval change. |
| `Service.Inserted` | contracts/sigmaverse/app/src/cybor_nft/mod.rs:241-282 | Writing a new token adds exactly its id to the metadata and dynamic tables and to the owner's token set. It sets its owner and freeze flag and moves the counter past it. Every other token's entries are untouched. |
| `Service.Burn` | contracts/sigmaverse/app/src/cybor_nft/mod.rs:297-358 | Burn fails if the token has no owner, or if the owner is not the sender, and is never silently ignored. It succeeds exactly when the token is owned by the sender with both records present. For a token above grade 2 it also needs the program balance to cover the price, the price to be at least 2880000 and the send to be accepted. At grade 2 or below nothing is sent and the event carries the default message id. Above grade 2 exactly one message goes to the sender with gas limit 2880000 and value price - 2880000, and the event carries its id. On success the token leaves metadata, dynamic, freeze, `owner_by_id`, `token_approvals` and the sender's token set, and nothing else changes. |
| `Service.Freeze` | contracts/sigmaverse/app/src/cybor_nft/mod.rs:360-379 | Freeze acts exactly when the sender owns the token and its `start_at` is 0. It then sets `start_at` to the block height and the freeze flag to true, and emits Freeze. A non-owner, a missing token or an accruing token is a silent no-op. No other entry changes. |
| `Service.Unfreeze` | contracts/sigmaverse/app/src/cybor_nft/mod.rs:381-398 | A non-owner or a missing token is a silent no-op. For the owner, unfreeze removes the freeze flag and leaves `start_at` at 0. As written, exp grows by exactly the block height. Level, grade and luck are kept, and no other entry changes. |
| `Service.UpLevel` | contracts/sigmaverse/app/src/cybor_nft/mod.rs:517-543 | A non-owner or a missing token is a silent no-op. For the owner, up_level fails on attached value below 101·10^12, then on exp below 864000. Otherwise exp drops by exactly 864000 and level rises by one. The grade becomes level / 10 (stated as grade·10 ≤ level < grade·10 + 10). Nothing else changes. |
| `Service.LiveExp` | contracts/sigmaverse/app/src/cybor_nft/mod.rs:504 | The live experience is defined exactly when `exp + block_height` fits in u128 and is at least `start_at`. It then equals the banked exp plus the blocks since `start_at`. |
| `Service.CyborInfo` | contracts/sigmaverse/app/src/cybor_nft/mod.rs:482-515 | The view copies the template and metadata fields of a live token, and its level, grade and luck. It reports exp = banked exp + block height - start_at, and `is_freeze` iff the freeze flag is present. A token with no entries gets the default view with `is_freeze` false. The query fails only when the live-exp arithmetic leaves u128. It is a function of the state and changes none of it. |
| `Invariants.MintPreservesValid` | contracts/sigmaverse/app/src/cybor_nft/mod.rs:212-295 | A mint keeps the ledger invariant: equal metadata/dynamic keys, the supply cap, and live ids owned, listed and below the counter. |
| `Invariants.MintedSize` | contracts/sigmaverse/app/src/cybor_nft/mod.rs:219-221 | Below the cap, adding one fresh id keeps the table at most 100000. |
| `Invariants.KeptWellFormed` | contracts/sigmaverse/app/src/cybor_nft/mod.rs:271-280 | A token whose entries a message leaves alone, and whose owner still lists it, stays well formed. |
| `Invariants.BurnPreservesValid` | contracts/sigmaverse/app/src/cybor_nft/mod.rs:297-358 | A burn keeps the ledger invariant. |
| `Invariants.FreezePreservesValid` | contracts/sigmaverse/app/src/cybor_nft/mod.rs:360-379 | A freeze keeps the ledger invariant. |
| `Invariants.UnfreezePreservesValid` | contracts/sigmaverse/app/src/cybor_nft/mod.rs:381-398 | An unfreeze keeps the ledger invariant. |
| `Invariants.UpLevelPreservesValid` | contracts/sigmaverse/app/src/cybor_nft/mod.rs:517-543 | A level-up keeps the ledger invariant. |
| `Invariants.StepPreservesValid` | contracts/sigmaverse/app/src/cybor_nft/mod.rs:122-551 | Whichever of the five Cybor handlers (mint, burn, freeze, unfreeze, up_level) a message calls, the ledger invariant holds after it. |
| `Invariants.RunPreservesValid` | contracts/sigmaverse/app/src/cybor_nft/mod.rs:52-66 | Every state reached from a valid one by any sequence of Cybor handler messages (mint, burn, freeze, unfreeze, up_level) is valid, and the counter never goes back. |
| `Invariants.StepKeepsCounterMonotone` | contracts/sigmaverse/app/src/cybor_nft/mod.rs:282 | Only a mint moves the counter, and by exactly one. |
| `Invariants.StepExpAccounting` | contracts/sigmaverse/app/src/cybor_nft/mod.rs:527-531 | For a token live before and after a message, exp never decreases, except by exactly 864000 in its own successful level-up. |
| `Invariants.StepKeepsMetadata` | contracts/sigmaverse/app/src/cybor_nft/mod.rs:35-41 | A token live before and after any message keeps exactly the metadata record its mint wrote. |
| `Invariants.RunKeepsTemplates` | contracts/sigmaverse/app/src/cybor_nft/mod.rs:196-210 | Over any sequence of messages, every live token's template snapshot equals what `get_template` returns for its race. |
| `Laws.MintThenBurn` | contracts/sigmaverse/app/src/cybor_nft/mod.rs:337-351 | A burn by the minter right after a mint succeeds without refund. It restores the metadata, dynamic and freeze tables exactly and removes the id from `owner_by_id`, `token_approvals` and the sender's token set. The counter stays advanced, and the sender keeps a `tokens_for_owner` entry, empty if it had none before; every other actor's entry is unchanged. |
| `Laws.AgreeOffActor` | contracts/sigmaverse/app/src/cybor_nft/mod.rs:342-345 | Two updates of the per-actor token sets that agree off one actor and end with an entry for it amount to overwriting that actor's entry. |
| `Laws.AgreeOffKey` | contracts/sigmaverse/app/src/cybor_nft/mod.rs:339-341 | Two table updates that agree off one key and end without it amount to removing that key. |
| `Laws.MetadataAfterMintAndBurn` | contracts/sigmaverse/app/src/cybor_nft/mod.rs:400-407 | After a mint, `cybor_metadata` returns the record the mint wrote. After a burn it returns the default record. |
| `Laws.FreshMintInfo` | contracts/sigmaverse/app/src/cybor_nft/mod.rs:500-505 | A token minted at b0 and queried at b1 ≥ b0 reports exp b1 - b0, level, grade and luck 1, its mint block and its template name, and `is_freeze` true. |
| `Laws.BurnedInfo` | contracts/sigmaverse/app/src/cybor_nft/mod.rs:497-513 | After a burn, `cybor_info` for that id is the default view with `is_freeze` false. |
| `Laws.FreezeThenUnfreeze` | contracts/sigmaverse/app/src/cybor_nft/mod.rs:386-390 | An accepted freeze followed by an unfreeze in the same block b leaves `start_at` 0 and no freeze flag. As written it adds b to exp, although the accrual window was empty. |
| `Laws.FreezeFreshToken` | contracts/sigmaverse/app/src/cybor_nft/mod.rs:366 | Freeze ignores a freshly minted token iff it was not minted at block 0. |
| `Laws.AccrualScenario` | contracts/sigmaverse/app/src/cybor_nft/mod.rs:389-390 | Mint at 10, unfreeze at 30, freeze at 50 and a query at 75 report exp 55 as written (30 banked plus 25 live). |
| `Laws.MintPriceBoundary` | contracts/sigmaverse/app/src/cybor_nft/mod.rs:231 | A value equal to the price passes the price check. One unit less fails with Underpaid. |
| `Laws.SupplyBoundary` | contracts/sigmaverse/app/src/cybor_nft/mod.rs:219 | In a valid ledger, mint refuses for supply exactly when the number of live tokens reaches `max_supply` (mod.rs:131-133, modelled by `Service.MaxSupply`: 100000). |
| `Laws.UpLevelBoundary` | contracts/sigmaverse/app/src/cybor_nft/mod.rs:527-531 | For any owned token whose level can still grow within `u16`, level-up with exp exactly 864000 succeeds and leaves exp 0. With 863999 it fails with LowExp. |
| `Laws.BurnRefundBoundary` | contracts/sigmaverse/app/src/cybor_nft/mod.rs:315-328 | A burn at grade 2 sends nothing and reports the default message id. At grade 3 it sends price - 2880000 to the owner and reports the send's id. |

## Left out

- `debug_info`, `all_cybors` and `all_my_cybors`: their output order is the reverse of hash-map iteration order, which is unspecified. `debug_info` also duplicates one list, and `all_my_cybors` prepends a hard-coded id-1 entry. They are read-only and change no state.
- The `DEBUG` event variant: nothing emits it (its only emission is commented out).
- The program shell (`lib.rs`): static singletons and exactly-once initialisation. Only the counter's start value from `CyborState::new` matters, and `Ledger.NewIsValid` covers it.
- The base NFT service (transfer and approval logic), the Imprint NFT module and the `stream` module are not part of this model. The base maps appear only as far as the Cybor handlers touch them. `CyborStream`'s fields are read off their uses.
- The race template constants are not part of this model. `Registry` takes them as a parameter, so every property holds for any template values.
- Host calls (`msg::source`, `msg::value`, `exec::block_height`, `exec::value_available`, `msg::send_bytes_with_gas`) become the `Context` and `SendResult` inputs. Event publication (`notify_on`) becomes the returned event; its result is ignored in the source. SCALE encoding is not modelled.
- Shared-cell borrows: `burn` takes a mutable borrow (mod.rs:337) while an earlier borrow is live (mod.rs:309), and `freeze` does the same (mod.rs:369 vs 364). With a standard `RefCell` these would panic at run time. The model treats each handler as one atomic transition instead.
- Overflow behaviour in a build without overflow checks: there `level += 1`, `exp += block_height`, `price - 2_880_000` and the view's live-exp sum would wrap instead of panicking. The model panics in every such case.
- `ActorId` is a number with the zero address 0; its 32-byte layout is not modelled. Message ids are numbers with default 0.
- Invariants.StepPreservesValid: covers only the five Cybor handlers. The base service's transfer and approval messages are not part of this model; the invariant relies on them keeping every live token listed in its owner's token set.
- Invariants.RunPreservesValid: the message sequences it covers contain Cybor handler messages only, for the same reason.
- `Ledger.Valid` says nothing about entries of the base maps for ids that are not live Cybors. Those maps are shared with code outside the model.
- The test file calls `mint` once and asserts `1 == 1`; it states no property.
