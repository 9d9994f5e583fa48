/**
 * The player's input handler: placement mode, whether the player may shoot, and the
 * batched hand-over of a carried stack to a block. The delayed callbacks of a drop are
 * taken to run in the order they are scheduled: batch i's timer body, then its
 * transfer-arrival body.
 */
module Input {
  import opened Wrappers
  import opened Content

  /** A block recipe the player has selected for placement. */
  datatype Recipe = Recipe(id: nat)

  /** What a drop does outside the handler: a stack handed to the target block, or the player's inventory cleared. */
  datatype Effect = HandleStack(item: Item, amount: int) | ClearInventory

  /** Total amount handed to blocks by a run of effects. */
  function Delivered(es: seq<Effect>): int
  {
    if es == [] then 0
    else (if es[0].HandleStack? then es[0].amount else 0) + Delivered(es[1..])
  }

  /** How many times the inventory is cleared by a run of effects. */
  function Clears(es: seq<Effect>): nat
  {
    if es == [] then 0 else (if es[0].ClearInventory? then 1 else 0) + Clears(es[1..])
  }

  function Clamp(v: int, lo: int, hi: int): int
    requires lo <= hi
  {
    if v < lo then lo else if v > hi then hi else v
  }

  /** The number of batches an accepted amount is sent in. */
  function Batches(accepted: int): (sent: int)
    requires accepted > 0
    ensures 1 <= sent <= 8 && sent <= accepted
  {
    Clamp(accepted / 4, 1, 8)
  }

  /** The amount carried by each batch; the division's remainder goes with the last one. */
  function BatchSize(accepted: int): (removed: int)
    requires accepted > 0
    ensures removed >= 1
  {
    var sent := Batches(accepted);
    DivBounds(accepted, sent);
    accepted / sent
  }

  /** The batches together never hand over more than was accepted, and leave over less than one item per batch. */
  lemma BatchesCoverAccepted(accepted: int)
    requires accepted > 0
    ensures Batches(accepted) * BatchSize(accepted) <= accepted < Batches(accepted) * (BatchSize(accepted) + 1)
  {
    DivBounds(accepted, Batches(accepted));
  }

  lemma DivBounds(a: int, b: int)
    requires a >= b >= 1
    ensures a / b >= 1 && b * (a / b) <= a < b * (a / b + 1)
  {
  }

  /**
   * The effects of batch i of a drop of `accepted` items: the last batch clears the
   * inventory when the whole stack was accepted, then delivers its share and, after it,
   * whatever the division left over.
   */
  function BatchEffects(item: Item, accepted: int, clear: bool, i: int): seq<Effect>
    requires accepted > 0
  {
    var sent := Batches(accepted);
    var removed := BatchSize(accepted);
    var rest := accepted - sent * removed;
    if i == sent - 1 then
      (if clear then [ClearInventory] else [])
      + [HandleStack(item, removed)]
      + (if rest > 0 then [HandleStack(item, rest)] else [])
    else [HandleStack(item, removed)]
  }

  /** The effects of the first n batches, in order. */
  function EffectsUpTo(item: Item, accepted: int, clear: bool, n: nat): seq<Effect>
    requires accepted > 0
  {
    if n == 0 then [] else EffectsUpTo(item, accepted, clear, n - 1) + BatchEffects(item, accepted, clear, n - 1)
  }

  lemma {:induction false} DeliveredAppend(a: seq<Effect>, b: seq<Effect>)
    ensures Delivered(a + b) == Delivered(a) + Delivered(b)
    ensures Clears(a + b) == Clears(a) + Clears(b)
  {
    if a == [] {
      assert a + b == b;
    } else {
      assert (a + b)[1..] == a[1..] + b;
      DeliveredAppend(a[1..], b);
    }
  }

  /** Before the last batch, every batch has handed over exactly one batch size. */
  lemma {:induction false} DeliveredBeforeLast(item: Item, accepted: int, clear: bool, n: nat)
    requires accepted > 0 && n < Batches(accepted)
    ensures Delivered(EffectsUpTo(item, accepted, clear, n)) == n * BatchSize(accepted)
    ensures Clears(EffectsUpTo(item, accepted, clear, n)) == 0
  {
    if n > 0 {
      DeliveredBeforeLast(item, accepted, clear, n - 1);
      var b := BatchEffects(item, accepted, clear, n - 1);
      DeliveredAppend(EffectsUpTo(item, accepted, clear, n - 1), b);
      assert Delivered(b) == BatchSize(accepted) && Clears(b) == 0;
      assert (n - 1) * BatchSize(accepted) + BatchSize(accepted) == n * BatchSize(accepted);
    }
  }

  /** Every hand-over in a run of effects moves a positive amount. */
  ghost predicate PositiveShares(es: seq<Effect>)
  {
    forall k :: 0 <= k < |es| && es[k].HandleStack? ==> es[k].amount > 0
  }

  /** What the last batch delivers: its share plus the remainder of the division. */
  lemma LastBatch(item: Item, accepted: int, clear: bool)
    requires accepted > 0
    ensures var b := BatchEffects(item, accepted, clear, Batches(accepted) - 1);
      && Delivered(b) == accepted - (Batches(accepted) - 1) * BatchSize(accepted)
      && Clears(b) == (if clear then 1 else 0)
      && PositiveShares(b)
  {
    var sent := Batches(accepted);
    var removed := BatchSize(accepted);
    var rest := accepted - sent * removed;
    var c: seq<Effect> := if clear then [ClearInventory] else [];
    var r: seq<Effect> := if rest > 0 then [HandleStack(item, rest)] else [];
    BatchesCoverAccepted(accepted);
    assert rest >= 0;
    assert Delivered(r) == rest;
    DeliveredAppend(c, [HandleStack(item, removed)]);
    DeliveredAppend(c + [HandleStack(item, removed)], r);
    assert BatchEffects(item, accepted, clear, sent - 1) == c + [HandleStack(item, removed)] + r;
    assert sent * removed + rest == accepted;
    assert (sent - 1) * removed + removed == sent * removed;
  }

  lemma {:induction false} EffectsArePositive(item: Item, accepted: int, clear: bool, n: nat)
    requires accepted > 0 && n <= Batches(accepted)
    ensures PositiveShares(EffectsUpTo(item, accepted, clear, n))
  {
    if n > 0 {
      EffectsArePositive(item, accepted, clear, n - 1);
      var b := BatchEffects(item, accepted, clear, n - 1);
      if n == Batches(accepted) {
        LastBatch(item, accepted, clear);
      }
      assert PositiveShares(b);
    }
  }

  /**
   * All the batches of a drop together hand over exactly the accepted amount, each
   * hand-over a positive one, and clear the inventory once exactly when the whole stack
   * was accepted.
   */
  lemma DropDeliversAccepted(item: Item, accepted: int, clear: bool)
    requires accepted > 0
    ensures var es := EffectsUpTo(item, accepted, clear, Batches(accepted));
      && Delivered(es) == accepted
      && Clears(es) == (if clear then 1 else 0)
      && PositiveShares(es)
  {
    var sent := Batches(accepted);
    DeliveredBeforeLast(item, accepted, clear, sent - 1);
    LastBatch(item, accepted, clear);
    DeliveredAppend(EffectsUpTo(item, accepted, clear, sent - 1), BatchEffects(item, accepted, clear, sent - 1));
    EffectsArePositive(item, accepted, clear, sent);
  }

  /** A stack the player carries; its amount shrinks as it is dropped. */
  class ItemStack {
    const item: Item
    var amount: int

    constructor (item: Item, amount: int)
      ensures this.item == item && this.amount == amount
    {
      this.item := item;
      this.amount := amount;
    }
  }

  class InputHandler {
    var recipe: Option<Recipe>
    var droppingItem: bool
    var transferring: bool
    /** Effects of drops on blocks and on the player's inventory, in order. */
    var effects: seq<Effect>

    constructor ()
      ensures recipe == None && !droppingItem && !transferring && effects == []
    {
      recipe := None;
      droppingItem := false;
      transferring := false;
      effects := [];
    }

    /** The player is placing a block exactly when a recipe is selected. */
    function IsPlacing(): (r: bool)
      reads this
      ensures r <==> recipe.Some?
    {
      recipe != None
    }

    /**
     * The player may shoot only with no recipe selected, the pointer off the UI, not over
     * a configurable block and not dropping an item.
     */
    function CanShoot(uiHasMouse: bool, onConfigurable: bool): (r: bool)
      reads this
      ensures r ==> !IsPlacing() && !droppingItem
    {
      recipe == None && !uiHasMouse && !onConfigurable && !droppingItem
    }

    /**
     * The two callbacks of batch i: its timer takes the batch off the stack (the last one
     * also the remainder, clears the inventory when the whole stack went, and ends the
     * transfer), and its arrival hands the batch to the block (the last one also the remainder).
     */
    method RunBatch(stack: ItemStack, accepted: int, clear: bool, i: int, remaining0: int, remaining1: int)
      returns (r0: int, r1: int)
      requires accepted > 0 && 0 <= i < Batches(accepted)
      requires remaining0 == remaining1
      requires i == Batches(accepted) - 1 ==>
        remaining1 - BatchSize(accepted) == accepted - Batches(accepted) * BatchSize(accepted)
      modifies this`transferring, this`effects, stack
      ensures r0 == r1 == remaining0 - BatchSize(accepted)
      ensures transferring == (if i == Batches(accepted) - 1 then false else old(transferring))
      ensures stack.amount == old(stack.amount) - BatchSize(accepted) - (if i == Batches(accepted) - 1 then r0 else 0)
      ensures effects == old(effects) + BatchEffects(stack.item, accepted, clear, i)
    {
      var removed := BatchSize(accepted);
      var end := i == Batches(accepted) - 1;
      r0, r1 := remaining0, remaining1;
      // the timer callback
      stack.amount := stack.amount - removed;
      r0 := r0 - removed;
      if end {
        stack.amount := stack.amount - r0;
        if clear {
          effects := effects + [ClearInventory];
        }
        transferring := false;
      }
      // the arrival callback
      effects := effects + [HandleStack(stack.item, removed)];
      r1 := r1 - removed;
      if end && r1 > 0 {
        effects := effects + [HandleStack(stack.item, r1)];
      }
    }

    /**
     * Drops `stack` onto a block that takes `accepted` of it. Nothing happens when the
     * block takes nothing or a transfer is under way; otherwise the accepted amount goes
     * over in up to eight batches, the stack shrinks by exactly that amount, the inventory
     * is cleared when the whole stack was taken, and the transfer flag is released.
     */
    method DropItem(stack: ItemStack, accepted: int)
      modifies this`transferring, this`effects, stack
      ensures accepted <= 0 || old(transferring) ==>
        transferring == old(transferring) && effects == old(effects) && stack.amount == old(stack.amount)
      ensures accepted > 0 && !old(transferring) ==>
        && !transferring
        && stack.amount == old(stack.amount) - accepted
        && effects == old(effects)
             + EffectsUpTo(stack.item, accepted, old(stack.amount) == accepted, Batches(accepted))
    {
      if accepted <= 0 {
        return;
      }
      if transferring {
        return;
      }
      transferring := true;
      var clear := stack.amount == accepted;
      var sent := Clamp(accepted / 4, 1, 8);
      var removed := accepted / sent;
      // remaining[0]: still to take off the stack; remaining[1]: still to hand to the block
      var remaining0, remaining1 := accepted, accepted;
      var i := 0;
      while i < sent
        invariant 0 <= i <= sent
        invariant sent == Batches(accepted) && removed == BatchSize(accepted)
        invariant transferring == (i < sent)
        invariant remaining0 == remaining1 == accepted - i * removed
        invariant i < sent ==> stack.amount == old(stack.amount) - (accepted - remaining0)
        invariant i == sent ==> stack.amount == old(stack.amount) - accepted
        invariant effects == old(effects) + EffectsUpTo(stack.item, accepted, clear, i)
      {
        assert (i + 1) * removed == i * removed + removed;
        remaining0, remaining1 := RunBatch(stack, accepted, clear, i, remaining0, remaining1);
        i := i + 1;
      }
    }
  }
}
