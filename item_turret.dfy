/**
 * The ammo store of an item turret: an ordered list of (item, amount) entries, the last
 * of which is the ammo the turret fires next, plus the running total of all amounts.
 */
module ItemTurrets {
  import opened Wrappers
  import opened Content
  import opened Streams

  /** The save revision this building writes. */
  const Version: int := 2

  type Multiplier = m: int | m > 0 witness 1

  /** The bullet an ammo item loads; only how much ammo one item is worth matters here. */
  datatype BulletType = BulletType(ammoMultiplier: Multiplier)

  /** One ammo entry: an item kind and the ammo it still provides. */
  datatype ItemEntry = ItemEntry(item: Item, amount: int)

  /** Events the turret publishes on the event bus. */
  datatype TurretEvent = FlameAmmo

  /** Sum of the amounts of all entries. */
  function Sum(entries: seq<ItemEntry>): int
  {
    if entries == [] then 0 else entries[0].amount + Sum(entries[1..])
  }

  /** The ammo held for one item kind, over all its entries. */
  function AmountOf(entries: seq<ItemEntry>, item: Item): int
  {
    if entries == [] then 0
    else (if entries[0].item == item then entries[0].amount else 0) + AmountOf(entries[1..], item)
  }

  /** No item kind has two entries. */
  predicate UniqueItems(entries: seq<ItemEntry>)
  {
    forall i, j :: 0 <= i < j < |entries| ==> entries[i].item != entries[j].item
  }

  /** The position of the first entry for `item`, or |entries| when it has none. */
  function IndexOf(entries: seq<ItemEntry>, item: Item): (i: nat)
    ensures i <= |entries|
    ensures i < |entries| ==> entries[i].item == item
    ensures forall j :: 0 <= j < i ==> entries[j].item != item
  {
    if entries == [] then 0
    else if entries[0].item == item then 0
    else 1 + IndexOf(entries[1..], item)
  }

  /** `Seq.swap`: exchange the elements at i and j. */
  function Swap(s: seq<ItemEntry>, i: nat, j: nat): (r: seq<ItemEntry>)
    requires i < |s| && j < |s|
    ensures |r| == |s| && r[i] == s[j] && r[j] == s[i]
    ensures forall k :: 0 <= k < |s| && k != i && k != j ==> r[k] == s[k]
  {
    s[i := s[j]][j := s[i]]
  }

  /**
   * The list after one item of an ammo kind worth `m` arrives: an existing entry gains `m`
   * and is swapped into the last place; otherwise a new entry of amount `m` is appended.
   */
  function Handled(entries: seq<ItemEntry>, item: Item, m: int): seq<ItemEntry>
  {
    var i := IndexOf(entries, item);
    if i < |entries| then
      Swap(entries[i := ItemEntry(item, entries[i].amount + m)], i, |entries| - 1)
    else
      entries + [ItemEntry(item, m)]
  }

  /** The list after `n` items of the same kind arrive one by one. */
  function HandledTimes(entries: seq<ItemEntry>, item: Item, m: int, n: nat): seq<ItemEntry>
  {
    if n == 0 then entries else Handled(HandledTimes(entries, item, m, n - 1), item, m)
  }

  /** `n` copies of one event. */
  function Repeat(e: TurretEvent, n: nat): (r: seq<TurretEvent>)
    ensures |r| == n && forall k :: 0 <= k < n ==> r[k] == e
  {
    if n == 0 then [] else Repeat(e, n - 1) + [e]
  }

  /** Java's `(int)` of a quotient: division truncated toward zero. */
  function TruncDiv(a: int, b: Multiplier): (q: int)
    ensures a >= 0 ==> 0 <= q * b <= a < q * b + b
    ensures a < 0 ==> q * b - b < a <= q * b <= 0
  {
    if a >= 0 then
      DivBracket(a, b);
      a / b
    else
      DivBracket(-a, b);
      assert -((-a) / b) * b == -(((-a) / b) * b);
      -((-a) / b)
  }

  /** Euclidean division of a natural number brackets it between two multiples of the divisor. */
  lemma DivBracket(a: int, b: Multiplier)
    requires a >= 0
    ensures a / b >= 0 && 0 <= (a / b) * b <= a < (a / b) * b + b
  {
    assert a == (a / b) * b + a % b;
  }

  function Min(a: int, b: int): int { if a <= b then a else b }

  // ---- sums and amounts under the list operations ----

  lemma {:induction false} SumAppend(s: seq<ItemEntry>, e: ItemEntry)
    ensures Sum(s + [e]) == Sum(s) + e.amount
  {
    if s != [] {
      assert (s + [e])[1..] == s[1..] + [e];
      SumAppend(s[1..], e);
    }
  }

  lemma {:induction false} SumUpdate(s: seq<ItemEntry>, i: nat, e: ItemEntry)
    requires i < |s|
    ensures Sum(s[i := e]) == Sum(s) - s[i].amount + e.amount
  {
    if i > 0 {
      assert s[i := e][1..] == s[1..][i - 1 := e];
      SumUpdate(s[1..], i - 1, e);
    }
  }

  lemma {:induction false} AmountAppend(s: seq<ItemEntry>, e: ItemEntry, x: Item)
    ensures AmountOf(s + [e], x) == AmountOf(s, x) + (if e.item == x then e.amount else 0)
  {
    if s != [] {
      assert (s + [e])[1..] == s[1..] + [e];
      AmountAppend(s[1..], e, x);
    }
  }

  lemma {:induction false} AmountUpdate(s: seq<ItemEntry>, i: nat, e: ItemEntry, x: Item)
    requires i < |s|
    ensures AmountOf(s[i := e], x) == AmountOf(s, x)
      - (if s[i].item == x then s[i].amount else 0) + (if e.item == x then e.amount else 0)
  {
    if i > 0 {
      assert s[i := e][1..] == s[1..][i - 1 := e];
      AmountUpdate(s[1..], i - 1, e, x);
    }
  }

  lemma SwapSum(s: seq<ItemEntry>, i: nat, j: nat)
    requires i < |s| && j < |s|
    ensures Sum(Swap(s, i, j)) == Sum(s)
    ensures forall x :: AmountOf(Swap(s, i, j), x) == AmountOf(s, x)
  {
    SumUpdate(s, i, s[j]);
    SumUpdate(s[i := s[j]], j, s[i]);
    forall x ensures AmountOf(Swap(s, i, j), x) == AmountOf(s, x) {
      AmountUpdate(s, i, s[j], x);
      AmountUpdate(s[i := s[j]], j, s[i], x);
    }
  }

  // ---- what handling one item does ----

  /** Handling an item adds exactly its multiplier to the sum of the amounts. */
  lemma HandledSum(s: seq<ItemEntry>, item: Item, m: int)
    ensures Sum(Handled(s, item, m)) == Sum(s) + m
  {
    var i := IndexOf(s, item);
    if i < |s| {
      var e := ItemEntry(item, s[i].amount + m);
      SumUpdate(s, i, e);
      SwapSum(s[i := e], i, |s| - 1);
    } else {
      SumAppend(s, ItemEntry(item, m));
    }
  }

  /**
   * Seen as a bag of ammo per item kind, handling an item adds its multiplier to that
   * kind and leaves every other kind as it was.
   */
  lemma HandledAmounts(s: seq<ItemEntry>, item: Item, m: int, x: Item)
    ensures AmountOf(Handled(s, item, m), x) == AmountOf(s, x) + (if x == item then m else 0)
  {
    var i := IndexOf(s, item);
    if i < |s| {
      var e := ItemEntry(item, s[i].amount + m);
      AmountUpdate(s, i, e, x);
      SwapSum(s[i := e], i, |s| - 1);
    } else {
      AmountAppend(s, ItemEntry(item, m), x);
    }
  }

  /**
   * Handling an item never duplicates an item kind, always leaves that kind's entry last,
   * and either keeps the length (moving the entry found at i to the end, and the old last
   * entry to i, with every other position untouched) or appends one entry.
   */
  lemma HandledShape(s: seq<ItemEntry>, item: Item, m: int)
    ensures var r := Handled(s, item, m);
      && |r| > 0 && r[|r| - 1].item == item
      && (UniqueItems(s) ==> UniqueItems(r))
      && (IndexOf(s, item) < |s| ==>
            var i := IndexOf(s, item);
            && |r| == |s|
            && r[|r| - 1] == ItemEntry(item, s[i].amount + m)
            && (i < |s| - 1 ==> r[i] == s[|s| - 1])
            && forall k :: 0 <= k < |s| - 1 && k != i ==> r[k] == s[k])
      && (IndexOf(s, item) == |s| ==> r == s + [ItemEntry(item, m)])
  {
    var r := Handled(s, item, m);
    var i := IndexOf(s, item);
    if i < |s| && UniqueItems(s) {
      forall a, b | 0 <= a < b < |r| ensures r[a].item != r[b].item {
        var sa := if a == i then |s| - 1 else if a == |s| - 1 then i else a;
        var sb := if b == i then |s| - 1 else if b == |s| - 1 then i else b;
        assert r[a].item == s[sa].item && r[b].item == s[sb].item;
      }
    }
  }

  /** Handling an ammo item adds its multiplier to the sum, keeps every item among the ammo kinds, and keeps items unique. */
  lemma HandledKeepsValid(s: seq<ItemEntry>, item: Item, m: int, kinds: map<Item, BulletType>)
    requires item in kinds
    requires forall k :: 0 <= k < |s| ==> s[k].item in kinds
    ensures Sum(Handled(s, item, m)) == Sum(s) + m
    ensures forall k :: 0 <= k < |Handled(s, item, m)| ==> Handled(s, item, m)[k].item in kinds
    ensures UniqueItems(s) ==> UniqueItems(Handled(s, item, m))
  {
    HandledSum(s, item, m);
    HandledShape(s, item, m);
  }

  /**
   * Handling the same item n times in a row adds n multipliers to the sum and to that
   * kind's amount, leaves every other kind's amount alone, and keeps items unique.
   */
  lemma {:induction false} HandledTimesAmounts(s: seq<ItemEntry>, item: Item, m: int, n: nat, x: Item)
    ensures Sum(HandledTimes(s, item, m, n)) == Sum(s) + n * m
    ensures AmountOf(HandledTimes(s, item, m, n), x) == AmountOf(s, x) + (if x == item then n * m else 0)
    ensures UniqueItems(s) ==> UniqueItems(HandledTimes(s, item, m, n))
  {
    if n > 0 {
      var p := HandledTimes(s, item, m, n - 1);
      HandledTimesAmounts(s, item, m, n - 1, x);
      HandledSum(p, item, m);
      HandledAmounts(p, item, m, x);
      HandledShape(p, item, m);
      assert (n - 1) * m + m == n * m;
    }
  }

  // ---- the save format ----

  /** The words written for the entries, two shorts (item id, amount) per entry. */
  function EntryWords(entries: seq<ItemEntry>): (ws: seq<Word>)
    ensures |ws| == 2 * |entries|
  {
    if entries == [] then []
    else [WriteS(entries[0].item.id), WriteS(entries[0].amount)] + EntryWords(entries[1..])
  }

  /** What `write` stores after the turret's common state: the entry count as a byte, then the entries. */
  function AmmoImage(entries: seq<ItemEntry>): seq<Word>
  {
    [WriteB(|entries|)] + EntryWords(entries)
  }

  /**
   * Reads one stored entry: the item id (an unsigned byte before revision 2, a short from
   * revision 2 on) and the amount (a short). Yields the entry when its item still exists
   * and is ammo for this turret, None for an entry to drop, and the rest of the stream;
   * None overall when the stream ends early or is malformed.
   */
  function ReadEntry(ws: seq<Word>, revision: int, registry: seq<Item>, ammoTypes: map<Item, BulletType>)
    : (r: Option<(Option<ItemEntry>, seq<Word>)>)
    requires WellFormed(registry)
    ensures r.Some? && r.value.0.Some? ==>
      r.value.0.value.item in ammoTypes && Registered(registry, r.value.0.value.item)
    ensures r.Some? ==> |r.value.1| < |ws|
  {
    var id := if revision < 2 then ReadUB(ws) else ReadS(ws);
    if id.None? then None
    else match ReadS(id.value.1)
      case None => None
      case Some((a, rest)) =>
        var item := ItemById(registry, id.value.0);
        if item.Some? && item.value in ammoTypes then Some((Some(ItemEntry(item.value, a)), rest))
        else Some((None, rest))
  }

  /**
   * Reads `n` stored entries, keeping those whose item still exists and is ammo for this
   * turret. Yields the kept entries read before any failure, and the rest of the stream or None.
   */
  function ReadEntries(ws: seq<Word>, n: int, revision: int, registry: seq<Item>,
                       ammoTypes: map<Item, BulletType>): (r: (seq<ItemEntry>, Option<seq<Word>>))
    requires WellFormed(registry)
    decreases if n < 0 then 0 else n
  {
    if n <= 0 then ([], Some(ws))
    else match ReadEntry(ws, revision, registry, ammoTypes)
      case None => ([], None)
      case Some((e, rest)) =>
        var t := ReadEntries(rest, n - 1, revision, registry, ammoTypes);
        if e.Some? then ([e.value] + t.0, t.1) else t
  }

  /** Every entry a load keeps has a registered item that is ammo for this turret. */
  lemma {:induction false} ReadKeepsOnlyAmmo(ws: seq<Word>, n: int, revision: int, registry: seq<Item>,
                                             ammoTypes: map<Item, BulletType>)
    requires WellFormed(registry)
    ensures forall e :: e in ReadEntries(ws, n, revision, registry, ammoTypes).0 ==>
      e.item in ammoTypes && Registered(registry, e.item)
    decreases if n < 0 then 0 else n
  {
    if n > 0 {
      var next := ReadEntry(ws, revision, registry, ammoTypes);
      if next.Some? {
        ReadKeepsOnlyAmmo(next.value.1, n - 1, revision, registry, ammoTypes);
        var t := ReadEntries(next.value.1, n - 1, revision, registry, ammoTypes);
        if next.value.0.Some? {
          assert ReadEntries(ws, n, revision, registry, ammoTypes).0 == [next.value.0.value] + t.0;
        }
      }
    }
  }

  /** What `read` loads: the stored count as an unsigned byte, then that many entries. */
  function ReadAmmo(ws: seq<Word>, revision: int, registry: seq<Item>,
                    ammoTypes: map<Item, BulletType>): (seq<ItemEntry>, Option<seq<Word>>)
    requires WellFormed(registry)
  {
    match ReadUB(ws)
    case None => ([], None)
    case Some((n, rest)) => ReadEntries(rest, n, revision, registry, ammoTypes)
  }

  /** An entry the writer can store and a revision-2 reader keeps unchanged. */
  ghost predicate Storable(e: ItemEntry, registry: seq<Item>, ammoTypes: map<Item, BulletType>)
  {
    Registered(registry, e.item) && e.item in ammoTypes && IsShort(e.item.id) && IsShort(e.amount)
  }

  lemma {:induction false} ReadWrittenEntries(entries: seq<ItemEntry>, tail: seq<Word>, registry: seq<Item>,
                                              ammoTypes: map<Item, BulletType>)
    requires WellFormed(registry)
    requires forall k :: 0 <= k < |entries| ==> Storable(entries[k], registry, ammoTypes)
    ensures ReadEntries(EntryWords(entries) + tail, |entries|, Version, registry, ammoTypes) == (entries, Some(tail))
  {
    var ws := EntryWords(entries) + tail;
    if entries == [] {
      assert ws == tail;
    } else {
      var e := entries[0];
      var more := EntryWords(entries[1..]) + tail;
      assert ws == [WriteS(e.item.id)] + ([WriteS(e.amount)] + more);
      ShortRoundTrip(e.item.id, [WriteS(e.amount)] + more);
      ShortRoundTrip(e.amount, more);
      assert ReadEntry(ws, Version, registry, ammoTypes) == Some((Some(e), more));
      ReadWrittenEntries(entries[1..], tail, registry, ammoTypes);
      assert [e] + entries[1..] == entries;
    }
  }

  /**
   * Writing the ammo list and reading it back at the current revision restores it exactly,
   * when there are fewer than 256 entries and every entry is registered ammo whose id and
   * amount fit in a short.
   */
  lemma AmmoRoundTrip(entries: seq<ItemEntry>, tail: seq<Word>, registry: seq<Item>,
                      ammoTypes: map<Item, BulletType>)
    requires WellFormed(registry)
    requires |entries| < 0x100
    requires forall k :: 0 <= k < |entries| ==> Storable(entries[k], registry, ammoTypes)
    ensures ReadAmmo(AmmoImage(entries) + tail, Version, registry, ammoTypes) == (entries, Some(tail))
  {
    var ws := AmmoImage(entries) + tail;
    assert ws == [WriteB(|entries|)] + (EntryWords(entries) + tail);
    ByteRoundTrip(|entries|, EntryWords(entries) + tail);
    ReadWrittenEntries(entries, tail, registry, ammoTypes);
  }

  /** A stored entry whose item is gone or no longer ammo is skipped and adds nothing. */
  lemma DroppedEntryIgnored(id: int, a: int, ws: seq<Word>, n: nat, registry: seq<Item>,
                            ammoTypes: map<Item, BulletType>)
    requires WellFormed(registry)
    requires IsShort(id) && IsShort(a)
    requires ItemById(registry, id).None? || ItemById(registry, id).value !in ammoTypes
    ensures ReadEntries([WriteS(id), WriteS(a)] + ws, n + 1, Version, registry, ammoTypes)
         == ReadEntries(ws, n, Version, registry, ammoTypes)
  {
    ShortRoundTrip(id, [WriteS(a)] + ws);
    assert ([WriteS(id), WriteS(a)] + ws)[1..] == [WriteS(a)] + ws;
    ShortRoundTrip(a, ws);
  }

  /** The building of an item turret. */
  class ItemTurretBuild {
    const ammoTypes: map<Item, BulletType>
    const maxAmmo: int
    /** The item whose arrival publishes the flame-ammo event. */
    const pyratite: Item
    var ammo: seq<ItemEntry>
    var totalAmmo: int
    var events: seq<TurretEvent>

    /** The running total is the sum of the entries, and every entry is ammo for this turret. */
    ghost predicate Valid()
      reads this
    {
      && totalAmmo == Sum(ammo)
      && forall k :: 0 <= k < |ammo| ==> ammo[k].item in ammoTypes
    }

    constructor (ammoTypes: map<Item, BulletType>, maxAmmo: int, pyratite: Item)
      ensures Valid() && UniqueItems(ammo)
      ensures this.ammoTypes == ammoTypes && this.maxAmmo == maxAmmo && this.pyratite == pyratite
      ensures ammo == [] && totalAmmo == 0 && events == []
    {
      this.ammoTypes := ammoTypes;
      this.maxAmmo := maxAmmo;
      this.pyratite := pyratite;
      ammo := [];
      totalAmmo := 0;
      events := [];
    }

    /**
     * Takes one item. Pyratite publishes the flame-ammo event; an item that is not ammo
     * changes nothing else; an ammo item adds its multiplier to the total and to its entry.
     */
    method HandleItem(item: Item)
      requires Valid()
      modifies this`ammo, this`totalAmmo, this`events
      ensures Valid()
      ensures events == old(events) + (if item == pyratite then [FlameAmmo] else [])
      ensures item !in ammoTypes ==> ammo == old(ammo) && totalAmmo == old(totalAmmo)
      ensures item in ammoTypes ==>
        && ammo == Handled(old(ammo), item, ammoTypes[item].ammoMultiplier)
        && totalAmmo == old(totalAmmo) + ammoTypes[item].ammoMultiplier
      ensures old(UniqueItems(ammo)) ==> UniqueItems(ammo)
    {
      if item == pyratite {
        events := events + [FlameAmmo];
      }
      if item !in ammoTypes {
        return;
      }
      var m := ammoTypes[item].ammoMultiplier;
      ghost var target := Handled(ammo, item, m);
      HandledKeepsValid(ammo, item, m, ammoTypes);
      totalAmmo := totalAmmo + m;
      var i := 0;
      while i < |ammo|
        invariant ammo == old(ammo)
        invariant 0 <= i <= |ammo|
        invariant forall j :: 0 <= j < i ==> ammo[j].item != item
      {
        if ammo[i].item == item {
          assert IndexOf(ammo, item) == i;
          ammo := Swap(ammo[i := ItemEntry(item, ammo[i].amount + m)], i, |ammo| - 1);
          return;
        }
        i := i + 1;
      }
      assert IndexOf(ammo, item) == |ammo|;
      ammo := ammo + [ItemEntry(item, m)];
      assert ammo == target;
    }

    /** Takes `amount` items of one kind, exactly as that many successive single items. */
    method HandleStack(item: Item, amount: int)
      requires Valid()
      modifies this`ammo, this`totalAmmo, this`events
      ensures Valid()
      ensures var n := if amount < 0 then 0 else amount;
        && events == old(events) + (if item == pyratite then Repeat(FlameAmmo, n) else [])
        && (item !in ammoTypes ==> ammo == old(ammo) && totalAmmo == old(totalAmmo))
        && (item in ammoTypes ==>
              && ammo == HandledTimes(old(ammo), item, ammoTypes[item].ammoMultiplier, n)
              && totalAmmo == old(totalAmmo) + n * ammoTypes[item].ammoMultiplier)
      ensures old(UniqueItems(ammo)) ==> UniqueItems(ammo)
    {
      var i := 0;
      while i < amount
        invariant 0 <= i <= if amount < 0 then 0 else amount
        invariant Valid()
        invariant events == old(events) + (if item == pyratite then Repeat(FlameAmmo, i) else [])
        invariant item !in ammoTypes ==> ammo == old(ammo) && totalAmmo == old(totalAmmo)
        invariant item in ammoTypes ==>
          && ammo == HandledTimes(old(ammo), item, ammoTypes[item].ammoMultiplier, i)
          && totalAmmo == old(totalAmmo) + i * ammoTypes[item].ammoMultiplier
        invariant old(UniqueItems(ammo)) ==> UniqueItems(ammo)
      {
        ghost var m := if item in ammoTypes then ammoTypes[item].ammoMultiplier else 1;
        assert (i + 1) * m == i * m + m;
        assert Repeat(FlameAmmo, i + 1) == Repeat(FlameAmmo, i) + [FlameAmmo];
        assert HandledTimes(old(ammo), item, m, i + 1) == Handled(HandledTimes(old(ammo), item, m, i), item, m);
        HandleItem(item);
        i := i + 1;
      }
      assert i == if amount < 0 then 0 else amount;
    }

    /** Whether one more item of this kind is accepted: it must be ammo and fit under `maxAmmo`. */
    function AcceptItem(item: Item): (r: bool)
      reads this
      ensures r ==> item in ammoTypes && totalAmmo + ammoTypes[item].ammoMultiplier <= maxAmmo
      ensures r <==> AcceptStack(item, 1) == 1
    {
      item in ammoTypes && totalAmmo + ammoTypes[item].ammoMultiplier <= maxAmmo
    }

    /**
     * How many of `amount` offered items are taken: none of a kind that is not ammo,
     * otherwise as many as fit under `maxAmmo`, at most `amount`.
     */
    function AcceptStack(item: Item, amount: int): (r: int)
      reads this
      ensures item !in ammoTypes ==> r == 0
      ensures item in ammoTypes ==> r <= amount
      ensures item in ammoTypes && totalAmmo <= maxAmmo ==>
        var m := ammoTypes[item].ammoMultiplier;
        && (amount >= 0 ==> r >= 0)
        && totalAmmo + r * m <= maxAmmo
        && (r == amount || totalAmmo + (r + 1) * m > maxAmmo)
      ensures item in ammoTypes && totalAmmo > maxAmmo ==>
        var m := ammoTypes[item].ammoMultiplier;
        && r <= 0
        && totalAmmo + r * m < maxAmmo + m
        && (r == amount || maxAmmo <= totalAmmo + r * m)
    {
      if item !in ammoTypes then 0
      else Min(TruncDiv(maxAmmo - totalAmmo, ammoTypes[item].ammoMultiplier), amount)
    }

    /** Items can never be taken out of a turret. */
    method RemoveStack(item: Item, amount: int) returns (removed: int)
      ensures removed == 0
    {
      removed := 0;
    }

    /** Appends the ammo list (count byte, then item id and amount per entry) to `out`. */
    method Write(out: seq<Word>) returns (written: seq<Word>)
      ensures written == out + AmmoImage(ammo)
    {
      written := out + [WriteB(|ammo|)];
      var i := 0;
      while i < |ammo|
        invariant 0 <= i <= |ammo|
        invariant written + EntryWords(ammo[i..]) == out + AmmoImage(ammo)
      {
        assert ammo[i..][1..] == ammo[i + 1..];
        written := written + [WriteS(ammo[i].item.id), WriteS(ammo[i].amount)];
        i := i + 1;
      }
    }

    /** Appends a loaded entry of valid ammo and adds its amount to the total. */
    method Keep(e: ItemEntry)
      requires Valid() && e.item in ammoTypes
      modifies this`ammo, this`totalAmmo
      ensures Valid() && ammo == old(ammo) + [e]
    {
      SumAppend(ammo, e);
      totalAmmo := totalAmmo + e.amount;
      ammo := ammo + [e];
    }

    /**
     * Loads the ammo list: clears it, then keeps each stored entry whose item exists in
     * `registry` and is ammo here, adding its amount to the total. Returns the rest of the
     * stream, or None when it ended early or was malformed (the entries kept so far stay).
     */
    method Read(input: seq<Word>, revision: int, registry: seq<Item>) returns (rest: Option<seq<Word>>)
      requires WellFormed(registry)
      modifies this`ammo, this`totalAmmo
      ensures Valid()
      ensures ammo == ReadAmmo(input, revision, registry, ammoTypes).0
      ensures rest == ReadAmmo(input, revision, registry, ammoTypes).1
    {
      ammo := [];
      totalAmmo := 0;
      var count := ReadUB(input);
      if count.None? {
        return None;
      }
      var amount := count.value.0;
      var ws := count.value.1;
      ghost var goal := ReadAmmo(input, revision, registry, ammoTypes);
      ghost var pending := goal;
      assert ammo + pending.0 == goal.0;
      var i := 0;
      while i < amount
        invariant 0 <= i <= amount
        invariant Valid()
        invariant pending == ReadEntries(ws, amount - i, revision, registry, ammoTypes)
        invariant goal.0 == ammo + pending.0 && goal.1 == pending.1
      {
        var next := ReadEntry(ws, revision, registry, ammoTypes);
        if next.None? {
          assert ammo + [] == ammo;
          return None;
        }
        var entry := next.value.0;
        ghost var t := ReadEntries(next.value.1, amount - i - 1, revision, registry, ammoTypes);
        if entry.Some? {
          assert ammo + ([entry.value] + t.0) == (ammo + [entry.value]) + t.0;
          Keep(entry.value);
        }
        pending := t;
        ws := next.value.1;
        i := i + 1;
      }
      assert ammo + [] == ammo;
      rest := Some(ws);
    }
  }
}
