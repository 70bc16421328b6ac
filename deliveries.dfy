/** The courier list that `getAvailableDeliveries` hands on: prepaid,
    named couriers only, the cheapest one first, at most ten. */
module DeliveryCatalog {
  import opened CheckoutTypes

  const MaxOffered: nat := 10

  /** The filter of the push loop: the entry is prepaid and its courier
      has a name. */
  predicate Offerable(e: Shipping) {
    e.prepaid == Some("prepaid") && e.courierName != ""
  }

  /** The entries the push loop keeps, in their order. */
  function Keep(s: seq<Shipping>): seq<Shipping>
    decreases |s|
  {
    if s == [] then []
    else Keep(s[..|s| - 1]) + (if Offerable(s[|s| - 1]) then [s[|s| - 1]] else [])
  }

  /** The index `reduce` settles on: it keeps the earlier entry only when
      that one is strictly cheaper, so among equally cheap entries the last
      one wins. */
  function CheapestIndex(s: seq<Shipping>): (k: nat)
    requires |s| > 0
    ensures k < |s|
    ensures forall j :: 0 <= j < |s| ==> s[k].cost <= s[j].cost
    ensures forall j :: k < j < |s| ==> s[k].cost < s[j].cost
    decreases |s|
  {
    if |s| == 1 then 0
    else
      var k := CheapestIndex(s[..|s| - 1]);
      if s[k].cost < s[|s| - 1].cost then k else |s| - 1
  }

  /** Entries whose courier has the given id, in order. */
  function WithId(s: seq<Shipping>, id: int): seq<Shipping>
    decreases |s|
  {
    if s == [] then []
    else WithId(s[..|s| - 1], id) + (if s[|s| - 1].courierId == id then [s[|s| - 1]] else [])
  }

  /** Entries whose courier has another id, in order. */
  function WithoutId(s: seq<Shipping>, id: int): seq<Shipping>
    decreases |s|
  {
    if s == [] then []
    else WithoutId(s[..|s| - 1], id) + (if s[|s| - 1].courierId != id then [s[|s| - 1]] else [])
  }

  /** What a stable sort by the intended comparator leaves behind: the
      courier with the given id in front, every other entry after it in its
      old order. */
  function PromoteCourier(s: seq<Shipping>, id: int): seq<Shipping> {
    WithId(s, id) + WithoutId(s, id)
  }

  /** The kept entries after the conditional `sort`: reordered only when
      the cheapest entry's cost differs from the first entry's. */
  function Ordered(kept: seq<Shipping>): seq<Shipping>
    requires kept != []
  {
    var lowest := kept[CheapestIndex(kept)];
    if lowest.cost != kept[0].cost then PromoteCourier(kept, lowest.courierId) else kept
  }

  /** `slice(0, 10)`. */
  function Truncate(s: seq<Shipping>): seq<Shipping> {
    if |s| <= MaxOffered then s else s[..MaxOffered]
  }

  /** The shipping list `getAvailableDeliveries` returns for the backend's
      list `reply`. */
  function Shaped(reply: seq<Shipping>): seq<Shipping> {
    var kept := Keep(reply);
    if kept == [] then reply else Truncate(Ordered(kept))
  }

  /** The loops of `getAvailableDeliveries` over the fetched list. The
      in-place `sort` is the library's, so its result is taken from
      `PromoteCourier` (see `StableSortPromotes`). */
  method ShapeDeliveries(reply: seq<Shipping>) returns (shipping: seq<Shipping>)
    ensures shipping == Shaped(reply)
  {
    var options := KeepOfferable(reply);
    if |options| > 0 {
      var lowest := FindCheapest(options);
      if options[lowest].cost != options[0].cost {
        options := PromoteCourier(options, options[lowest].courierId);
      }
      if |options| > MaxOffered {
        options := options[..MaxOffered];
      }
      shipping := options;
    } else {
      shipping := reply;
    }
  }

  /** The push loop: the prepaid, named entries in their order. */
  method KeepOfferable(reply: seq<Shipping>) returns (options: seq<Shipping>)
    ensures options == Keep(reply)
  {
    options := [];
    var i := 0;
    while i < |reply|
      invariant 0 <= i <= |reply|
      invariant options == Keep(reply[..i])
    {
      assert reply[..i + 1][..i] == reply[..i];
      if reply[i].prepaid != Some("prepaid") || reply[i].courierName == "" {
        i := i + 1;
        continue;
      }
      options := options + [reply[i]];
      i := i + 1;
    }
    assert reply[..|reply|] == reply;
  }

  /** The `reduce` that finds the cheapest entry. */
  method FindCheapest(options: seq<Shipping>) returns (lowest: nat)
    requires |options| > 0
    ensures lowest == CheapestIndex(options)
  {
    lowest := 0;
    var j := 1;
    while j < |options|
      invariant 1 <= j <= |options|
      invariant lowest == CheapestIndex(options[..j])
    {
      assert options[..j + 1][..j] == options[..j];
      if !(options[lowest].cost < options[j].cost) {
        lowest := j;
      }
      j := j + 1;
    }
    assert options[..|options|] == options;
  }

  // Facts about the pieces

  /** What the push loop keeps is offerable and comes from the list. */
  lemma {:induction false} KeepMembers(s: seq<Shipping>)
    ensures forall e :: e in Keep(s) ==> Offerable(e) && e in s
    decreases |s|
  {
    if s != [] {
      var init := s[..|s| - 1];
      KeepMembers(init);
      assert forall e :: e in init ==> e in s;
    }
  }

  /** The push loop keeps nothing exactly when no entry is offerable. */
  lemma {:induction false} KeepEmpty(s: seq<Shipping>)
    ensures Keep(s) == [] <==> forall k :: 0 <= k < |s| ==> !Offerable(s[k])
    decreases |s|
  {
    if s != [] {
      var init := s[..|s| - 1];
      KeepEmpty(init);
      assert forall k :: 0 <= k < |init| ==> init[k] == s[k];
      if Offerable(s[|s| - 1]) {
        assert Keep(s) != [];
      } else {
        assert Keep(s) == Keep(init);
      }
    }
  }

  /** An offerable entry is kept. */
  lemma {:induction false} KeepHolds(s: seq<Shipping>, k: nat)
    requires k < |s| && Offerable(s[k])
    ensures s[k] in Keep(s)
    decreases |s|
  {
    if k < |s| - 1 {
      KeepHolds(s[..|s| - 1], k);
    }
  }

  /** The two parts of the promotion: the entries with the id, the entries
      without it, and together every entry of the list. */
  lemma PartsOfPromote(s: seq<Shipping>, id: int)
    ensures forall k :: 0 <= k < |WithId(s, id)| ==> WithId(s, id)[k].courierId == id
    ensures forall k :: 0 <= k < |WithoutId(s, id)| ==> WithoutId(s, id)[k].courierId != id
    ensures multiset(WithId(s, id)) + multiset(WithoutId(s, id)) == multiset(s)
  {
    WithIdHasId(s, id);
    WithoutIdLacksId(s, id);
    PartsCoverList(s, id);
  }

  lemma {:induction false} WithIdHasId(s: seq<Shipping>, id: int)
    ensures forall k :: 0 <= k < |WithId(s, id)| ==> WithId(s, id)[k].courierId == id
    decreases |s|
  {
    if s != [] {
      WithIdHasId(s[..|s| - 1], id);
    }
  }

  lemma {:induction false} WithoutIdLacksId(s: seq<Shipping>, id: int)
    ensures forall k :: 0 <= k < |WithoutId(s, id)| ==> WithoutId(s, id)[k].courierId != id
    decreases |s|
  {
    if s != [] {
      WithoutIdLacksId(s[..|s| - 1], id);
    }
  }

  lemma {:induction false} PartsCoverList(s: seq<Shipping>, id: int)
    ensures multiset(WithId(s, id)) + multiset(WithoutId(s, id)) == multiset(s)
    decreases |s|
  {
    if s != [] {
      var init := s[..|s| - 1];
      var last := s[|s| - 1];
      PartsCoverList(init, id);
      assert s == init + [last];
      assert multiset(s) == multiset(init) + multiset{last};
    }
  }

  /** The promotion only reorders: the same entries, the given courier's
      in front, the others after it in their old order. */
  lemma PromoteIsPermutation(s: seq<Shipping>, id: int)
    ensures multiset(PromoteCourier(s, id)) == multiset(s)
    ensures |PromoteCourier(s, id)| == |s|
    ensures PromoteCourier(s, id)[|WithId(s, id)|..] == WithoutId(s, id)
  {
    PartsOfPromote(s, id);
    assert |multiset(PromoteCourier(s, id))| == |multiset(s)|;
    var p := PromoteCourier(s, id);
    assert p[|WithId(s, id)|..] == WithoutId(s, id);
  }

  /** When the entry at `k` is the only one with its courier id, promoting
      that id moves exactly that entry to the front and leaves the rest in
      order. */
  lemma {:induction false} PromoteUnique(s: seq<Shipping>, k: nat)
    requires k < |s|
    requires forall j :: 0 <= j < |s| && j != k ==> s[j].courierId != s[k].courierId
    ensures PromoteCourier(s, s[k].courierId) == [s[k]] + s[..k] + s[k + 1..]
    decreases |s|
  {
    var id := s[k].courierId;
    if k == |s| - 1 {
      WithIdNone(s[..k], id);
      WithoutIdAll(s[..k], id);
      assert s[..k] == s[..|s| - 1];
      assert s[k + 1..] == [];
    } else {
      var init := s[..|s| - 1];
      var last := s[|s| - 1];
      assert init[k] == s[k];
      PromoteUnique(init, k);
      assert last.courierId != id;
      assert WithId(s, id) == WithId(init, id);
      assert WithoutId(s, id) == WithoutId(init, id) + [last];
      assert init[..k] == s[..k];
      assert init[k + 1..] + [last] == s[k + 1..];
      assert PromoteCourier(s, id) == PromoteCourier(init, id) + [last];
    }
  }

  lemma {:induction false} WithIdNone(s: seq<Shipping>, id: int)
    requires forall j :: 0 <= j < |s| ==> s[j].courierId != id
    ensures WithId(s, id) == []
    decreases |s|
  {
    if s != [] { WithIdNone(s[..|s| - 1], id); }
  }

  lemma {:induction false} WithoutIdAll(s: seq<Shipping>, id: int)
    requires forall j :: 0 <= j < |s| ==> s[j].courierId != id
    ensures WithoutId(s, id) == s
    decreases |s|
  {
    if s != [] {
      WithoutIdAll(s[..|s| - 1], id);
      assert s[..|s| - 1] + [s[|s| - 1]] == s;
    }
  }

  // Properties of the shaped list

  /** When some courier survives the filter, every entry handed on is
      prepaid and named, there are at most ten of them, and all of them come
      from the backend's list. */
  lemma ShapedIsOfferable(reply: seq<Shipping>)
    requires Keep(reply) != []
    ensures |Shaped(reply)| <= MaxOffered
    ensures forall e :: e in Shaped(reply) ==> Offerable(e) && e in reply
  {
    var kept := Keep(reply);
    KeepMembers(reply);
    OrderedMembers(kept);
    var ordered := Ordered(kept);
    assert forall e :: e in Truncate(ordered) ==> e in ordered;
  }

  /** The conditional sort keeps the same entries. */
  lemma OrderedMembers(kept: seq<Shipping>)
    requires kept != []
    ensures forall e :: e in Ordered(kept) ==> e in kept
  {
    var id := kept[CheapestIndex(kept)].courierId;
    PromoteIsPermutation(kept, id);
    forall e | e in Ordered(kept) ensures e in kept {
      assert e in multiset(Ordered(kept));
    }
  }

  /** When no courier survives the filter, the backend's list is handed on
      exactly as it came. */
  lemma ShapedKeepsUnusableReply(reply: seq<Shipping>)
    requires forall k :: 0 <= k < |reply| ==> !Offerable(reply[k])
    ensures Shaped(reply) == reply
  {
    KeepEmpty(reply);
  }

  /** The first courier offered is a cheapest of the kept ones. When the
      cheapest (the last one on a tie) costs more or less than the first
      kept entry, it is moved to the front and the other kept entries
      follow in their old order; otherwise the kept order stands (courier
      ids in one list are distinct). */
  lemma ShapedCheapestFirst(reply: seq<Shipping>)
    requires Keep(reply) != []
    requires forall i, j :: 0 <= i < j < |Keep(reply)| ==> Keep(reply)[i].courierId != Keep(reply)[j].courierId
    ensures forall j :: 0 <= j < |Keep(reply)| ==> Shaped(reply)[0].cost <= Keep(reply)[j].cost
    ensures var kept := Keep(reply);
            var k := CheapestIndex(kept);
            Shaped(reply) == Truncate(if kept[k].cost != kept[0].cost then [kept[k]] + kept[..k] + kept[k + 1..] else kept)
  {
    var kept := Keep(reply);
    var k := CheapestIndex(kept);
    if kept[k].cost != kept[0].cost {
      PromoteUnique(kept, k);
    }
  }

  // The comparator passed to `sort`

  /** The two comparators of interest, for a given cheapest courier id:
      the one as written and the one evidently intended. */
  datatype Comparator = AsWritten(lowestId: int) | Intended(lowestId: int)

  /** The comparator as written: it means "x before y when x is the
      cheapest courier", but its second test compares the entry `y` itself
      to a courier id, which is never equal, so it never answers 1. The
      intended one ranks the cheapest courier before every other entry,
      all else equal. */
  function Compare(c: Comparator, x: Shipping, y: Shipping): int {
    match c
    case AsWritten(lowestId) =>
      if x.courierId == lowestId then -1
      else 0  // `y === lowestId`: an object is never identical to a number
    case Intended(lowestId) => Rank(x, lowestId) - Rank(y, lowestId)
  }

  function Rank(e: Shipping, lowestId: int): int {
    if e.courierId == lowestId then 0 else 1
  }

  /** A sort comparator must answer the opposite when its arguments are
      swapped (section 23.1.3.30 of ECMA-262 calls one that does not an
      inconsistent comparator, and leaves the sort order to the engine). */
  ghost predicate Antisymmetric(c: Comparator) {
    forall x, y :: (Compare(c, x, y) < 0 <==> Compare(c, y, x) > 0) && (Compare(c, x, y) == 0 <==> Compare(c, y, x) == 0)
  }

  ghost predicate Transitive(c: Comparator) {
    forall x, y, z :: Compare(c, x, y) <= 0 && Compare(c, y, z) <= 0 ==> Compare(c, x, z) <= 0
  }

  /** The comparator as written is inconsistent: the cheapest courier sorts
      before another entry, yet that entry does not sort after it. */
  lemma CompareAsWrittenInconsistent()
    ensures var cheap := Shipping(2, "B", Some("prepaid"), 300);
            var other := Shipping(1, "A", Some("prepaid"), 500);
            Compare(AsWritten(2), cheap, other) == -1 && Compare(AsWritten(2), other, cheap) == 0
    ensures !Antisymmetric(AsWritten(2))
  {
    var cheap := Shipping(2, "B", Some("prepaid"), 300);
    var other := Shipping(1, "A", Some("prepaid"), 500);
    assert Compare(AsWritten(2), cheap, other) < 0 && !(Compare(AsWritten(2), other, cheap) > 0);
  }

  /** The intended comparator is consistent. */
  lemma CompareIntendedConsistent(lowestId: int)
    ensures Antisymmetric(Intended(lowestId))
    ensures Transitive(Intended(lowestId))
  {
  }

  /** A reference stable sort: insertion sort that places each new entry
      after every earlier one the comparator does not put after it. It
      calls the comparator as (earlier entry, new entry). */
  function InsertionSort(s: seq<Shipping>, c: Comparator): seq<Shipping>
    decreases |s|
  {
    if s == [] then [] else Insert(InsertionSort(s[..|s| - 1], c), s[|s| - 1], c)
  }

  function Insert(sorted: seq<Shipping>, e: Shipping, c: Comparator): seq<Shipping>
    decreases |sorted|
  {
    if sorted == [] then [e]
    else if Compare(c, sorted[|sorted| - 1], e) <= 0 then sorted + [e]
    else Insert(sorted[..|sorted| - 1], e, c) + [sorted[|sorted| - 1]]
  }

  /** The comparator as written makes the order engine-defined. A sort
      that calls it as (earlier, later), as this insertion sort does, moves
      nothing: a list whose cheapest courier is second stays as it is. A
      sort that calls it as (later, earlier) gets -1 on the same pair (see
      `CompareAsWrittenInconsistent`) and may promote it. */
  lemma SortAsWrittenKeepsOrder()
    ensures var cheap := Shipping(2, "B", Some("prepaid"), 300);
            var other := Shipping(1, "A", Some("prepaid"), 500);
            InsertionSort([other, cheap], AsWritten(2)) == [other, cheap]
  {
    var cheap := Shipping(2, "B", Some("prepaid"), 300);
    var other := Shipping(1, "A", Some("prepaid"), 500);
    assert [other, cheap][..1] == [other];
    assert [other][..0] == [];
    assert InsertionSort([other], AsWritten(2)) == [other];
  }

  /** With the intended comparator, the stable sort is exactly the
      promotion the model uses. */
  lemma {:induction false} StableSortPromotes(s: seq<Shipping>, lowestId: int)
    ensures InsertionSort(s, Intended(lowestId)) == PromoteCourier(s, lowestId)
    decreases |s|
  {
    if s != [] {
      var init := s[..|s| - 1];
      var e := s[|s| - 1];
      StableSortPromotes(init, lowestId);
      PartsOfPromote(init, lowestId);
      var front := WithId(init, lowestId);
      var back := WithoutId(init, lowestId);
      if e.courierId == lowestId {
        InsertFront(front, back, e, lowestId);
        assert WithId(s, lowestId) == front + [e];
        assert WithoutId(s, lowestId) == back;
      } else {
        var sorted := front + back;
        assert sorted == [] || Compare(Intended(lowestId), sorted[|sorted| - 1], e) <= 0;
        assert Insert(sorted, e, Intended(lowestId)) == sorted + [e];
        assert WithId(s, lowestId) == front;
        assert WithoutId(s, lowestId) == back + [e];
      }
    }
  }

  /** Inserting the cheapest courier's entry behind the ones with its id
      and before all others. */
  lemma {:induction false} InsertFront(front: seq<Shipping>, back: seq<Shipping>, e: Shipping, lowestId: int)
    requires forall k :: 0 <= k < |front| ==> front[k].courierId == lowestId
    requires forall k :: 0 <= k < |back| ==> back[k].courierId != lowestId
    requires e.courierId == lowestId
    ensures Insert(front + back, e, Intended(lowestId)) == front + [e] + back
    decreases |back|
  {
    var c := Intended(lowestId);
    if back == [] {
      assert front + back == front;
      if front != [] {
        assert Compare(c, front[|front| - 1], e) <= 0;
      }
    } else {
      var last := back[|back| - 1];
      var shorter := back[..|back| - 1];
      assert front + back == (front + shorter) + [last];
      assert (front + back)[..|front + back| - 1] == front + shorter;
      InsertFront(front, shorter, e, lowestId);
      assert front + [e] + back == (front + [e] + shorter) + [last];
    }
  }
}
